/** The post-processing composer the hyperdrive adds its colour pass to.
    Only its list of passes is modelled: `addPass` appends a pass and
    `removePass` takes out the first occurrence of a pass, if any. */
module Effects {

  /** The hyperdrive's colour shader pass, the pause menu's greyscale
      pass, or any other pass the game put in the composer. */
  datatype Pass = ColourPass | GreyscalePass | OtherPass(id: nat)

  /** `s` with its first `p` removed; `s` itself when there is none. */
  function Without(s: seq<Pass>, p: Pass): (r: seq<Pass>)
    ensures p !in s ==> r == s
    ensures p in s ==> |r| == |s| - 1
  {
    if |s| == 0 then s
    else if s[0] == p then s[1..] else [s[0]] + Without(s[1..], p)
  }

  /** Removing takes out one occurrence of the pass and nothing else. */
  lemma {:induction false} WithoutRemovesOne(s: seq<Pass>, p: Pass)
    ensures multiset(Without(s, p)) == multiset(s) - multiset{p}
  {
    if |s| > 0 {
      assert s == [s[0]] + s[1..];
      if s[0] != p {
        WithoutRemovesOne(s[1..], p);
      }
    }
  }

  /** Removing a pass just added to a composer that did not hold it gives
      back the composer's passes unchanged, in order. */
  lemma {:induction false} AddThenRemove(s: seq<Pass>, p: Pass)
    requires p !in s
    ensures Without(s + [p], p) == s
  {
    if |s| > 0 {
      calc {
        Without(s + [p], p);
        { assert (s + [p])[0] == s[0] != p; }
        [s[0]] + Without((s + [p])[1..], p);
        { assert (s + [p])[1..] == s[1..] + [p]; }
        [s[0]] + Without(s[1..] + [p], p);
        { AddThenRemove(s[1..], p); }
        [s[0]] + s[1..];
      }
    }
  }

  class Composer {
    var passes: seq<Pass>

    constructor (initial: seq<Pass>)
      ensures passes == initial
    {
      passes := initial;
    }

    method AddPass(p: Pass)
      modifies this
      ensures passes == old(passes) + [p]
    {
      passes := passes + [p];
    }

    method RemovePass(p: Pass)
      modifies this
      ensures passes == Without(old(passes), p)
    {
      passes := Without(passes, p);
    }
  }
}
