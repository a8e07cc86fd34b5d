/** The menu of `Solution/menu.js`: the pause toggle, which holds the
    mode timer still while the game is paused, the buttons that slide
    in and out of view, the dispatch over the names of the buttons under
    the mouse, and the guide (the last button) that is shown and hidden.
    Textures, the raycaster and the wall clock are left out: the names
    hit by the raycaster and the current time in seconds are inputs. */
module PauseMenu {
  import opened Common
  import opened Effects

  /** A button mesh: its name, position and visibility. */
  datatype Button = Button(name: string, x: real, y: real, z: real, visible: bool)

  /** How far back `moveIn` sends the buttons, how far forward `moveOut`
      brings them, and the step of either per frame. */
  const Back: real := -2500.0
  const Front: real := 1000.0
  const Step: real := 50.0

  // ---------------------------------------------------------------
  // Sliding buttons
  // ---------------------------------------------------------------

  /** A depth the buttons can take: between `Back` and `Front`, on the
      50-step grid that starts at `Back`. */
  predicate OnTrack(z: real)
  {
    exists n: int {:trigger Notch(n)} :: 0 <= n <= 70 && z == Notch(n)
  }

  /** The depth `n` steps in front of `Back`. */
  function Notch(n: int): real
  {
    Back + Step * n as real
  }

  /** One button's depth after one `moveIn` frame. */
  function SlidIn(z: real): (r: real)
    ensures r <= z
    ensures r == z <==> z <= Back
  {
    if z > Back then z - Step else z
  }

  /** One button's depth after one `moveOut` frame. */
  function SlidOut(z: real): (r: real)
    ensures r >= z
    ensures r == z <==> z >= Front
  {
    if z < Front then z + Step else z
  }

  /** A button on the track stays on it, whichever way it slides. */
  lemma SlideStaysOnTrack(z: real)
    requires OnTrack(z)
    ensures OnTrack(SlidIn(z)) && OnTrack(SlidOut(z))
    ensures Back <= SlidIn(z) <= Front && Back <= SlidOut(z) <= Front
  {
    var n :| 0 <= n <= 70 && z == Notch(n);
    if n > 0 {
      assert SlidIn(z) == Notch(n - 1);
    } else {
      assert SlidIn(z) == Notch(n);
    }
    if n < 70 {
      assert SlidOut(z) == Notch(n + 1);
    } else {
      assert SlidOut(z) == Notch(n);
    }
  }

  /** On the track, a frame in and a frame out cancel, in either order,
      except at the end the first frame could not leave. */
  lemma SlideRoundTrip(z: real)
    requires OnTrack(z)
    ensures z > Back ==> SlidOut(SlidIn(z)) == z
    ensures z < Front ==> SlidIn(SlidOut(z)) == z
  {
    var n :| 0 <= n <= 70 && z == Notch(n);
  }

  /** `moveIn` and `moveOut` move every button but the last, which is
      the guide. */
  method Slide(bs: seq<Button>, inward: bool) returns (r: seq<Button>)
    ensures |r| == |bs|
    ensures forall i :: 0 <= i < |bs| - 1 ==>
      r[i] == bs[i].(z := if inward then SlidIn(bs[i].z) else SlidOut(bs[i].z))
    ensures |bs| > 0 ==> r[|bs| - 1] == bs[|bs| - 1]
  {
    r := bs;
    var i := 0;
    while i < |bs| - 1
      invariant 0 <= i <= |bs| && |r| == |bs|
      invariant i <= |bs| - 1 || |bs| == 0
      invariant forall k :: 0 <= k < i ==>
        r[k] == bs[k].(z := if inward then SlidIn(bs[k].z) else SlidOut(bs[k].z))
      invariant forall k :: i <= k < |bs| ==> r[k] == bs[k]
    {
      r := r[i := r[i].(z := if inward then SlidIn(r[i].z) else SlidOut(r[i].z))];
      i := i + 1;
    }
  }

  // ---------------------------------------------------------------
  // Press dispatch
  // ---------------------------------------------------------------

  /** What `checkForPress` answers for the names `hits` under the mouse,
      with the guide's visibility `visible`, and the guide's visibility
      after it: the first "Start" hides the guide and answers "Start",
      the first "Postprocessing" answers itself, every "Guide" before
      either toggles the guide, and no answer is `None` (the source's
      `false`). */
  function Press(hits: seq<string>, visible: bool): (r: (Option<string>, bool))
    ensures r.0 == Some("Start") ==> !r.1
    ensures r.0.Some? ==> r.0 == Some("Start") || r.0 == Some("Postprocessing")
  {
    if |hits| == 0 then (None, visible)
    else if hits[0] == "Start" then (Some("Start"), false)
    else if hits[0] == "Postprocessing" then (Some("Postprocessing"), visible)
    else Press(hits[1..], if hits[0] == "Guide" then !visible else visible)
  }

  predicate Stops(name: string)
  {
    name == "Start" || name == "Postprocessing"
  }

  /** The index of the first "Start" or "Postprocessing"; |hits| if none. */
  function FirstStop(hits: seq<string>): (i: nat)
    ensures i <= |hits|
    ensures i < |hits| ==> Stops(hits[i])
    ensures forall k :: 0 <= k < i ==> !Stops(hits[k])
  {
    if |hits| == 0 then 0
    else if Stops(hits[0]) then 0
    else 1 + FirstStop(hits[1..])
  }

  /** How many of `hits` are "Guide". */
  function Guides(hits: seq<string>): nat
  {
    if |hits| == 0 then 0
    else (if hits[0] == "Guide" then 1 else 0) + Guides(hits[1..])
  }

  /** The dispatch answers the first stopping name, if any, and leaves the
      guide hidden after "Start" and otherwise toggled once per "Guide"
      seen before the answer. */
  lemma {:induction false} PressAnswersFirstStop(hits: seq<string>, visible: bool)
    ensures var i := FirstStop(hits);
      && Press(hits, visible).0 == (if i < |hits| then Some(hits[i]) else None)
      && Press(hits, visible).1 ==
           if i < |hits| && hits[i] == "Start" then false
           else if Guides(hits[..i]) % 2 == 0 then visible else !visible
  {
    if |hits| > 0 && !Stops(hits[0]) {
      var v := if hits[0] == "Guide" then !visible else visible;
      PressAnswersFirstStop(hits[1..], v);
      var i := FirstStop(hits);
      assert hits[..i][1..] == hits[1..][..i - 1];
    }
  }

  // ---------------------------------------------------------------
  // Pausing
  // ---------------------------------------------------------------

  /** The guide when the game pauses: brought 500 forward and 400 up
      beside the car, and shown unless the hyperdrive is running. */
  function Paused(guide: Button, carX: real, inHyper: bool): (b: Button)
    ensures b.name == guide.name && b.x == carX
    ensures b.z == guide.z + 500.0 && b.y == guide.y + 400.0
    ensures b.visible == (guide.visible || !inHyper)
  {
    guide.(z := guide.z + 500.0, y := guide.y + 400.0, x := carX, visible := if inHyper then guide.visible else true)
  }

  /** The guide when the game resumes: sent back, centred and hidden. */
  function Resumed(guide: Button): (b: Button)
    ensures b.name == guide.name && b.x == 0.0 && !b.visible
    ensures b.z == guide.z - 500.0 && b.y == guide.y - 400.0
  {
    guide.(z := guide.z - 500.0, y := guide.y - 400.0, x := 0.0, visible := false)
  }

  /** Pausing and resuming puts the guide back at its depth and height. */
  lemma PauseThenResume(guide: Button, carX: real, inHyper: bool)
    ensures Resumed(Paused(guide, carX, inHyper)) == guide.(x := 0.0, visible := false)
  {
  }

  /** The mode timer's mark on resuming: moved on by the time spent
      paused, so the time it has run stays what it was on pausing. */
  function ResumedTime(time: int, now: int, pausedAt: int): (r: int)
    ensures now - r == pausedAt - time
  {
    time + (now - pausedAt)
  }

  // ---------------------------------------------------------------
  // The menu
  // ---------------------------------------------------------------

  class Menu {
    var buttons: seq<Button>
    var active: bool
    var paused: bool
    /** When the game was paused, in whole seconds; `None` until then. */
    var pausedTime: Option<int>
    var lastTimeWhenPaused: Option<int>
    var postprocessingEnabled: bool

    /** A paused game knows when it was paused. */
    predicate Valid()
      reads this
    {
      paused ==> pausedTime.Some?
    }

    constructor ()
      ensures Valid() && buttons == [] && active && !paused
      ensures pausedTime.None? && lastTimeWhenPaused.None? && !postprocessingEnabled
    {
      buttons := [];
      active := true;
      paused := false;
      pausedTime := None;
      lastTimeWhenPaused := None;
      postprocessingEnabled := false;
    }

    /** `initialise`, buttons only: start, title, guide toggle,
        post-processing toggle and the guide itself, all at depth -2500. */
    method Initialise()
      modifies this`buttons
      ensures buttons == old(buttons) + [
        Button("Start", 0.0, 1700.0, Back, true),
        Button("Title", 0.0, 2100.0, Back, true),
        Button("Guide", 1250.0, 1700.0, Back, true),
        Button("Postprocessing", -1250.0, 1700.0, Back, true),
        Button("Instructions", 0.0, 800.0, Back, true)]
    {
      buttons := buttons + [Button("Start", 0.0, 1700.0, Back, true)];
      buttons := buttons + [Button("Title", 0.0, 2100.0, Back, true)];
      buttons := buttons + [Button("Guide", 1250.0, 1700.0, Back, true)];
      buttons := buttons + [Button("Postprocessing", -1250.0, 1700.0, Back, true)];
      buttons := buttons + [Button("Instructions", 0.0, 800.0, Back, true)];
    }

    method TogglePostprocessing()
      modifies this`postprocessingEnabled
      ensures postprocessingEnabled == !old(postprocessingEnabled)
    {
      postprocessingEnabled := !postprocessingEnabled;
    }

    method SetActive(a: bool)
      modifies this`active
      ensures active == a
    {
      active := a;
    }

    /** `togglePauseMenu` at wall-clock second `now`, with `time` the
        mode timer's mark. */
    method TogglePauseMenu(composer: Composer, time: int, inHyper: bool, carX: real, now: int)
      returns (r: int)
      requires Valid() && |buttons| >= 1
      modifies this`paused, this`buttons, this`pausedTime, this`lastTimeWhenPaused, composer
      ensures Valid() && |buttons| == old(|buttons|)
      ensures forall i :: 0 <= i < |buttons| - 1 ==> buttons[i] == old(buttons[i])
      ensures old(paused) ==>
        && !paused && r == ResumedTime(time, now, old(pausedTime).value)
        && buttons[|buttons| - 1] == Resumed(old(buttons[|buttons| - 1]))
        && pausedTime == old(pausedTime) && lastTimeWhenPaused == old(lastTimeWhenPaused)
        && composer.passes == if postprocessingEnabled then Without(old(composer.passes), GreyscalePass)
                              else old(composer.passes)
      ensures !old(paused) && !active ==>
        && paused && r == time && pausedTime == Some(now) && lastTimeWhenPaused == Some(time)
        && buttons[|buttons| - 1] == Paused(old(buttons[|buttons| - 1]), carX, inHyper)
        && composer.passes == if postprocessingEnabled then old(composer.passes) + [GreyscalePass]
                              else old(composer.passes)
      ensures !old(paused) && active ==>
        && !paused && r == time && buttons == old(buttons) && composer.passes == old(composer.passes)
        && pausedTime == old(pausedTime) && lastTimeWhenPaused == old(lastTimeWhenPaused)
    {
      if paused {
        r := Resume(composer, time, now);
      } else if !active {
        Pause(composer, time, inHyper, carX, now);
        r := time;
      } else {
        r := time;
      }
    }

    /** The unpausing half of `togglePauseMenu`. */
    method Resume(composer: Composer, time: int, now: int) returns (r: int)
      requires paused && pausedTime.Some? && |buttons| >= 1
      modifies this`paused, this`buttons, composer
      ensures !paused && r == ResumedTime(time, now, pausedTime.value)
      ensures |buttons| == old(|buttons|)
      ensures buttons == old(buttons)[|buttons| - 1 := Resumed(old(buttons[|buttons| - 1]))]
      ensures composer.passes == if postprocessingEnabled then Without(old(composer.passes), GreyscalePass)
                                 else old(composer.passes)
    {
      paused := !paused;
      if postprocessingEnabled {
        composer.RemovePass(GreyscalePass);
      }
      var last := |buttons| - 1;
      var guide := buttons[last];
      buttons := buttons[last := guide.(z := guide.z - 500.0, y := guide.y - 400.0, x := 0.0)];
      HideGuide();
      r := time + (now - pausedTime.value);
    }

    /** The pausing half of `togglePauseMenu`. */
    method Pause(composer: Composer, time: int, inHyper: bool, carX: real, now: int)
      requires !paused && |buttons| >= 1
      modifies this`paused, this`buttons, this`pausedTime, this`lastTimeWhenPaused, composer
      ensures paused && pausedTime == Some(now) && lastTimeWhenPaused == Some(time)
      ensures |buttons| == old(|buttons|)
      ensures buttons == old(buttons)[|buttons| - 1 := Paused(old(buttons[|buttons| - 1]), carX, inHyper)]
      ensures composer.passes == if postprocessingEnabled then old(composer.passes) + [GreyscalePass]
                                 else old(composer.passes)
    {
      paused := !paused;
      var last := |buttons| - 1;
      var guide := buttons[last];
      buttons := buttons[last := guide.(z := guide.z + 500.0, y := guide.y + 400.0, x := carX)];
      if postprocessingEnabled {
        composer.AddPass(GreyscalePass);
      }
      pausedTime := Some(now);
      lastTimeWhenPaused := Some(time);
      if !inHyper {
        ShowGuide();
      }
    }

    /** `moveIn`: every button but the guide one step back. */
    method MoveIn()
      modifies this`buttons
      ensures |buttons| == old(|buttons|)
      ensures forall i :: 0 <= i < |buttons| - 1 ==> buttons[i] == old(buttons[i]).(z := SlidIn(old(buttons[i]).z))
      ensures |buttons| > 0 ==> buttons[|buttons| - 1] == old(buttons[|buttons| - 1])
    {
      buttons := Slide(buttons, true);
    }

    /** `moveOut`: every button but the guide one step forward, and the
        guide hidden. */
    method MoveOut()
      requires |buttons| >= 1
      modifies this`buttons
      ensures |buttons| == old(|buttons|)
      ensures forall i :: 0 <= i < |buttons| - 1 ==> buttons[i] == old(buttons[i]).(z := SlidOut(old(buttons[i]).z))
      ensures buttons[|buttons| - 1] == old(buttons[|buttons| - 1]).(visible := false)
    {
      buttons := Slide(buttons, false);
      HideGuide();
    }

    /** `checkForPress`, given the names under the mouse nearest first. */
    method CheckForPress(hits: seq<string>) returns (r: Option<string>)
      requires |buttons| >= 1
      modifies this`buttons
      ensures r == Press(hits, old(buttons[|buttons| - 1].visible)).0
      ensures |buttons| == old(|buttons|)
      ensures buttons == old(buttons)[old(|buttons|) - 1 := old(buttons[|buttons| - 1])
                           .(visible := Press(hits, old(buttons[|buttons| - 1].visible)).1)]
    {
      var last := |buttons| - 1;
      var i := 0;
      while i < |hits|
        invariant 0 <= i <= |hits| && |buttons| == old(|buttons|)
        invariant buttons == old(buttons)[last := old(buttons[last]).(visible := buttons[last].visible)]
        invariant Press(hits[i..], buttons[last].visible) == Press(hits, old(buttons[last].visible))
      {
        assert hits[i..][1..] == hits[i + 1..];
        if hits[i] == "Start" {
          HideGuide();
          return Some("Start");
        }
        if hits[i] == "Postprocessing" {
          return Some("Postprocessing");
        }
        if hits[i] == "Guide" {
          buttons := buttons[last := buttons[last].(visible := !buttons[last].visible)];
        }
        i := i + 1;
      }
      r := None;
    }

    /** `setButtonsX`: the first five buttons follow the car sideways. */
    method SetButtonsX(x: real)
      requires |buttons| >= 5
      modifies this`buttons
      ensures |buttons| == old(|buttons|)
      ensures buttons[0] == old(buttons[0]).(x := x) && buttons[1] == old(buttons[1]).(x := x)
      ensures buttons[2] == old(buttons[2]).(x := x + 1250.0) && buttons[3] == old(buttons[3]).(x := x - 1250.0)
      ensures buttons[4] == old(buttons[4]).(x := x)
      ensures forall i :: 5 <= i < |buttons| ==> buttons[i] == old(buttons[i])
    {
      buttons := buttons[0 := buttons[0].(x := x)];
      buttons := buttons[1 := buttons[1].(x := x)];
      buttons := buttons[2 := buttons[2].(x := x + 1250.0)];
      buttons := buttons[3 := buttons[3].(x := x - 1250.0)];
      buttons := buttons[4 := buttons[4].(x := x)];
    }

    method HideGuide()
      requires |buttons| >= 1
      modifies this`buttons
      ensures |buttons| == old(|buttons|)
      ensures buttons == old(buttons)[old(|buttons|) - 1 := old(buttons[|buttons| - 1]).(visible := false)]
    {
      buttons := buttons[|buttons| - 1 := buttons[|buttons| - 1].(visible := false)];
    }

    method ShowGuide()
      requires |buttons| >= 1
      modifies this`buttons
      ensures |buttons| == old(|buttons|)
      ensures buttons == old(buttons)[old(|buttons|) - 1 := old(buttons[|buttons| - 1]).(visible := true)]
    {
      buttons := buttons[|buttons| - 1 := buttons[|buttons| - 1].(visible := true)];
    }
  }
}
