/** The scenery of `Solution/scenery.js`: the colour serialiser `rgbToHex`
    and the parse that reads it back, the linear range map `scale`, the
    buildings that scroll past and are sent back once they leave the
    view, the two floor panels that leapfrog each other, and the height
    field of a floor panel with its flat centre. Meshes are reduced to
    the depth (z) that the scenery moves; the Perlin noise is a
    caller-supplied function. */
module Terrain {
  import opened Common

  // ---------------------------------------------------------------
  // Colours
  // ---------------------------------------------------------------

  /** The digits `Number.prototype.toString(16)` writes: 0-9, then a-f
      in lower case. */
  predicate IsHexDigit(c: char)
  {
    '0' <= c <= '9' || 'a' <= c <= 'f'
  }

  function Digit(d: int): (c: char)
    requires 0 <= d < 16
    ensures IsHexDigit(c)
  {
    if d < 10 then ('0' as int + d) as char else ('a' as int + d - 10) as char
  }

  /** The value of one hexadecimal digit; 0 for any other character. */
  function DigitValue(c: char): (v: int)
    ensures 0 <= v < 16
  {
    if '0' <= c <= '9' then c as int - '0' as int
    else if 'a' <= c <= 'f' then c as int - 'a' as int + 10
    else if 'A' <= c <= 'F' then c as int - 'A' as int + 10
    else 0
  }

  lemma DigitRoundTrip(d: int)
    requires 0 <= d < 16
    ensures DigitValue(Digit(d)) == d
  {
  }

  function Pow16(k: nat): (p: nat)
    ensures p >= 1
  {
    if k == 0 then 1 else 16 * Pow16(k - 1)
  }

  /** `n.toString(16)` for a non-negative integer `n`: no leading zeros. */
  function Hex(n: nat): (s: string)
    ensures |s| >= 1
    ensures forall i :: 0 <= i < |s| ==> IsHexDigit(s[i])
  {
    if n < 16 then [Digit(n)] else Hex(n / 16) + [Digit(n % 16)]
  }

  /** The low `width` hexadecimal digits of `n`, most significant first. */
  function Fixed(n: nat, width: nat): (s: string)
    ensures |s| == width
    ensures forall i :: 0 <= i < |s| ==> IsHexDigit(s[i])
  {
    if width == 0 then [] else Fixed(n / 16, width - 1) + [Digit(n % 16)]
  }

  /** The value of a string of hexadecimal digits, read left to right. */
  function HexValue(s: string): nat
  {
    if |s| == 0 then 0 else 16 * HexValue(s[..|s| - 1]) + DigitValue(s[|s| - 1])
  }

  /** `parseInt(s)` for the strings the scenery gives it: a `0x` prefix
      followed by hexadecimal digits is read as hexadecimal; any other
      string is `None` (JavaScript's NaN, or a prefix parse this model
      does not follow). */
  function ParseInt(s: string): Option<nat>
  {
    if |s| > 2 && s[..2] == "0x" && forall i :: 2 <= i < |s| ==> IsHexDigit(s[i])
    then Some(HexValue(s[2..]))
    else None
  }

  lemma DivMod16(a: nat, m: nat)
    ensures (16 * a + m) / 16 == a + m / 16
    ensures (16 * a + m) % 16 == m % 16
  {
  }

  lemma MulBy16(a: int, b: int)
    ensures a * (16 * b) == 16 * (a * b)
  {
  }

  /** `width` fixed digits read back give the number they were written from. */
  lemma {:induction false} FixedParses(n: nat, width: nat)
    requires n < Pow16(width)
    ensures HexValue(Fixed(n, width)) == n
  {
    if width > 0 {
      var s := Fixed(n, width);
      assert s[..|s| - 1] == Fixed(n / 16, width - 1);
      assert n / 16 < Pow16(width - 1);
      FixedParses(n / 16, width - 1);
      DigitRoundTrip(n % 16);
    }
  }

  /** A number with a leading 1 digit above `width` digits prints as "1"
      followed by those digits, zeros included. */
  lemma {:induction false} HexOfLeadingOne(width: nat, m: nat)
    requires m < Pow16(width)
    ensures Hex(Pow16(width) + m) == "1" + Fixed(m, width)
  {
    if width > 0 {
      var p := Pow16(width - 1);
      DivMod16(p, m);
      assert Pow16(width) + m == 16 * p + m;
      assert m / 16 < p;
      HexOfLeadingOne(width - 1, m / 16);
    }
  }

  /** The digits of `a` written above `j` digits of `c`. */
  lemma {:induction false} FixedSplit(a: nat, c: nat, k: nat, j: nat, p: nat)
    requires p == Pow16(j) && c < p
    ensures Fixed(a * p + c, k + j) == Fixed(a, k) + Fixed(c, j)
  {
    if j > 0 {
      var p' := Pow16(j - 1);
      var q := a * p';
      assert p == 16 * p';
      MulBy16(a, p');
      var n := 16 * q + c;
      assert n == a * p + c;
      DivMod16(q, c);
      assert c / 16 < p';
      FixedSplit(a, c / 16, k, j - 1, p');
      calc {
        Fixed(n, k + j);
        Fixed(n / 16, k + j - 1) + [Digit(n % 16)];
        Fixed(q + c / 16, k + (j - 1)) + [Digit(c % 16)];
        Fixed(a, k) + Fixed(c / 16, j - 1) + [Digit(c % 16)];
        Fixed(a, k) + Fixed(c, j);
      }
    }
  }

  /** The six low digits of a packed colour are the two digits of each
      channel. */
  lemma PackedDigits(r: int, g: int, b: int)
    requires 0 <= r < 256 && 0 <= g < 256 && 0 <= b < 256
    ensures Fixed(r * 65536 + g * 256 + b, 6) == Fixed(r, 2) + Fixed(g, 2) + Fixed(b, 2)
  {
    assert Pow16(4) == 65536 && Pow16(2) == 256;
    FixedSplit(g, b, 2, 2, 256);
    FixedSplit(r, g * 256 + b, 2, 4, 65536);
  }

  /** `rgbToHex`: "0x" followed by two lower-case hexadecimal digits per
      channel, red, green, blue. The shifts of the source stay within 32
      bits for channels in 0..255, so they are multiplications here. */
  function RgbToHex(r: int, g: int, b: int): (h: string)
    requires 0 <= r < 256 && 0 <= g < 256 && 0 <= b < 256
    ensures h == "0x" + Fixed(r, 2) + Fixed(g, 2) + Fixed(b, 2)
  {
    var m := r * 65536 + g * 256 + b;
    assert Pow16(6) == 16777216;
    HexOfLeadingOne(6, m);
    PackedDigits(r, g, b);
    "0x" + Hex(16777216 + m)[1..]
  }

  /** Parsing the colour string, as the scenery does when it builds a
      material, gives back the packed colour. */
  lemma RgbToHexParses(r: int, g: int, b: int)
    requires 0 <= r < 256 && 0 <= g < 256 && 0 <= b < 256
    ensures ParseInt(RgbToHex(r, g, b)) == Some(r * 65536 + g * 256 + b)
  {
    var h := RgbToHex(r, g, b);
    assert Pow16(6) == 16777216;
    PackedDigits(r, g, b);
    assert h[2..] == Fixed(r * 65536 + g * 256 + b, 6);
    FixedParses(r * 65536 + g * 256 + b, 6);
  }

  /** Each channel can be read back from its own two digits. */
  lemma ChannelsParse(r: int, g: int, b: int)
    requires 0 <= r < 256 && 0 <= g < 256 && 0 <= b < 256
    ensures var h := RgbToHex(r, g, b);
      HexValue(h[2..4]) == r && HexValue(h[4..6]) == g && HexValue(h[6..]) == b
  {
    var h := RgbToHex(r, g, b);
    assert h[2..4] == Fixed(r, 2) && h[4..6] == Fixed(g, 2) && h[6..] == Fixed(b, 2);
    assert Pow16(2) == 256;
    FixedParses(r, 2);
    FixedParses(g, 2);
    FixedParses(b, 2);
  }

  // ---------------------------------------------------------------
  // Range map
  // ---------------------------------------------------------------

  /** `scale`: maps `number` from [inMin, inMax] onto [outMin, outMax].
      Equal input bounds (a division by zero) are outside the model. */
  function Scale(number: real, inMin: real, inMax: real, outMin: real, outMax: real): (r: real)
    requires inMax != inMin
    ensures number == inMin ==> r == outMin
    ensures number == inMax ==> r == outMax
  {
    var q := ((number - inMin) * (outMax - outMin)) / (inMax - inMin);
    assert q * (inMax - inMin) == (number - inMin) * (outMax - outMin);
    if number == inMin then
      ZeroFactor(q, inMax - inMin);
      q + outMin
    else if number == inMax then
      ZeroFactor(q - (outMax - outMin), inMax - inMin);
      q + outMin
    else
      q + outMin
  }

  lemma ZeroFactor(x: real, d: real)
    requires d != 0.0 && x * d == 0.0
    ensures x == 0.0
  {
  }

  /** The map is affine: equal steps in get equal steps out. */
  lemma ScaleAffine(x: real, y: real, inMin: real, inMax: real, outMin: real, outMax: real)
    requires inMax != inMin
    ensures (Scale(x, inMin, inMax, outMin, outMax) - Scale(y, inMin, inMax, outMin, outMax)) * (inMax - inMin)
            == (x - y) * (outMax - outMin)
  {
    var d := inMax - inMin;
    assert (Scale(x, inMin, inMax, outMin, outMax) - outMin) * d == (x - inMin) * (outMax - outMin);
    assert (Scale(y, inMin, inMax, outMin, outMax) - outMin) * d == (y - inMin) * (outMax - outMin);
  }

  /** Mapping back with the ranges swapped gives the number again. */
  lemma ScaleInverse(number: real, inMin: real, inMax: real, outMin: real, outMax: real)
    requires inMax != inMin && outMax != outMin
    ensures Scale(Scale(number, inMin, inMax, outMin, outMax), outMin, outMax, inMin, inMax) == number
  {
    var t := (number - inMin) / (inMax - inMin);
    var s := Scale(number, inMin, inMax, outMin, outMax);
    assert s - outMin == t * (outMax - outMin);
    assert (s - outMin) / (outMax - outMin) == t;
    assert t * (inMax - inMin) == number - inMin;
  }

  /** A number inside the input range lands inside the output range. */
  lemma ScaleWithin(number: real, inMin: real, inMax: real, outMin: real, outMax: real)
    requires inMin < inMax && inMin <= number <= inMax
    ensures outMin <= outMax ==> outMin <= Scale(number, inMin, inMax, outMin, outMax) <= outMax
    ensures outMax <= outMin ==> outMax <= Scale(number, inMin, inMax, outMin, outMax) <= outMin
  {
    var t := (number - inMin) / (inMax - inMin);
    assert 0.0 <= t <= 1.0;
    assert Scale(number, inMin, inMax, outMin, outMax) == t * (outMax - outMin) + outMin;
  }

  // ---------------------------------------------------------------
  // Buildings
  // ---------------------------------------------------------------

  /** A building is sent back once its depth passes this. */
  const NearEdge: real := -250.0
  /** How far a building that left the view is sent back. */
  const RecycleDepth: real := 50000.0

  /** One building and its top in `move`: both come `speed` closer and,
      once the building passes the near edge, both go back together. */
  function Carried(building: real, top: real, speed: real): (r: (real, real))
    ensures r.1 - r.0 == top - building
    ensures building + speed > NearEdge ==> r.0 == building + speed - RecycleDepth
    ensures building + speed <= NearEdge ==> r.0 == building + speed
    ensures NearEdge - RecycleDepth < building <= NearEdge && 0.0 <= speed <= RecycleDepth ==>
      NearEdge - RecycleDepth < r.0 <= NearEdge
  {
    var b, t := building + speed, top + speed;
    if b > NearEdge then (b - RecycleDepth, t - RecycleDepth) else (b, t)
  }

  // ---------------------------------------------------------------
  // Floor panels
  // ---------------------------------------------------------------

  /** `plane_y`: the length of a floor panel. */
  const PanelLength: real := 75000.0

  /** The depths of the two floor panels and `reset_second_floor_flag`. */
  datatype Floors = Floors(first: real, second: real, resetSecond: bool)

  /** The panel `moveFloors` rebuilds after moving both by `speed`: the
      first when it is two panels past, the first (once only, while the
      flag is up) when the second is one panel past, the second when it
      is two panels past; 0 for none. */
  function Regenerated(f: Floors, speed: real): (k: int)
    ensures 0 <= k <= 2
    ensures k == 0 <==> f.first + speed <= 2.0 * PanelLength
                        && !(f.second + speed > PanelLength && f.resetSecond)
                        && f.second + speed <= 2.0 * PanelLength
  {
    if f.first + speed > 2.0 * PanelLength then 1
    else if f.second + speed > PanelLength && f.resetSecond then 1
    else if f.second + speed > 2.0 * PanelLength then 2
    else 0
  }

  /** The floors after `moveFloors`: both advance, and the rebuilt panel
      (if any) is placed one panel length behind the other. */
  function Cycled(f: Floors, speed: real): (g: Floors)
    ensures g.resetSecond ==> f.resetSecond
    ensures Regenerated(f, speed) == 0 ==> g.first == f.first + speed && g.second == f.second + speed
    ensures Regenerated(f, speed) == 1 ==> g.second == f.second + speed && g.first == g.second - PanelLength
    ensures Regenerated(f, speed) == 2 ==> g.first == f.first + speed && g.second == g.first - PanelLength
  {
    var a, b := f.first + speed, f.second + speed;
    if a > 2.0 * PanelLength then Floors(b - PanelLength, b, f.resetSecond)
    else if b > PanelLength && f.resetSecond then Floors(b - PanelLength, b, false)
    else if b > 2.0 * PanelLength then Floors(a, a - PanelLength, f.resetSecond)
    else Floors(a, b, f.resetSecond)
  }

  /** Once the panels are one panel length apart, they stay so. */
  lemma PanelsStayAdjacent(f: Floors, speed: real)
    requires Abs(f.first - f.second) == PanelLength || Regenerated(f, speed) != 0
    ensures Abs(Cycled(f, speed).first - Cycled(f, speed).second) == PanelLength
  {
  }

  /** The flag is lowered exactly when the second panel's crossing
      rebuilds the first. */
  lemma FlagLoweredOnce(f: Floors, speed: real)
    ensures f.resetSecond && !Cycled(f, speed).resetSecond <==>
      f.first + speed <= 2.0 * PanelLength && f.second + speed > PanelLength && f.resetSecond
  {
  }

  // ---------------------------------------------------------------
  // Height field
  // ---------------------------------------------------------------

  /** `quality` in `generateHeight`. */
  const Quality: real := 50.0

  /** Storing a number into a `Uint8Array`: truncated toward zero, then
      taken modulo 256. */
  function ToUint8(v: real): (b: int)
    ensures 0 <= b < 256
    ensures 0.0 <= v < 256.0 ==> b == v.Floor
  {
    var t := if v >= 0.0 then v.Floor else -((-v).Floor);
    t % 256
  }

  /** Distance of column `x` from the middle of the panel. */
  function FromCentre(x: int, width: int): real
  {
    Abs(x as real - width as real / 2.0)
  }

  /** Entry `i` of the height field built on call number `iters`: a
      column within 25 of the middle is left at 0; elsewhere the noise
      at (x, y) is weighted by the distance from the flat strip and by
      an influence that vanishes at the middle and at the edges. */
  function HeightAt(i: int, width: int, iters: int, noise: (real, real) -> real): (h: int)
    requires i >= 0 && width > 0
    ensures 0 <= h < 256
    ensures FromCentre(i % width, width) <= 25.0 ==> h == 0
    ensures i % width == 0 ==> h == 0
  {
    var x := i % width;
    var y := width - i / width;
    var centre := FromCentre(x, width);
    if centre > 25.0 then
      var influence := Abs(width as real / 4.0 - Abs(centre - width as real / 4.0)) / 100.0;
      var closeToCentre := (centre - 25.0) / 4.0;
      var n := noise(x as real / Quality, ((width - 1) * iters + y) as real / Quality);
      assert x == 0 ==> centre == width as real / 2.0 && influence == 0.0;
      ToUint8(influence * closeToCentre * Abs(n * Quality))
    else
      0
  }

  // ---------------------------------------------------------------
  // The scenery
  // ---------------------------------------------------------------

  class Scenery {
    /** Depths of the buildings and of their tops; `None` is an
        `undefined` slot, which `move` skips. */
    var buildings: seq<Option<real>>
    var tops: seq<Option<real>>
    /** Depths of `floor_mesh_1` and `floor_mesh_2`. */
    var floor1: real
    var floor2: real
    var resetSecondFloor: bool
    /** How many height fields have been generated. */
    var iters: int

    /** Every building has a top. */
    predicate Valid()
      reads this
    {
      |tops| == |buildings| && forall i :: 0 <= i < |buildings| && buildings[i].Some? ==> tops[i].Some?
    }

    function Panels(): Floors
      reads this
    {
      Floors(floor1, floor2, resetSecondFloor)
    }

    constructor ()
      ensures Valid() && buildings == [] && tops == []
      ensures floor1 == 0.0 && floor2 == 0.0 && resetSecondFloor && iters == 0
    {
      buildings, tops := [], [];
      floor1, floor2 := 0.0, 0.0;
      resetSecondFloor := true;
      iters := 0;
    }

    /** `generateHeight`: a `width` by `height` field, row by row, and
        one more generation counted. */
    method GenerateHeight(width: int, height: int, noise: (real, real) -> real) returns (data: seq<int>)
      requires width >= 0 && height >= 0
      modifies this`iters
      ensures iters == old(iters) + 1
      ensures |data| == width * height
      ensures forall i :: 0 <= i < |data| ==> data[i] == HeightAt(i, width, old(iters), noise)
    {
      var size := width * height;
      data := [];
      var i := 0;
      while i < size
        invariant 0 <= i <= size && |data| == i
        invariant width > 0 || size == 0
        invariant forall k :: 0 <= k < i ==> data[k] == HeightAt(k, width, iters, noise)
      {
        data := data + [HeightAt(i, width, iters, noise)];
        i := i + 1;
      }
      iters := iters + 1;
    }

    /** `updateFloor`, placement only: a new height field is generated
        and the rebuilt panel is put one panel length behind the other. */
    method UpdateFloor(floor: int, noise: (real, real) -> real)
      modifies this`iters, this`floor1, this`floor2
      ensures iters == old(iters) + 1
      ensures floor == 1 ==> floor1 == floor2 - PanelLength && floor2 == old(floor2)
      ensures floor == 2 ==> floor2 == floor1 - PanelLength && floor1 == old(floor1)
      ensures floor != 1 && floor != 2 ==> floor1 == old(floor1) && floor2 == old(floor2)
    {
      var data := GenerateHeight(256, 256, noise);
      if floor == 1 {
        floor1 := floor2 - PanelLength;
      } else if floor == 2 {
        floor2 := floor1 - PanelLength;
      }
    }

    /** `moveFloors`. */
    method MoveFloors(speed: real, noise: (real, real) -> real)
      modifies this`iters, this`floor1, this`floor2, this`resetSecondFloor
      ensures Panels() == Cycled(old(Panels()), speed)
      ensures iters == old(iters) + if Regenerated(old(Panels()), speed) == 0 then 0 else 1
    {
      floor1 := floor1 + speed;
      floor2 := floor2 + speed;
      if floor1 > 2.0 * PanelLength {
        UpdateFloor(1, noise);
      } else if floor2 > PanelLength && resetSecondFloor {
        UpdateFloor(1, noise);
        resetSecondFloor := false;
      } else if floor2 > 2.0 * PanelLength {
        UpdateFloor(2, noise);
      }
    }

    /** `move`: every building and its top are carried by `speed`, then
        the floors. */
    method Move(speed: real, noise: (real, real) -> real)
      requires Valid()
      modifies this
      ensures Valid() && |buildings| == old(|buildings|)
      ensures forall i :: 0 <= i < |buildings| ==>
        if old(buildings[i]).Some? then
          var c := Carried(old(buildings[i]).value, old(tops[i]).value, speed);
          buildings[i] == Some(c.0) && tops[i] == Some(c.1)
        else
          buildings[i] == None && tops[i] == old(tops[i])
      ensures Panels() == Cycled(old(Panels()), speed)
      ensures iters == old(iters) + if Regenerated(old(Panels()), speed) == 0 then 0 else 1
    {
      var bs, ts := buildings, tops;
      var i := 0;
      while i < |bs|
        invariant 0 <= i <= |bs| == |ts| == |buildings| == |tops|
        invariant forall k :: 0 <= k < |bs| && buildings[k].Some? ==> tops[k].Some?
        invariant forall k :: 0 <= k < i ==>
          if buildings[k].Some? then
            var c := Carried(buildings[k].value, tops[k].value, speed);
            bs[k] == Some(c.0) && ts[k] == Some(c.1)
          else
            bs[k] == None && ts[k] == tops[k]
        invariant forall k :: i <= k < |bs| ==> bs[k] == buildings[k] && ts[k] == tops[k]
      {
        if bs[i].Some? {
          var c := Carried(bs[i].value, ts[i].value, speed);
          bs, ts := bs[i := Some(c.0)], ts[i := Some(c.1)];
        }
        i := i + 1;
      }
      buildings, tops := bs, ts;
      MoveFloors(speed, noise);
    }
  }
}
