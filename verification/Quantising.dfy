/** Rounding a group of weights to four-bit codes, in exact arithmetic. */
module Quantising {
  function Abs(x: real): (r: real) {
    if x < 0.0 then -x else x
  }

  /** To the nearest whole number, and to the even one of two that are equally near. */
  function RoundHalfEven(x: real): (r: int)
    ensures x - 0.5 <= r as real <= x + 0.5
    ensures r as real == x - 0.5 || r as real == x + 0.5 ==> r % 2 == 0
  {
    var down := x.Floor;
    var rest := x - down as real;
    if rest < 0.5 || (rest == 0.5 && down % 2 == 0) then down else down + 1
  }

  function Clamp(x: int, low: int, high: int): (r: int)
    requires low <= high
  {
    if x < low then low else if x > high then high else x
  }

  /** The largest magnitude in a group. */
  function Largest(group: seq<real>): (r: real)
    ensures forall i :: 0 <= i < |group| ==> Abs(group[i]) <= r
    ensures r >= 0.0 && (r == 0.0 || exists i :: 0 <= i < |group| && Abs(group[i]) == r)
  {
    if group == [] then 0.0 else
      var rest := Largest(group[1..]);
      assert forall i :: 0 < i < |group| ==> group[i] == group[1..][i - 1];
      if Abs(group[0]) >= rest then Abs(group[0]) else rest
  }

  function ScaleOf(group: seq<real>): (s: real)
    ensures s > 0.0
  {
    var s := Largest(group) * 2.0 / 15.0;
    if s == 0.0 then 1.0 else s
  }

  /** The scale of a group: its largest magnitude is seven and a half times the scale; a group of zeros has scale one. */
  lemma ScaleFits(group: seq<real>)
    ensures (forall i :: 0 <= i < |group| ==> group[i] == 0.0) ==> ScaleOf(group) == 1.0
    ensures (exists i :: 0 <= i < |group| && group[i] != 0.0) ==>
      && (forall i :: 0 <= i < |group| ==> Abs(group[i]) <= 7.5 * ScaleOf(group))
      && exists i :: 0 <= i < |group| && Abs(group[i]) == 7.5 * ScaleOf(group)
  {
  }

  function Quantise(x: real, s: real): (code: nat)
    requires s > 0.0
    ensures code < 16
  {
    Clamp(RoundHalfEven(x / s) + 8, 0, 15)
  }

  /** The weight a code stands for. */
  function Dequantise(code: int, s: real): (x: real) {
    (code - 8) as real * s
  }

  lemma RoundedNearest(y: real, n: int)
    ensures Abs(RoundHalfEven(y) as real - y) <= 0.5
    ensures Abs(RoundHalfEven(y) as real - y) <= Abs(n as real - y)
  {
    if n <= y.Floor { assert n as real <= y.Floor as real; } else { assert n as real >= (y.Floor + 1) as real; }
  }

  /** In units of the scale: no code is nearer than the one chosen, and that one is at most half a unit off. */
  lemma ChosenNearest(y: real, code: int)
    requires -7.5 <= y <= 7.5 && 0 <= code < 16
    ensures var c := Clamp(RoundHalfEven(y) + 8, 0, 15);
            Abs((c - 8) as real - y) <= 0.5 && Abs((c - 8) as real - y) <= Abs((code - 8) as real - y)
  {
    RoundedNearest(y, code - 8);
    var n := RoundHalfEven(y);
    assert n as real <= 8.0 && n as real >= -8.0;
    if n == 8 { assert y == 7.5; }
  }

  lemma InUnits(code: int, x: real, s: real)
    requires s > 0.0
    ensures Abs(Dequantise(code, s) - x) == Abs((code - 8) as real - x / s) * s
  {
    var d := (code - 8) as real;
    assert d * s - x == (d - x / s) * s by { assert x / s * s == x; }
    if d - x / s < 0.0 { assert (d - x / s) * s < 0.0; } else { assert (d - x / s) * s >= 0.0; }
  }

  lemma Scaled(a: real, b: real, s: real)
    requires a <= b && s > 0.0
    ensures a * s <= b * s
  {
  }

  lemma InReach(x: real, s: real)
    requires s > 0.0 && Abs(x) <= 7.5 * s
    ensures -7.5 <= x / s <= 7.5
  {
    var y := x / s;
    assert y * s == x;
    if y > 7.5 { Scaled(7.5, y, s); }
    if y < -7.5 { Scaled(y, -7.5, s); }
  }

  lemma NearestInReach(x: real, s: real, other: int)
    requires s > 0.0 && Abs(x) <= 7.5 * s && 0 <= other < 16
    ensures var off := Abs(Dequantise(Quantise(x, s), s) - x);
            off <= s / 2.0 && off <= Abs(Dequantise(other, s) - x)
  {
    hide Abs, RoundHalfEven, Dequantise;
    var code: int, y := Quantise(x, s), x / s;
    InReach(x, s);
    ChosenNearest(y, other);
    InUnits(code, x, s);
    InUnits(other, x, s);
    Scaled(Abs((code - 8) as real - y), 0.5, s);
    Scaled(Abs((code - 8) as real - y), Abs((other - 8) as real - y), s);
  }

  /**
   * A weight comes back off by at most half its group's scale, the largest one too, whose code
   * would be 16 and is cut to 15; and no other code would have brought it back closer.
   */
  lemma CodeIsNearest(group: seq<real>, i: nat, other: int)
    requires i < |group| && 0 <= other < 16
    ensures var s := ScaleOf(group);
            var off := Abs(Dequantise(Quantise(group[i], s), s) - group[i]);
            off <= s / 2.0 && off <= Abs(Dequantise(other, s) - group[i])
  {
    NearestInReach(group[i], ScaleOf(group), other);
  }

  /** The half-scale bound is met by the largest weight of a group: it cannot be made smaller. */
  lemma HalfScaleIsReached(group: seq<real>, i: nat)
    requires i < |group| && group[i] > 0.0 && group[i] == Largest(group)
    ensures var s := ScaleOf(group); Quantise(group[i], s) == 15 && group[i] - Dequantise(15, s) == s / 2.0
  {
    var s := ScaleOf(group);
    assert s == group[i] * 2.0 / 15.0;
    assert group[i] == 7.5 * s;
    assert group[i] / s == 7.5 by { assert group[i] / s * s == 7.5 * s; }
  }

  /** A group of zeros comes back exactly; its scale is one. */
  lemma ZeroGroupIsExact(group: seq<real>)
    requires forall i :: 0 <= i < |group| ==> group[i] == 0.0
    ensures ScaleOf(group) == 1.0 && Quantise(0.0, ScaleOf(group)) == 8 && Dequantise(8, ScaleOf(group)) == 0.0
  {
  }
}
