/** Small vocabulary shared by every component model: optional values
    (the `null`/`undefined` of the page scripts), ASCII case folding,
    prefix/infix tests on strings and the clamping arithmetic the
    components repeat. */
module Common {

  datatype Option<+T> = None | Some(value: T) {
    /** `x ?? d`: the value when present, the default otherwise. */
    function GetOr(d: T): T {
      match this
      case Some(v) => v
      case None => d
    }
  }

  /** A draw of `Math.random()`: a number in the half-open interval [0, 1). */
  type Unit = r: real | 0.0 <= r < 1.0

  /** The two languages the site ships. */
  datatype Lang = Pt | En {
    /** The code handed to the translation service and stored. */
    function Code(): (c: string)
      ensures |c| == 2
      ensures c == "pt" <==> this == Pt
    {
      if Pt? then "pt" else "en"
    }

    /** The `lang` attribute of the document element. */
    function DocumentLang(): (c: string)
      ensures c == "pt-BR" <==> this == Pt
      ensures c == "en" <==> this == En
    {
      if Pt? then "pt-BR" else "en"
    }
  }

  // ---------------------------------------------------------------- numbers

  function Abs(x: real): (r: real)
    ensures r >= 0.0 && (r == x || r == -x)
  {
    if x < 0.0 then -x else x
  }

  function AbsInt(x: int): (r: nat)
    ensures r == x || r == -x
  {
    if x < 0 then -x else x
  }

  function Max(a: real, b: real): (r: real)
    ensures r >= a && r >= b && (r == a || r == b)
  {
    if a < b then b else a
  }

  function Min(a: real, b: real): (r: real)
    ensures r <= a && r <= b && (r == a || r == b)
  {
    if a < b then a else b
  }

  /** `Math.min(hi, Math.max(lo, v))`: when the bounds are ordered the result
      lies between them and equals `v` whenever `v` already does; when they
      are not (`lo > hi`) the upper bound wins. */
  function Clamp(v: real, lo: real, hi: real): (r: real)
    ensures lo <= hi ==> lo <= r <= hi
    ensures lo <= v <= hi ==> r == v
    ensures lo > hi ==> r == hi
  {
    Min(hi, Max(lo, v))
  }

  /** `Math.min(hi, Math.max(lo, v))` on integers. */
  function ClampInt(v: int, lo: int, hi: int): (r: int)
    ensures lo <= hi ==> lo <= r <= hi
    ensures lo <= v <= hi ==> r == v
  {
    if v < lo then (if lo < hi then lo else hi) else if v < hi then v else hi
  }

  /** `a + (b - a) * t`: the point a share `t` of the way from `a` to
      `b`, never past either end while `t` lies in [0, 1]. */
  function Lerp(a: real, b: real, t: real): (r: real)
    ensures 0.0 <= t <= 1.0 ==> Min(a, b) <= r <= Max(a, b)
    ensures t == 0.0 ==> r == a
    ensures t == 1.0 ==> r == b
  {
    Step(a, b - a, t)
  }

  /** `a + d * t`: a step of `d` scaled by the share `t`. */
  function Step(a: real, d: real, t: real): (r: real)
    ensures 0.0 <= t <= 1.0 && 0.0 <= d ==> a <= r <= a + d
    ensures 0.0 <= t <= 1.0 && d < 0.0 ==> a + d <= r <= a
    ensures t == 0.0 ==> r == a
    ensures t == 1.0 ==> r == a + d
  {
    var p := d * t;
    ShareWithin(d, t, p);
    a + p
  }

  /** A share `t` in [0, 1] of `d` lies between 0 and `d`. */
  lemma ShareWithin(d: real, t: real, p: real)
    requires p == d * t
    ensures 0.0 <= t <= 1.0 && 0.0 <= d ==> 0.0 <= p <= d
    ensures 0.0 <= t <= 1.0 && d < 0.0 ==> d <= p <= 0.0
    ensures t == 0.0 ==> p == 0.0
    ensures t == 1.0 ==> p == d
  {
    var q := d * (1.0 - t);
    assert p + q == d;
    if 0.0 <= t <= 1.0 {
      if 0.0 <= d {
        MulNonNeg(d, t);
        MulNonNeg(d, 1.0 - t);
      } else {
        MulNonPos(d, t);
        MulNonPos(d, 1.0 - t);
      }
    }
  }

  /** A positive factor can be cancelled from a strict order. */
  lemma ScaleCancel(a: real, b: real, c: real)
    requires c > 0.0 && a * c < b * c
    ensures a < b
  {
    if b <= a {
      ScaleBelow(b, a, c);
    }
  }

  lemma MulNonNeg(x: real, y: real)
    requires x >= 0.0 && y >= 0.0
    ensures x * y >= 0.0
  {
  }

  lemma MulNonPos(x: real, y: real)
    requires x <= 0.0 && y >= 0.0
    ensures x * y <= 0.0
  {
  }

  lemma DivTimes(x: real, c: real)
    requires c != 0.0
    ensures (x / c) * c == x
  {
  }

  lemma DivAtLeastOne(x: real, c: real)
    requires c > 0.0 && x >= c
    ensures x / c >= 1.0
  {
  }

  /** Scaling by a positive factor keeps an order. */
  lemma ScaleBelow(a: real, b: real, c: real)
    requires a <= b && c > 0.0
    ensures a * c <= b * c
  {
    var d := b - a;
    assert d * c >= 0.0;
    assert b * c == a * c + d * c;
  }

  lemma ScaleStrictlyBelow(a: real, b: real, c: real)
    requires a < b && c > 0.0
    ensures a * c < b * c
  {
    var d := b - a;
    assert d * c > 0.0;
    assert b * c == a * c + d * c;
  }

  /** `Math.floor` on an exact number. */
  function Floor(x: real): (r: int)
    ensures r as real <= x < r as real + 1.0
  {
    x.Floor
  }

  /** `Math.round`: halves round towards positive infinity. */
  function Round(x: real): (r: int)
    ensures x - 0.5 < r as real <= x + 0.5
  {
    (x + 0.5).Floor
  }

  // ---------------------------------------------------------------- strings

  /** Case folding of one character as `toLowerCase` does it for ASCII. */
  function LowerChar(c: char): (d: char)
    ensures 'A' <= c <= 'Z' ==> d as int == c as int + 32
    ensures !('A' <= c <= 'Z') ==> d == c
    ensures !('A' <= d <= 'Z')
  {
    if 'A' <= c <= 'Z' then (c as int + 32) as char else c
  }

  function ToLower(s: string): (r: string)
    ensures |r| == |s|
    ensures forall i :: 0 <= i < |s| ==> r[i] == LowerChar(s[i])
  {
    if s == [] then [] else [LowerChar(s[0])] + ToLower(s[1..])
  }

  /** Lower-casing twice is lower-casing once. */
  lemma ToLowerIdempotent(s: string)
    ensures ToLower(ToLower(s)) == ToLower(s)
  {
  }

  predicate StartsWith(s: string, prefix: string) {
    |prefix| <= |s| && s[..|prefix|] == prefix
  }

  /** `needle` sits in `s` starting at position `k`. */
  predicate OccursAt(s: string, needle: string, k: int) {
    0 <= k <= |s| - |needle| && s[k..k + |needle|] == needle
  }

  /** `s.includes(needle)`. */
  predicate Contains(s: string, needle: string) {
    exists k | 0 <= k <= |s| - |needle| :: OccursAt(s, needle, k)
  }

  /** A string contains each of its middle parts. */
  lemma ContainsMiddle(a: string, m: string, b: string)
    ensures Contains(a + m + b, m)
  {
    var s := a + m + b;
    assert s[|a|..|a| + |m|] == m;
    assert OccursAt(s, m, |a|);
  }

  // ---------------------------------------------------------------- selection

  /** `i` indexes a smallest element of `ds` and every earlier element is
      strictly larger: the choice a strict `<` scan, or a stable sort
      followed by `[0]`, makes. */
  predicate FirstMinimum(ds: seq<real>, i: int) {
    0 <= i < |ds| &&
    (forall j :: 0 <= j < |ds| ==> ds[i] <= ds[j]) &&
    (forall j :: 0 <= j < i ==> ds[i] < ds[j])
  }

  /** At most one index is the first minimum. */
  lemma FirstMinimumUnique(ds: seq<real>, i: int, k: int)
    requires FirstMinimum(ds, i) && FirstMinimum(ds, k)
    ensures i == k
  {
    assert ds[i] == ds[k];
  }
}
