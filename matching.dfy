/**
  Multi-scale template search: the scale sweep `np.linspace`, the resized template
  dimensions, the skip of templates larger than the screenshot, and the loop that
  keeps the best correlation. `cv2.resize`, `cv2.matchTemplate` and `cv2.minMaxLoc`
  are an oracle `matcher` that gives, per scale (or per angle and scale), the best
  normalised correlation and its offset inside the screenshot.
*/
module Matching {
  import opened Base
  import opened Geometry
  import opened Argmax

  /** `max_val` and `max_loc` of one `matchTemplate` + `minMaxLoc` call. */
  datatype Match = Match(score: real, offset: Point)

  /** A found location (screen coordinates) and the sweep key (scale, or angle and scale) that produced it. */
  datatype Hit<K> = Hit(loc: Point, key: K)

  /** How a variant sizes the resized template. */
  datatype Sizing =
    | Truncated          // (int(w * scale), int(h * scale))
    | RoundedAtLeastOne  // (max(1, int(round(w * scale))), max(1, int(round(h * scale))))

  /** The number of intervals `np.linspace` divides [a, b] into. */
  function Intervals(n: nat, endpoint: bool): int {
    if endpoint then n - 1 else n
  }

  /** The spacing between two consecutive sweep values. */
  function Spacing(a: real, b: real, n: nat, endpoint: bool): real {
    var div := Intervals(n, endpoint);
    if div <= 0 then 0.0 else (b - a) / div as real
  }

  /** Element `i` of `np.linspace(a, b, n, endpoint)`. */
  function LinspaceAt(a: real, b: real, n: nat, endpoint: bool, i: nat): real {
    if Intervals(n, endpoint) <= 0 then a else a + i as real * Spacing(a, b, n, endpoint)
  }

  /** `np.linspace(a, b, n)` (endpoint included) or `np.linspace(a, b, n, endpoint=False)`. */
  function Linspace(a: real, b: real, n: nat, endpoint: bool): (r: seq<real>)
    ensures |r| == n
    ensures n > 0 ==> r[0] == a
    ensures endpoint && n >= 2 ==> r[n - 1] == b
  {
    var r := seq(n, i requires 0 <= i < n => LinspaceAt(a, b, n, endpoint, i));
    if endpoint && n >= 2 then
      SpacingSpansRange(a, b, n, endpoint);
      r
    else r
  }

  lemma SpacingSpansRange(a: real, b: real, n: nat, endpoint: bool)
    requires Intervals(n, endpoint) > 0
    ensures Intervals(n, endpoint) as real * Spacing(a, b, n, endpoint) == b - a
    ensures a <= b ==> 0.0 <= Spacing(a, b, n, endpoint)
    ensures a < b ==> 0.0 < Spacing(a, b, n, endpoint)
  {
  }

  /** a + i·step <= a + j·step for i <= j and a non-negative step. */
  lemma StepsOrdered(a: real, step: real, i: real, j: real)
    requires i <= j && 0.0 <= step
    ensures a + i * step <= a + j * step
    ensures i < j && 0.0 < step ==> a + i * step < a + j * step
  {
    assert (j - i) * step >= 0.0;
    if i < j && 0.0 < step {
      assert (j - i) * step > 0.0;
    }
  }

  /** One sweep value lies in [a, b], and below b when the endpoint is left out and a < b. */
  lemma LinspaceAtBounds(a: real, b: real, n: nat, endpoint: bool, i: nat)
    requires a <= b && i < n
    ensures a <= LinspaceAt(a, b, n, endpoint, i) <= b
    ensures !endpoint && a < b ==> LinspaceAt(a, b, n, endpoint, i) < b
  {
    var div := Intervals(n, endpoint);
    if div > 0 {
      var step := Spacing(a, b, n, endpoint);
      SpacingSpansRange(a, b, n, endpoint);
      StepsOrdered(a, step, 0.0, i as real);
      StepsOrdered(a, step, i as real, div as real);
      assert a + div as real * step == b;
    }
  }

  /** Sweep values grow with their index. */
  lemma LinspaceAtMonotone(a: real, b: real, n: nat, endpoint: bool, i: nat, j: nat)
    requires a <= b && i <= j
    ensures LinspaceAt(a, b, n, endpoint, i) <= LinspaceAt(a, b, n, endpoint, j)
  {
    if Intervals(n, endpoint) > 0 {
      SpacingSpansRange(a, b, n, endpoint);
      StepsOrdered(a, Spacing(a, b, n, endpoint), i as real, j as real);
    }
  }

  /**
    For a <= b the sweep is non-decreasing and stays in [a, b]; without the endpoint
    it stays below b whenever a < b.
  */
  lemma {:induction false} LinspaceOrdered(a: real, b: real, n: nat, endpoint: bool)
    requires a <= b
    ensures var r := Linspace(a, b, n, endpoint);
      && (forall i :: 0 <= i < n ==> a <= r[i] <= b)
      && (forall i, j :: 0 <= i <= j < n ==> r[i] <= r[j])
      && (!endpoint && a < b ==> forall i :: 0 <= i < n ==> r[i] < b)
  {
    var r := Linspace(a, b, n, endpoint);
    forall i, j | 0 <= i <= j < n ensures r[i] <= r[j] {
      LinspaceAtMonotone(a, b, n, endpoint, i, j);
    }
    forall i | 0 <= i < n ensures a <= r[i] <= b && (!endpoint && a < b ==> r[i] < b) {
      LinspaceAtBounds(a, b, n, endpoint, i);
    }
  }

  /** The dimensions handed to `cv2.resize` for one scale. */
  function ResizedDims(template: Size, scale: real, sizing: Sizing): Size {
    match sizing
    case Truncated =>
      Size(Trunc(template.w as real * scale), Trunc(template.h as real * scale))
    case RoundedAtLeastOne =>
      var w := Round(template.w as real * scale);
      var h := Round(template.h as real * scale);
      Size(if w < 1 then 1 else w, if h < 1 then 1 else h)
  }

  /** Rounded sizing always asks for a template of at least one pixel each way. */
  lemma RoundedDimsPositive(template: Size, scale: real)
    ensures var d := ResizedDims(template, scale, RoundedAtLeastOne); d.w >= 1 && d.h >= 1
  {
  }

  /** The resized template is taller or wider than the screenshot. */
  predicate Oversized(template: Size, shot: Size, scale: real, sizing: Sizing) {
    var d := ResizedDims(template, scale, sizing);
    d.h > shot.h || d.w > shot.w
  }

  /** The eligibility test of variants that skip oversized templates. */
  function Fits(template: Size, shot: Size, sizing: Sizing): real -> bool {
    scale => !Oversized(template, shot, scale, sizing)
  }

  /** The eligibility test of variants that try every scale. */
  function Every<K>(): K -> bool {
    _ => true
  }

  /** The score the selection compares: the correlation the oracle reports. */
  function Scores<K>(matcher: K -> Match): K -> real {
    key => matcher(key).score
  }

  /** The hit for a chosen index: offset translated by the region origin, and its key. */
  function HitAt<K>(keys: seq<K>, matcher: K -> Match, origin: Point, w: Option<nat>): Option<Hit<K>>
    requires w.Some? ==> w.value < |keys|
  {
    match w
    case None => None
    case Some(i) => Some(Hit(Translate(matcher(keys[i]).offset, origin), keys[i]))
  }

  /** The outcome of a whole search: the winner of the sweep if it clears the confidence. */
  function Located<K>(keys: seq<K>, eligible: K -> bool, matcher: K -> Match, origin: Point, confidence: real): Option<Hit<K>> {
    HitAt(keys, matcher, origin, Accept(Scan(keys, eligible, Scores(matcher)), confidence))
  }

  /**
    A search result is the first maximum among the eligible keys, its score clears
    the confidence, and its location is the match offset plus the region origin;
    there is no result exactly when no eligible key scores at least the confidence
    and above -1.
  */
  lemma {:induction false} LocatedSpec<K>(keys: seq<K>, eligible: K -> bool, matcher: K -> Match, origin: Point, confidence: real)
    ensures var r := Located(keys, eligible, matcher, origin, confidence);
      && (r.None? <==> forall j :: 0 <= j < |keys| && eligible(keys[j]) ==>
                         matcher(keys[j]).score < confidence || matcher(keys[j]).score <= Initial)
      && (r.Some? ==> exists i: nat :: IsFirstMax(keys, eligible, Scores(matcher), i)
                                  && r.value == Hit(Translate(matcher(keys[i]).offset, origin), keys[i]))
      && (r.Some? ==> r.value.key in keys && eligible(r.value.key)
                      && matcher(r.value.key).score >= confidence
                      && r.value.loc == Translate(matcher(r.value.key).offset, origin)
                      && forall j :: 0 <= j < |keys| && eligible(keys[j]) ==>
                           matcher(keys[j]).score <= matcher(r.value.key).score)
  {
    AcceptCharacterised(keys, eligible, Scores(matcher), confidence);
    var w := Accept(Scan(keys, eligible, Scores(matcher)), confidence);
    if w.Some? {
      var i := w.value;
      assert IsFirstMax(keys, eligible, Scores(matcher), i);
      assert Bounds(keys, eligible, Scores(matcher), Scores(matcher)(keys[i]));
    }
  }

  /**
    The scan loop shared by every single-sweep variant: visit the keys in order,
    skip ineligible ones, and keep `max_corr`, the translated location and the key
    on every strictly better correlation.
  */
  method Sweep<K>(keys: seq<K>, eligible: K -> bool, matcher: K -> Match, origin: Point)
    returns (maxCorr: real, best: Option<Hit<K>>)
    ensures maxCorr == Scan(keys, eligible, Scores(matcher)).score
    ensures best == HitAt(keys, matcher, origin, Scan(keys, eligible, Scores(matcher)).winner)
  {
    maxCorr := Initial;
    best := None;
    for i := 0 to |keys|
      invariant maxCorr == Scan(keys[..i], eligible, Scores(matcher)).score
      invariant best == HitAt(keys[..i], matcher, origin, Scan(keys[..i], eligible, Scores(matcher)).winner)
    {
      assert keys[..i + 1][..i] == keys[..i];
      var key := keys[i];
      if eligible(key) {
        var m := matcher(key);
        if m.score > maxCorr {
          maxCorr := m.score;
          best := Some(Hit(Translate(m.offset, origin), key));
        }
      }
    }
    assert keys[..|keys|] == keys;
  }

  /**
    Visiting one more key: the scan moves to it exactly when it is eligible and
    strictly better, and the kept hit is then that key's.
  */
  lemma ScanSnoc<K>(keys: seq<K>, x: K, eligible: K -> bool, matcher: K -> Match, origin: Point)
    ensures var p := Scan(keys, eligible, Scores(matcher));
      var q := Scan(keys + [x], eligible, Scores(matcher));
      var moves := eligible(x) && matcher(x).score > p.score;
      && q == (if moves then Pick(matcher(x).score, Some(|keys|)) else p)
      && HitAt(keys + [x], matcher, origin, q.winner)
         == (if moves then Some(Hit(Translate(matcher(x).offset, origin), x)) else HitAt(keys, matcher, origin, p.winner))
  {
    assert (keys + [x])[..|keys|] == keys;
  }

  /** The confidence test after the loop turns the loop state into the search result. */
  lemma ThresholdIsLocated<K>(keys: seq<K>, eligible: K -> bool, matcher: K -> Match, origin: Point,
                              confidence: real, maxCorr: real, best: Option<Hit<K>>)
    requires maxCorr == Scan(keys, eligible, Scores(matcher)).score
    requires best == HitAt(keys, matcher, origin, Scan(keys, eligible, Scores(matcher)).winner)
    ensures (if maxCorr >= confidence then best else None) == Located(keys, eligible, matcher, origin, confidence)
  {
  }
}
