/**
  The red-arrow search around the character: the acceptance test and score of
  each contour, the choice of the best contour, the centroid bearing, and the
  collection of hits over repeated polls (`find_arrow_by_color`,
  `find_mvp_arrow_by_color`, `wait_for_arrow`).

  The image pipeline (HSV masks, blur, closing, `findContours`) is an oracle
  `shoot` that gives, for a capture region, either a capture failure or the
  features OpenCV measures for each external contour. The bearing
  `degrees(atan2(dx, -dy))` and the circular mean are oracles as well.
*/
module Blobs {
  import opened Base
  import opened Geometry
  import opened Argmax

  /** `math.pi`, written out. */
  const Pi: real := 3.141592653589793

  /** Raw centroid moments of a contour: `m00`, `m10`, `m01`. */
  datatype Moments = Moments(m00: real, m10: real, m01: real)

  /**
    What OpenCV reports for one contour: `contourArea`, `boundingRect`, the area of
    its `convexHull`, its closed `arcLength` and its `moments`.
  */
  datatype Contour = Contour(area: real, box: Region, hullArea: real, perimeter: real, m: Moments)

  /** A located arrow: its bounding-box corner on screen and its bearing from the character. */
  datatype Sighting = Sighting(loc: Point, angle: real)

  /** `w * h or 1`. */
  function BoxArea(c: Contour): real {
    if c.box.w * c.box.h == 0 then 1.0 else (c.box.w * c.box.h) as real
  }

  /** `contourArea(hull) or 1`. */
  function HullArea(c: Contour): real {
    if c.hullArea == 0.0 then 1.0 else c.hullArea
  }

  /** `arcLength(c, True) or 1`. */
  function Perimeter(c: Contour): real {
    if c.perimeter == 0.0 then 1.0 else c.perimeter
  }

  function Extent(c: Contour): real { c.area / BoxArea(c) }
  function Solidity(c: Contour): real { c.area / HullArea(c) }
  function Circularity(c: Contour): real { 4.0 * Pi * c.area / (Perimeter(c) * Perimeter(c)) }

  /** The four shape filters, in the order the loop applies them. */
  predicate Accepted(c: Contour, minArea: real) {
    && minArea <= c.area
    && 0.35 <= Extent(c) <= 0.90
    && 0.75 <= Solidity(c)
    && Circularity(c) <= 0.8
  }

  /** `area * (0.5 + 0.3 * extent + 0.2 * solidity)`. */
  function BlobScore(c: Contour): real {
    c.area * (0.5 + 0.3 * Extent(c) + 0.2 * Solidity(c))
  }

  function Eligible(minArea: real): Contour -> bool {
    c => Accepted(c, minArea)
  }

  function Scoring(): Contour -> real {
    c => BlobScore(c)
  }

  /** A bounding box as `boundingRect` gives it: no negative side. */
  predicate Measured(c: Contour) {
    c.box.w >= 0 && c.box.h >= 0
  }

  /**
    An accepted contour with a measured box has a positive area and a score above
    0.755 times its area, so it always beats the initial best score of -1.
  */
  lemma AcceptedScoresPositive(c: Contour, minArea: real)
    requires Measured(c) && Accepted(c, minArea)
    ensures 0.0 < c.area
    ensures 0.755 * c.area <= BlobScore(c)
    ensures Initial < BlobScore(c)
  {
    assert 0.0 < BoxArea(c);
    assert c.area == Extent(c) * BoxArea(c);
    assert 0.0 < c.area;
    var f := 0.5 + 0.3 * Extent(c) + 0.2 * Solidity(c);
    assert 0.755 <= f;
    assert 0.0 <= c.area * (f - 0.755);
  }

  /**
    The `or 1` guard on a flat bounding box makes the extent the bare area, so a
    flat box passes the extent filter only with an area in [0.35, 0.90]: any
    minimum area above 0.90 rejects it.
  */
  lemma FlatBoxRejected(c: Contour, minArea: real)
    requires c.box.w == 0 || c.box.h == 0
    requires 0.90 < minArea
    ensures !Accepted(c, minArea)
  {
    assert BoxArea(c) == 1.0;
  }

  /**
    The `or 1` guard on a zero perimeter makes the circularity 4·pi·area, so a
    contour with no perimeter and an area of at least 0.07 is rejected as too round.
  */
  lemma ZeroPerimeterRejected(c: Contour, minArea: real)
    requires c.perimeter == 0.0 && 0.07 <= c.area
    ensures !Accepted(c, minArea)
  {
    assert Perimeter(c) == 1.0;
    assert Circularity(c) == 4.0 * Pi * c.area;
  }

  /** The contour behind a chosen index. */
  function ContourAt(cnts: seq<Contour>, w: Option<nat>): Option<Contour>
    requires w.Some? ==> w.value < |cnts|
  {
    match w
    case None => None
    case Some(i) => Some(cnts[i])
  }

  /** The contour the selection loop ends with. */
  function Chosen(cnts: seq<Contour>, minArea: real): Option<Contour> {
    ContourAt(cnts, Scan(cnts, Eligible(minArea), Scoring()).winner)
  }

  /**
    With measured boxes, a contour is chosen exactly when some contour is accepted,
    and the chosen one is the first accepted contour of maximal score.
  */
  lemma {:induction false} ChosenSpec(cnts: seq<Contour>, minArea: real)
    requires forall k :: 0 <= k < |cnts| ==> Measured(cnts[k])
    ensures Chosen(cnts, minArea).None? <==> forall k :: 0 <= k < |cnts| ==> !Accepted(cnts[k], minArea)
    ensures Chosen(cnts, minArea).Some? ==>
      exists i: nat :: IsFirstMax(cnts, Eligible(minArea), Scoring(), i) && Chosen(cnts, minArea) == Some(cnts[i])
  {
    ScanIsFirstMax(cnts, Eligible(minArea), Scoring());
    var p := Scan(cnts, Eligible(minArea), Scoring());
    forall k | 0 <= k < |cnts| && Accepted(cnts[k], minArea) ensures Initial < Scoring()(cnts[k]) {
      AcceptedScoresPositive(cnts[k], minArea);
    }
    if p.winner.Some? {
      assert IsFirstMax(cnts, Eligible(minArea), Scoring(), p.winner.value);
    }
  }

  /** The square capture window of side 2·radius around the character, clamped to the screen. */
  function SearchWindow(radius: real, center: RPoint, screen: Size): (r: Region)
    requires ValidScreen(screen)
    ensures OnScreen(r, screen)
  {
    ClampRegion(screen, center.x - radius, center.y - radius, radius * 2.0, radius * 2.0)
  }

  /**
    What a chosen contour yields: no arrow when its `m00` is zero, otherwise its box
    corner in screen coordinates and the bearing of its centroid from `center`,
    brought into [0, 360).
  */
  function SightingOf(c: Contour, window: Region, center: RPoint, bearing: (real, real) -> real): Option<Sighting> {
    if c.m.m00 == 0.0 then None
    else
      var cx := c.m.m10 / c.m.m00 + window.x as real;
      var cy := c.m.m01 / c.m.m00 + window.y as real;
      Some(Sighting(Point(c.box.x + window.x, c.box.y + window.y),
                    Mod360(bearing(cx - center.x, cy - center.y) + 360.0)))
  }

  /** The whole colour search, as a value. */
  function Sighted(radius: real, minArea: real, center: RPoint, screen: Size,
                   shoot: Region -> Option<seq<Contour>>, bearing: (real, real) -> real): Option<Sighting>
    requires ValidScreen(screen)
  {
    var window := SearchWindow(radius, center, screen);
    match shoot(window)
    case None => None
    case Some(cnts) =>
      match Chosen(cnts, minArea)
      case None => None
      case Some(c) => SightingOf(c, window, center, bearing)
  }

  /**
    A sighting comes from an accepted contour of the captured window with a
    non-zero `m00`; its corner is the contour box moved by the window origin and
    its angle lies in [0, 360). With measured boxes, there is no sighting exactly
    when the capture fails, no contour is accepted, or the chosen one has `m00 == 0`.
  */
  lemma {:induction false} SightedSpec(radius: real, minArea: real, center: RPoint, screen: Size,
                                       shoot: Region -> Option<seq<Contour>>, bearing: (real, real) -> real)
    requires ValidScreen(screen)
    ensures var s := Sighted(radius, minArea, center, screen, shoot, bearing);
      var window := SearchWindow(radius, center, screen);
      s.Some? ==> && shoot(window).Some?
                  && (exists c :: c in shoot(window).value && Accepted(c, minArea) && c.m.m00 != 0.0
                                  && s.value.loc == Point(c.box.x + window.x, c.box.y + window.y))
                  && 0.0 <= s.value.angle < 360.0
    ensures var s := Sighted(radius, minArea, center, screen, shoot, bearing);
      var window := SearchWindow(radius, center, screen);
      shoot(window).Some? && (forall k :: 0 <= k < |shoot(window).value| ==> Measured(shoot(window).value[k])) ==>
        (s.None? <==> (forall k :: 0 <= k < |shoot(window).value| ==> !Accepted(shoot(window).value[k], minArea))
                      || (Chosen(shoot(window).value, minArea).Some?
                          && Chosen(shoot(window).value, minArea).value.m.m00 == 0.0))
  {
    var window := SearchWindow(radius, center, screen);
    if shoot(window).Some? {
      var cnts := shoot(window).value;
      ScanIsFirstMax(cnts, Eligible(minArea), Scoring());
      var w := Scan(cnts, Eligible(minArea), Scoring()).winner;
      if w.Some? {
        assert cnts[w.value] in cnts && Accepted(cnts[w.value], minArea);
      }
      if forall k :: 0 <= k < |cnts| ==> Measured(cnts[k]) {
        ChosenSpec(cnts, minArea);
      }
    }
  }

  /**
    `find_arrow_by_color`: capture the window, keep the first contour of strictly
    best score among the accepted ones, then locate it.
  */
  method FindArrowByColor(radius: real, minArea: real, center: RPoint, screen: Size,
                          shoot: Region -> Option<seq<Contour>>, bearing: (real, real) -> real)
    returns (s: Option<Sighting>)
    requires ValidScreen(screen)
    ensures s == Sighted(radius, minArea, center, screen, shoot, bearing)
  {
    var window := SearchWindow(radius, center, screen);
    var capture := shoot(window);
    if capture.None? {
      return None;
    }
    var cnts := capture.value;
    var best: Option<Contour> := None;
    var bestScore := Initial;
    for i := 0 to |cnts|
      invariant bestScore == Scan(cnts[..i], Eligible(minArea), Scoring()).score
      invariant best == ContourAt(cnts[..i], Scan(cnts[..i], Eligible(minArea), Scoring()).winner)
    {
      assert cnts[..i + 1][..i] == cnts[..i];
      var c := cnts[i];
      if Accepted(c, minArea) {
        var score := BlobScore(c);
        if score > bestScore {
          bestScore := score;
          best := Some(c);
        }
      }
    }
    assert cnts[..|cnts|] == cnts;
    if best.None? {
      return None;
    }
    s := SightingOf(best.value, window, center, bearing);
  }

  /** The outcome of `wait_for_arrow`: the last hit's corner, the mean angle and the hit count. */
  datatype ArrowWait = ArrowWait(loc: Option<Point>, angle: Option<real>, hits: nat)

  /** The angles of the polls that found an arrow, in poll order. */
  function Angles(polls: seq<Option<Sighting>>): (r: seq<real>)
    ensures |r| <= |polls|
  {
    if polls == [] then []
    else
      var front := Angles(polls[..|polls| - 1]);
      match polls[|polls| - 1]
      case None => front
      case Some(s) => front + [s.angle]
  }

  /** The corner of the last poll that found an arrow. */
  function LastHit(polls: seq<Option<Sighting>>): Option<Point> {
    if polls == [] then None
    else
      match polls[|polls| - 1]
      case None => LastHit(polls[..|polls| - 1])
      case Some(s) => Some(s.loc)
  }

  /**
    There is a last hit exactly when some poll hit, the angles are those of the
    hits in order, and the last hit is the last poll that found an arrow.
  */
  lemma {:induction false} AnglesAreHits(polls: seq<Option<Sighting>>)
    ensures LastHit(polls).Some? <==> |Angles(polls)| > 0
    ensures LastHit(polls).Some? <==> exists k :: 0 <= k < |polls| && polls[k].Some?
    ensures forall a :: a in Angles(polls) <==> exists k :: 0 <= k < |polls| && polls[k].Some? && polls[k].value.angle == a
    ensures LastHit(polls).Some? ==>
      exists k :: 0 <= k < |polls| && polls[k].Some? && LastHit(polls).value == polls[k].value.loc
        && forall j :: k < j < |polls| ==> polls[j].None?
  {
    if polls != [] {
      var front := polls[..|polls| - 1];
      AnglesAreHits(front);
      assert forall k :: 0 <= k < |front| ==> front[k] == polls[k];
    }
  }

  /**
    `circular_mean_deg`: no mean of an empty list; otherwise the oracle's
    `degrees(atan2(sum_x, sum_y))`, or no mean when both sums vanish, brought into [0, 360).
  */
  function CircularMean(angles: seq<real>, atanOfSums: seq<real> -> Option<real>): (r: Option<real>)
    ensures angles == [] ==> r.None?
    ensures r.Some? ==> 0.0 <= r.value < 360.0
  {
    if angles == [] then None
    else
      match atanOfSums(angles)
      case None => None
      case Some(d) => Some(Mod360(d + 360.0))
  }

  /** What `wait_for_arrow` returns after the given polls. */
  function WaitOutcome(polls: seq<Option<Sighting>>, minHits: int, atanOfSums: seq<real> -> Option<real>): ArrowWait {
    var angles := Angles(polls);
    if |angles| >= minHits then ArrowWait(LastHit(polls), CircularMean(angles, atanOfSums), |angles|)
    else ArrowWait(None, None, 0)
  }

  /** The caller's test `arrow_loc and best_angle is not None`. */
  predicate Steady(w: ArrowWait) {
    w.loc.Some? && w.angle.Some?
  }

  /**
    A wait is steady only with at least `min_hits` and at least one hit; its corner
    is the last hit's and its angle lies in [0, 360). Too few hits give
    (None, None, 0).
  */
  lemma {:induction false} WaitOutcomeSpec(polls: seq<Option<Sighting>>, minHits: int, atanOfSums: seq<real> -> Option<real>)
    ensures var w := WaitOutcome(polls, minHits, atanOfSums);
      && (Steady(w) ==> && w.hits >= minHits && w.hits >= 1 && w.hits <= |polls|
                        && w.loc == LastHit(polls) && 0.0 <= w.angle.value < 360.0)
      && (|Angles(polls)| < minHits ==> w == ArrowWait(None, None, 0))
      && (|Angles(polls)| >= minHits ==> w.hits == |Angles(polls)| && w.loc == LastHit(polls))
  {
    AnglesAreHits(polls);
  }

  /**
    `wait_for_arrow` over the polls that happened before the timeout: each poll
    runs the colour search on that moment's screen; a hit appends its angle and
    becomes the last location.
  */
  method WaitForArrow(radius: real, minArea: real, minHits: int, center: RPoint, screen: Size,
                      frames: seq<Region -> Option<seq<Contour>>>, bearing: (real, real) -> real,
                      atanOfSums: seq<real> -> Option<real>)
    returns (w: ArrowWait)
    requires ValidScreen(screen)
    ensures w == WaitOutcome(Polls(radius, minArea, center, screen, frames, bearing), minHits, atanOfSums)
  {
    var angles: seq<real> := [];
    var lastLoc: Option<Point> := None;
    ghost var polls: seq<Option<Sighting>> := [];
    for i := 0 to |frames|
      invariant polls == Polls(radius, minArea, center, screen, frames[..i], bearing)
      invariant angles == Angles(polls) && lastLoc == LastHit(polls)
    {
      assert frames[..i + 1][..i] == frames[..i];
      var found := FindArrowByColor(radius, minArea, center, screen, frames[i], bearing);
      ghost var before := polls;
      polls := polls + [found];
      assert polls[..|polls| - 1] == before;
      if found.Some? {
        angles := angles + [found.value.angle];
        lastLoc := Some(found.value.loc);
      }
    }
    assert frames[..|frames|] == frames;
    if |angles| >= minHits {
      w := ArrowWait(lastLoc, CircularMean(angles, atanOfSums), |angles|);
    } else {
      w := ArrowWait(None, None, 0);
    }
  }

  /** The colour search run on each screen in turn. */
  function Polls(radius: real, minArea: real, center: RPoint, screen: Size,
                 frames: seq<Region -> Option<seq<Contour>>>, bearing: (real, real) -> real): (r: seq<Option<Sighting>>)
    requires ValidScreen(screen)
    ensures |r| == |frames|
    ensures forall k :: 0 <= k < |frames| ==> r[k] == Sighted(radius, minArea, center, screen, frames[k], bearing)
  {
    if frames == [] then []
    else Polls(radius, minArea, center, screen, frames[..|frames| - 1], bearing)
         + [Sighted(radius, minArea, center, screen, frames[|frames| - 1], bearing)]
  }
}
