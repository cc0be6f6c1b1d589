/**
  The standalone arrow script: a character search that tolerates a missing
  template, a search of the arrow template over rotations and scales around the
  character, and the drag from the character centre towards a bearing.
*/
module DetectArrow {
  import opened Base
  import opened Geometry
  import opened Argmax
  import opened Matching
  import opened Blobs
  import opened Trace

  // The default arguments of `find_image_with_scaling`.
  const ScaleSteps: nat := 10
  const ScaleRange := (0.7, 1.3)
  const Confidence := 0.5

  /** `find_image_with_scaling` as a value; `None` for a template that did not load. */
  function ImageSearch(template: Option<Size>, region: Region, steps: nat, range: (real, real), confidence: real,
                       shot: real -> Match): Option<Seen> {
    match template
    case None => None
    case Some(t) =>
      SeenOf(Located(Linspace(range.0, range.1, steps, true), Fits(t, region.Dims(), RoundedAtLeastOne),
                     shot, region.Origin(), confidence))
  }

  /**
    A template that does not load gives (None, None); otherwise the result is a
    scale of the sweep whose rounded template (at least one pixel) fits the
    screenshot, scoring at least the confidence and at least every fitting scale,
    the first such best scale of the sweep, located at its offset plus the region
    origin; there is no result exactly when no fitting scale reaches the
    confidence.
  */
  lemma ImageSearchSpec(template: Option<Size>, region: Region, steps: nat, range: (real, real), confidence: real,
                        shot: real -> Match)
    ensures template.None? ==> ImageSearch(template, region, steps, range, confidence, shot).None?
    ensures var scales := Linspace(range.0, range.1, steps, true);
      var r := ImageSearch(template, region, steps, range, confidence, shot);
      template.Some? ==>
        && (r.None? <==> forall j :: 0 <= j < |scales| && !Oversized(template.value, region.Dims(), scales[j], RoundedAtLeastOne) ==>
                           (shot(scales[j]).score < confidence || shot(scales[j]).score <= Initial))
        && (r.Some? ==> && r.value.scale in scales
                        && !Oversized(template.value, region.Dims(), r.value.scale, RoundedAtLeastOne)
                        && shot(r.value.scale).score >= confidence
                        && r.value.loc == Translate(shot(r.value.scale).offset, region.Origin())
                        && (forall j :: 0 <= j < |scales| && !Oversized(template.value, region.Dims(), scales[j], RoundedAtLeastOne) ==>
                              shot(scales[j]).score <= shot(r.value.scale).score)
                        && exists i: nat :: IsFirstMax(scales, Fits(template.value, region.Dims(), RoundedAtLeastOne), Scores(shot), i)
                                         && scales[i] == r.value.scale)
  {
    if template.Some? {
      LocatedSpec(Linspace(range.0, range.1, steps, true), Fits(template.value, region.Dims(), RoundedAtLeastOne),
                  shot, region.Origin(), confidence);
    }
  }

  /** `find_image_with_scaling(template_path, region, scale_steps, scale_range, confidence)`. */
  method FindImageWithScaling(template: Option<Size>, region: Region, steps: nat, range: (real, real),
                              confidence: real, shot: real -> Match) returns (r: Option<Seen>)
    ensures r == ImageSearch(template, region, steps, range, confidence, shot)
  {
    if template.None? {
      return None;
    }
    var scales := Linspace(range.0, range.1, steps, true);
    var fits := Fits(template.value, region.Dims(), RoundedAtLeastOne);
    var maxCorr, found := Sweep(scales, fits, shot, region.Origin());
    ThresholdIsLocated(scales, fits, shot, region.Origin(), confidence, maxCorr, found);
    if maxCorr >= confidence && found.Some? {
      r := SeenOf(found);
    } else {
      r := None;
    }
  }

  // ---------------------------------------------------------------------------
  // The rotated search.

  /** A sweep key of the rotated search: the rotation angle and the scale. */
  datatype Pose = Pose(angle: real, scale: real)

  /** The poses of one angle, in scale order. */
  function Row(angle: real, scales: seq<real>): (r: seq<Pose>)
    ensures |r| == |scales|
    ensures forall j :: 0 <= j < |scales| ==> r[j] == Pose(angle, scales[j])
  {
    seq(|scales|, j requires 0 <= j < |scales| => Pose(angle, scales[j]))
  }

  /** The visiting order of the nested loops: angle-major, scales inside. */
  function Grid(angles: seq<real>, scales: seq<real>): (r: seq<Pose>)
    ensures |r| == |angles| * |scales|
  {
    if angles == [] then []
    else
      var front := Grid(angles[..|angles| - 1], scales);
      assert |front| + |scales| == |angles| * |scales| by {
        assert (|angles| - 1) * |scales| + |scales| == |angles| * |scales|;
      }
      front + Row(angles[|angles| - 1], scales)
  }

  /** Pose `(angles[i], scales[j])` is visited at position `i * |scales| + j`. */
  lemma {:induction false} GridAt(angles: seq<real>, scales: seq<real>, i: nat, j: nat)
    requires i < |angles| && j < |scales|
    ensures i * |scales| + j < |Grid(angles, scales)|
    ensures Grid(angles, scales)[i * |scales| + j] == Pose(angles[i], scales[j])
    decreases |angles|
  {
    var n, m := |angles|, |scales|;
    var front := angles[..n - 1];
    var g := Grid(front, scales);
    assert Grid(angles, scales) == g + Row(angles[n - 1], scales);
    assert |g| == (n - 1) * m;
    if i < n - 1 {
      MulMono(i + 1, n - 1, m);
      assert i * m + j < (n - 1) * m;
      GridAt(front, scales, i, j);
      assert front[i] == angles[i];
    } else {
      assert i * m == |g|;
    }
  }

  /** Multiplying by a natural number keeps the order. */
  lemma MulMono(a: nat, b: nat, m: nat)
    requires a <= b
    ensures a * m <= b * m
  {
  }

  /** Every visited pose pairs a swept angle with a swept scale. */
  lemma {:induction false} GridMembers(angles: seq<real>, scales: seq<real>)
    ensures forall k :: 0 <= k < |Grid(angles, scales)| ==>
      Grid(angles, scales)[k].angle in angles && Grid(angles, scales)[k].scale in scales
    decreases |angles|
  {
    if angles != [] {
      var front := angles[..|angles| - 1];
      GridMembers(front, scales);
      assert forall a :: a in front ==> a in angles;
    }
  }

  /** Rotation keeps the template's size, so the skip test uses the template's own dimensions. */
  function FitsPose(template: Size, shot: Size): Pose -> bool {
    (p: Pose) => !Oversized(template, shot, p.scale, RoundedAtLeastOne)
  }

  /** The angles `np.linspace(lo, hi, steps, endpoint=False)` and the scales `np.linspace(lo, hi, steps)`. */
  function Angles(angleSteps: nat, angleRange: (real, real)): seq<real> {
    Linspace(angleRange.0, angleRange.1, angleSteps, false)
  }

  /**
    `find_rotated_and_scaled_image` as a value: no result for a template that did
    not load or a failed capture; otherwise the thresholded first best pose over
    the clamped square window around the search centre. `capture` gives, for a
    window, the matcher of the edge images per pose, or `None` when the
    screenshot fails.
  */
  function Rotated(template: Option<Size>, center: RPoint, radius: real, screen: Size,
                   scaleSteps: nat, scaleRange: (real, real), angleSteps: nat, angleRange: (real, real),
                   confidence: real, capture: Region -> Option<Pose -> Match>): Option<Hit<Pose>>
    requires ValidScreen(screen)
  {
    var window := SearchWindow(radius, center, screen);
    if template.None? || capture(window).None? then None
    else
      Located(Grid(Angles(angleSteps, angleRange), Linspace(scaleRange.0, scaleRange.1, scaleSteps, true)),
              FitsPose(template.value, window.Dims()), capture(window).value, window.Origin(), confidence)
  }

  /**
    A hit of the grid search is a swept angle with a swept scale and the first
    best eligible pose; there is none exactly when no eligible pose reaches the
    confidence.
  */
  lemma GridHit(angles: seq<real>, scales: seq<real>, fits: Pose -> bool, m: Pose -> Match, origin: Point,
                confidence: real)
    ensures var keys := Grid(angles, scales);
      var r := Located(keys, fits, m, origin, confidence);
      && (r.None? <==> forall j :: 0 <= j < |keys| && fits(keys[j]) ==> m(keys[j]).score < confidence || m(keys[j]).score <= Initial)
      && (r.Some? ==>
        && r.value.key.angle in angles && r.value.key.scale in scales
        && fits(r.value.key) && m(r.value.key).score >= confidence
        && r.value.loc == Translate(m(r.value.key).offset, origin)
        && (forall j :: 0 <= j < |keys| && fits(keys[j]) ==> m(keys[j]).score <= m(r.value.key).score)
        && exists i: nat :: IsFirstMax(keys, fits, Scores(m), i) && keys[i] == r.value.key)
  {
    var keys := Grid(angles, scales);
    LocatedSpec(keys, fits, m, origin, confidence);
    GridMembers(angles, scales);
  }

  /** Every angle of the sweep lies in [lo, hi) for an increasing range. */
  lemma AngleInRange(angleSteps: nat, angleRange: (real, real), a: real)
    requires a in Angles(angleSteps, angleRange) && angleRange.0 < angleRange.1
    ensures angleRange.0 <= a < angleRange.1
  {
    LinspaceOrdered(angleRange.0, angleRange.1, angleSteps, false);
  }

  /**
    A rotated search result comes from a loaded template and a successful capture;
    its pose is a swept angle with a swept scale whose template fits the window;
    it is the first best pose in angle-major order, scores at least the confidence,
    scores at least every fitting pose, and is located at its offset plus the
    window origin; for an increasing angle range its angle lies in [lo, hi).
  */
  lemma RotatedSpec(template: Option<Size>, center: RPoint, radius: real, screen: Size,
                    scaleSteps: nat, scaleRange: (real, real), angleSteps: nat, angleRange: (real, real),
                    confidence: real, capture: Region -> Option<Pose -> Match>)
    requires ValidScreen(screen)
    ensures var window := SearchWindow(radius, center, screen);
      var r := Rotated(template, center, radius, screen, scaleSteps, scaleRange, angleSteps, angleRange,
                       confidence, capture);
      r.Some? ==>
        && template.Some? && capture(window).Some?
        && var keys := Grid(Angles(angleSteps, angleRange), Linspace(scaleRange.0, scaleRange.1, scaleSteps, true));
           var fits := FitsPose(template.value, window.Dims());
           var m := capture(window).value;
           && r.value.key.angle in Angles(angleSteps, angleRange)
           && r.value.key.scale in Linspace(scaleRange.0, scaleRange.1, scaleSteps, true)
           && fits(r.value.key) && m(r.value.key).score >= confidence
           && r.value.loc == Translate(m(r.value.key).offset, window.Origin())
           && (forall j :: 0 <= j < |keys| && fits(keys[j]) ==> m(keys[j]).score <= m(r.value.key).score)
           && (exists i: nat :: IsFirstMax(keys, fits, Scores(m), i) && keys[i] == r.value.key)
           && (angleRange.0 < angleRange.1 ==> angleRange.0 <= r.value.key.angle < angleRange.1)
  {
    var window := SearchWindow(radius, center, screen);
    if template.Some? && capture(window).Some? {
      var angles := Angles(angleSteps, angleRange);
      var r := Rotated(template, center, radius, screen, scaleSteps, scaleRange, angleSteps, angleRange,
                       confidence, capture);
      GridHit(angles, Linspace(scaleRange.0, scaleRange.1, scaleSteps, true), FitsPose(template.value, window.Dims()),
              capture(window).value, window.Origin(), confidence);
      if r.Some? && angleRange.0 < angleRange.1 {
        AngleInRange(angleSteps, angleRange, r.value.key.angle);
      }
    }
  }

  /**
    A rotated search finds nothing exactly when the template did not load, the
    capture failed, or no fitting pose reaches the confidence.
  */
  lemma RotatedNone(template: Option<Size>, center: RPoint, radius: real, screen: Size,
                    scaleSteps: nat, scaleRange: (real, real), angleSteps: nat, angleRange: (real, real),
                    confidence: real, capture: Region -> Option<Pose -> Match>)
    requires ValidScreen(screen)
    ensures var window := SearchWindow(radius, center, screen);
      var r := Rotated(template, center, radius, screen, scaleSteps, scaleRange, angleSteps, angleRange,
                       confidence, capture);
      r.None? <==>
        || template.None? || capture(window).None?
        || var keys := Grid(Angles(angleSteps, angleRange), Linspace(scaleRange.0, scaleRange.1, scaleSteps, true));
           var fits := FitsPose(template.value, window.Dims());
           var m := capture(window).value;
           forall j :: 0 <= j < |keys| && fits(keys[j]) ==> m(keys[j]).score < confidence || m(keys[j]).score <= Initial
  {
    var window := SearchWindow(radius, center, screen);
    if template.Some? && capture(window).Some? {
      GridHit(Angles(angleSteps, angleRange), Linspace(scaleRange.0, scaleRange.1, scaleSteps, true),
              FitsPose(template.value, window.Dims()), capture(window).value, window.Origin(), confidence);
    }
  }

  /** What the nested loops keep: the best correlation and hit over the poses visited so far. */
  ghost predicate Swept<K>(keys: seq<K>, fits: K -> bool, m: K -> Match, origin: Point,
                           maxCorr: real, found: Option<Hit<K>>) {
    maxCorr == Scan(keys, fits, Scores(m)).score && found == HitAt(keys, m, origin, Scan(keys, fits, Scores(m)).winner)
  }

  /** One loop step keeps `Swept`: a key replaces the best only when eligible and strictly better. */
  lemma SweptStep<K>(keys: seq<K>, x: K, fits: K -> bool, m: K -> Match, origin: Point,
                     maxCorr: real, found: Option<Hit<K>>)
    requires Swept(keys, fits, m, origin, maxCorr, found)
    ensures var moves := fits(x) && m(x).score > maxCorr;
      Swept(keys + [x], fits, m, origin, if moves then m(x).score else maxCorr,
            if moves then Some(Hit(Translate(m(x).offset, origin), x)) else found)
  {
    ScanSnoc(keys, x, fits, m, origin);
  }

  /** The next pose of a row extends the visited sequence by one. */
  lemma RowSnoc(done: seq<Pose>, angle: real, scales: seq<real>, j: nat)
    requires j < |scales|
    ensures done + Row(angle, scales[..j + 1]) == (done + Row(angle, scales[..j])) + [Pose(angle, scales[j])]
  {
  }

  /**
    `find_rotated_and_scaled_image`: for each angle, for each scale, skip a
    template larger than the window, match, and keep the strictly better pose.
  */
  method FindRotatedAndScaledImage(template: Option<Size>, center: RPoint, radius: real, screen: Size,
                                   scaleSteps: nat, scaleRange: (real, real), angleSteps: nat,
                                   angleRange: (real, real), confidence: real,
                                   capture: Region -> Option<Pose -> Match>)
    returns (r: Option<Hit<Pose>>)
    requires ValidScreen(screen)
    ensures r == Rotated(template, center, radius, screen, scaleSteps, scaleRange, angleSteps, angleRange,
                         confidence, capture)
  {
    if template.None? {
      return None;
    }
    var window := SearchWindow(radius, center, screen);
    var shot := capture(window);
    if shot.None? {
      return None;
    }
    var m := shot.value;
    var origin := window.Origin();
    var fits := FitsPose(template.value, window.Dims());
    var angles := Angles(angleSteps, angleRange);
    var scales := Linspace(scaleRange.0, scaleRange.1, scaleSteps, true);
    var maxCorr := Initial;
    var found: Option<Hit<Pose>> := None;
    for i := 0 to |angles|
      invariant Swept(Grid(angles[..i], scales), fits, m, origin, maxCorr, found)
    {
      ghost var done := Grid(angles[..i], scales);
      assert done + Row(angles[i], scales[..0]) == done;
      for j := 0 to |scales|
        invariant Swept(done + Row(angles[i], scales[..j]), fits, m, origin, maxCorr, found)
      {
        var pose := Pose(angles[i], scales[j]);
        RowSnoc(done, angles[i], scales, j);
        SweptStep(done + Row(angles[i], scales[..j]), pose, fits, m, origin, maxCorr, found);
        if fits(pose) {
          var mt := m(pose);
          if mt.score > maxCorr {
            maxCorr := mt.score;
            found := Some(Hit(Translate(mt.offset, origin), pose));
          }
        }
      }
      assert Row(angles[i], scales[..|scales|]) == Row(angles[i], scales);
      assert angles[..i + 1][..i] == angles[..i];
    }
    assert angles[..|angles|] == angles;
    ThresholdIsLocated(Grid(angles, scales), fits, m, origin, confidence, maxCorr, found);
    if maxCorr >= confidence && found.Some? {
      r := found;
    } else {
      r := None;
    }
  }

  // ---------------------------------------------------------------------------
  // The drag.

  /** The unclamped release point: `distance` along the bearing whose heading is `u`. */
  function Along(center: RPoint, distance: real, u: RPoint): RPoint {
    RPoint(center.x + distance * u.x, center.y + distance * u.y)
  }

  /**
    `drag_from_center_towards`: press at the rounded centre and release at the
    point `distance` along the bearing, clamped into the screen and rounded;
    `heading` gives `(sin, -cos)` of the bearing.
  */
  function DragFromCenterTowards(center: RPoint, angle: real, distance: real, screen: Size,
                                 heading: real -> RPoint): (d: Op)
    requires ValidScreen(screen)
    ensures d.Drag? && d.from == DragStart(center)
    ensures 0 <= d.to.x <= screen.w - 1 && 0 <= d.to.y <= screen.h - 1
    ensures var p := Along(center, distance, heading(angle));
      (0.0 <= p.x <= (screen.w - 1) as real ==> d.to.x == Round(p.x))
      && (0.0 <= p.y <= (screen.h - 1) as real ==> d.to.y == Round(p.y))
  {
    var u := heading(angle);
    var delta := RPoint(distance * u.x, distance * u.y);
    assert Along(center, distance, u) == RPoint(center.x + delta.x, center.y + delta.y);
    Drag(DragStart(center), DragTarget(center, delta, screen))
  }

  // ---------------------------------------------------------------------------
  // One round of the script's loop.

  const SearchRegion := Region(200, 700, 700, 400)
  const ArrowSearchRadius := 100.0
  const DragDistance := 100.0
  const MinHits := 2
  const MinArea := 300.0

  /**
    One pass of the script's loop. `load` is what this pass's read of the
    character template gives; `template` is the size read once at start-up and
    used for the centre. Search the character with the default sweep, and when
    `location and best_scale_char` holds, wait for the arrow around the
    centre with two hits needed and drag towards the averaged bearing when the
    wait is steady; `None` when no drag happens.
  */
  function ScriptRound(load: Option<Size>, template: Size, screen: Size, shot: real -> Match,
                       frames: seq<Region -> Option<seq<Contour>>>, bearing: (real, real) -> real,
                       atanOfSums: seq<real> -> Option<real>, heading: real -> RPoint): Option<Op>
    requires ValidScreen(screen)
  {
    var found := ImageSearch(load, SearchRegion, ScaleSteps, ScaleRange, Confidence, shot);
    if !Truthy(found) then None
    else
      var center := CenterOf(found.value.loc, found.value.scale, template);
      var w := WaitOutcome(Polls(ArrowSearchRadius, MinArea, center, screen, frames, bearing), MinHits, atanOfSums);
      if Steady(w) then Some(DragFromCenterTowards(center, w.angle.value, DragDistance, screen, heading))
      else None
  }

  /**
    A pass whose template read fails never drags. Otherwise the script drags
    only after finding the character at a nonzero swept scale
    whose score reaches the confidence and after at least two polls sighted the
    arrow; the drag starts at the rounded character centre, which lies in the
    scaled template box, and ends on the screen.
  */
  lemma ScriptRoundSpec(load: Option<Size>, template: Size, screen: Size, shot: real -> Match,
                        frames: seq<Region -> Option<seq<Contour>>>, bearing: (real, real) -> real,
                        atanOfSums: seq<real> -> Option<real>, heading: real -> RPoint)
    requires ValidScreen(screen) && 0 <= template.w && 0 <= template.h
    ensures load.None? ==> ScriptRound(load, template, screen, shot, frames, bearing, atanOfSums, heading).None?
    ensures var found := ImageSearch(load, SearchRegion, ScaleSteps, ScaleRange, Confidence, shot);
      var r := ScriptRound(load, template, screen, shot, frames, bearing, atanOfSums, heading);
      r.Some? ==>
        && load.Some? && found.Some? && found.value.scale != 0.0
        && found.value.scale in Linspace(ScaleRange.0, ScaleRange.1, ScaleSteps, true)
        && shot(found.value.scale).score >= Confidence
        && var center := CenterOf(found.value.loc, found.value.scale, template);
           && found.value.loc.x as real <= center.x <= found.value.loc.x as real + template.w as real * found.value.scale
           && found.value.loc.y as real <= center.y <= found.value.loc.y as real + template.h as real * found.value.scale
           && |Blobs.Angles(Polls(ArrowSearchRadius, MinArea, center, screen, frames, bearing))| >= MinHits
           && r.value.Drag? && r.value.from == DragStart(center)
           && 0 <= r.value.to.x < screen.w && 0 <= r.value.to.y < screen.h
  {
    ScriptFind(load, template, shot);
  }

  /**
    A character found with the script's defaults: the template loaded, the scale
    is a swept one reaching the confidence, and the centre lies in the scaled box.
  */
  lemma ScriptFind(load: Option<Size>, template: Size, shot: real -> Match)
    requires 0 <= template.w && 0 <= template.h
    ensures var found := ImageSearch(load, SearchRegion, ScaleSteps, ScaleRange, Confidence, shot);
      found.Some? ==>
        && load.Some?
        && found.value.scale in Linspace(ScaleRange.0, ScaleRange.1, ScaleSteps, true)
        && shot(found.value.scale).score >= Confidence
        && var center := CenterOf(found.value.loc, found.value.scale, template);
           && found.value.loc.x as real <= center.x <= found.value.loc.x as real + template.w as real * found.value.scale
           && found.value.loc.y as real <= center.y <= found.value.loc.y as real + template.h as real * found.value.scale
  {
    var found := ImageSearch(load, SearchRegion, ScaleSteps, ScaleRange, Confidence, shot);
    if found.Some? {
      assert && load.Some?
             && found.value.scale in Linspace(ScaleRange.0, ScaleRange.1, ScaleSteps, true)
             && shot(found.value.scale).score >= Confidence by {
        ImageSearchSpec(load, SearchRegion, ScaleSteps, ScaleRange, Confidence, shot);
      }
      LinspaceOrdered(ScaleRange.0, ScaleRange.1, ScaleSteps, true);
      CenterInsideBox(found.value.loc, found.value.scale, template);
    }
  }

  /** The script waits with `min_hits=2`: a single sighting among the polls is not an arrow. */
  lemma OneSightingIsNotEnough(polls: seq<Option<Sighting>>, atanOfSums: seq<real> -> Option<real>, k: nat)
    requires k < |polls| && polls[k].Some?
    requires forall j :: 0 <= j < |polls| && j != k ==> polls[j].None?
    ensures WaitOutcome(polls, MinHits, atanOfSums) == ArrowWait(None, None, 0)
  {
    OnlyHit(polls, k);
  }

  /** A single hit yields a single angle. */
  lemma {:induction false} OnlyHit(polls: seq<Option<Sighting>>, k: nat)
    requires k < |polls| && polls[k].Some?
    requires forall j :: 0 <= j < |polls| && j != k ==> polls[j].None?
    ensures |Blobs.Angles(polls)| == 1
    decreases |polls|
  {
    var front := polls[..|polls| - 1];
    if k < |polls| - 1 {
      OnlyHit(front, k);
    } else {
      NoHits(front);
    }
  }

  lemma {:induction false} NoHits(polls: seq<Option<Sighting>>)
    requires forall j :: 0 <= j < |polls| ==> polls[j].None?
    ensures Blobs.Angles(polls) == []
    decreases |polls|
  {
    if polls != [] {
      NoHits(polls[..|polls| - 1]);
    }
  }
}
