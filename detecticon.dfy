/**
  The standalone icon script: a scale sweep of one template over a fixed region,
  repeated forever, printing the top-left location of every find.
*/
module DetectIcon {
  import opened Base
  import opened Geometry
  import opened Argmax
  import opened Matching
  import opened Trace

  // The default arguments of `find_image_with_scaling` and the script's region.
  const ScaleSteps: nat := 10
  const ScaleRange := (0.95, 1.05)
  const Confidence := 0.85
  const SearchRegion := Region(800, 800, 300, 300)

  /**
    The sweep over a loaded template: every scale is matched (the template is
    resized to the truncated size with no skip), the first strictly best one is
    kept, and it is reported when it reaches the confidence.
  */
  function Scaled(region: Region, steps: nat, range: (real, real), confidence: real, shot: real -> Match): Option<Seen> {
    SeenOf(Located(Linspace(range.0, range.1, steps, true), Every(), shot, region.Origin(), confidence))
  }

  /** What `find_image_with_scaling` hands back: a bare `None`, or a pair. */
  datatype Returned = BareNone | Pair(found: Option<Seen>)

  /**
    The function as written: a template that does not load returns a bare `None`;
    otherwise the pair `(location, best_scale)` or `(None, None)`.
  */
  function SearchAsWritten(template: Option<Size>, region: Region, steps: nat, range: (real, real), confidence: real,
                           shot: real -> Match): (r: Returned)
    ensures r.BareNone? <==> template.None?
  {
    if template.None? then BareNone else Pair(Scaled(region, steps, range, confidence, shot))
  }

  /** `location, best_scale = ...`: `None` when the two-name unpacking raises. */
  function Unpack(r: Returned): Option<Option<Seen>> {
    match r
    case BareNone => None
    case Pair(found) => Some(found)
  }

  /** The sweep loop shared by both versions of the function. */
  method Sweeps(region: Region, steps: nat, range: (real, real), confidence: real, shot: real -> Match)
    returns (found: Option<Seen>)
    ensures found == Scaled(region, steps, range, confidence, shot)
  {
    var scales := Linspace(range.0, range.1, steps, true);
    var maxCorr, best := Sweep(scales, Every(), shot, region.Origin());
    ThresholdIsLocated(scales, Every(), shot, region.Origin(), confidence, maxCorr, best);
    if maxCorr >= confidence {
      found := SeenOf(best);
    } else {
      found := None;
    }
  }

  /** `find_image_with_scaling` exactly as written, bare `None` included. */
  method FindImageWithScalingAsWritten(template: Option<Size>, region: Region, steps: nat, range: (real, real),
                                       confidence: real, shot: real -> Match) returns (r: Returned)
    ensures r == SearchAsWritten(template, region, steps, range, confidence, shot)
  {
    if template.None? {
      return BareNone;
    }
    var found := Sweeps(region, steps, range, confidence, shot);
    r := Pair(found);
  }

  /**
    The discrepancy: for a template that does not load, the caller's unpacking of
    the result fails, while every loaded template's result unpacks.
  */
  lemma LoadFailureCannotUnpack(region: Region, shot: real -> Match)
    ensures Unpack(SearchAsWritten(None, region, ScaleSteps, ScaleRange, Confidence, shot)).None?
    ensures forall t: Size :: Unpack(SearchAsWritten(Some(t), region, ScaleSteps, ScaleRange, Confidence, shot)).Some?
  {
    var r := SearchAsWritten(None, region, ScaleSteps, ScaleRange, Confidence, shot);
    assert r.BareNone?;
  }

  /** The intended function: a template that does not load gives `(None, None)` like a miss. */
  function Search(template: Option<Size>, region: Region, steps: nat, range: (real, real), confidence: real,
                  shot: real -> Match): Option<Seen> {
    if template.None? then None else Scaled(region, steps, range, confidence, shot)
  }

  /** The corrected `find_image_with_scaling`. */
  method FindImageWithScaling(template: Option<Size>, region: Region, steps: nat, range: (real, real),
                              confidence: real, shot: real -> Match) returns (r: Option<Seen>)
    ensures r == Search(template, region, steps, range, confidence, shot)
  {
    if template.None? {
      return None;
    }
    r := Sweeps(region, steps, range, confidence, shot);
  }

  /**
    The corrected function always unpacks, agrees with the written one on every
    loaded template, and maps a load failure to the miss.
  */
  lemma CorrectedAgrees(template: Option<Size>, region: Region, steps: nat, range: (real, real), confidence: real,
                        shot: real -> Match)
    ensures var r := SearchAsWritten(template, region, steps, range, confidence, shot);
      var c := Search(template, region, steps, range, confidence, shot);
      && (template.Some? ==> Unpack(r) == Some(c))
      && (template.None? ==> c.None? && Unpack(r).None?)
  {
    var r := SearchAsWritten(template, region, steps, range, confidence, shot);
    if template.None? {
      assert r == BareNone;
    } else {
      assert r == Pair(Scaled(region, steps, range, confidence, shot));
    }
  }

  /**
    A find is the first scale of the sweep with the best score, that score reaches
    the confidence, and the location is the match offset plus the region corner;
    there is no find exactly when the template did not load or no scale reaches
    the confidence.
  */
  lemma SearchSpec(template: Option<Size>, region: Region, steps: nat, range: (real, real), confidence: real,
                   shot: real -> Match)
    ensures var scales := Linspace(range.0, range.1, steps, true);
      var r := Search(template, region, steps, range, confidence, shot);
      && (r.None? <==> template.None? || forall j :: 0 <= j < |scales| ==>
                          shot(scales[j]).score < confidence || shot(scales[j]).score <= Initial)
      && (r.Some? ==> && r.value.scale in scales
                      && shot(r.value.scale).score >= confidence
                      && r.value.loc == Translate(shot(r.value.scale).offset, region.Origin())
                      && (forall j :: 0 <= j < |scales| ==> shot(scales[j]).score <= shot(r.value.scale).score)
                      && exists i: nat :: IsFirstMax(scales, Every(), Scores(shot), i) && scales[i] == r.value.scale)
  {
    var scales := Linspace(range.0, range.1, steps, true);
    LocatedSpec(scales, Every(), shot, region.Origin(), confidence);
  }

  /**
    The centre the script computes under `if location:`, whenever a location came
    back, whatever the scale. It is never used: the script prints the top-left
    location, and the centre print and the click are commented out.
  */
  function Centre(template: Size, found: Option<Seen>): Option<RPoint> {
    match found
    case None => None
    case Some(s) => Some(CenterOf(s.loc, s.scale, template))
  }

  /**
    With the script's defaults every computed centre lies inside the box of the
    found template, scaled by a factor between 0.95 and 1.05.
  */
  lemma CentreInsideFind(template: Size, shot: real -> Match)
    requires 0 <= template.w && 0 <= template.h
    ensures var found := Search(Some(template), SearchRegion, ScaleSteps, ScaleRange, Confidence, shot);
      var c := Centre(template, found);
      && (c.Some? <==> found.Some?)
      && (c.Some? ==> && ScaleRange.0 <= found.value.scale <= ScaleRange.1
                      && found.value.loc.x as real <= c.value.x
                      && c.value.x <= found.value.loc.x as real + template.w as real * found.value.scale
                      && found.value.loc.y as real <= c.value.y
                      && c.value.y <= found.value.loc.y as real + template.h as real * found.value.scale)
  {
    var found := Search(Some(template), SearchRegion, ScaleSteps, ScaleRange, Confidence, shot);
    if found.Some? {
      SearchSpec(Some(template), SearchRegion, ScaleSteps, ScaleRange, Confidence, shot);
      LinspaceOrdered(ScaleRange.0, ScaleRange.1, ScaleSteps, true);
      CenterInsideBox(found.value.loc, found.value.scale, template);
    }
  }

  /** One pass of the script's loop: the template as read for this call, and the screenshot. */
  datatype Pass = Pass(load: Option<Size>, shot: real -> Match)

  /**
    The script's loop over a finite run of passes. Each pass reads the template
    file again, and a pass whose read fails ends the run with an uncaught error
    at the unpacking (`crashed`). Every pass before it reports what the script
    prints: the top-left location of its find, or `None` for a miss. A run
    crashes exactly when one of its reads fails.
  */
  method Watch(passes: seq<Pass>) returns (reports: seq<Option<Point>>, crashed: bool)
    ensures |reports| <= |passes|
    ensures crashed <==> |reports| < |passes|
    ensures crashed ==> passes[|reports|].load.None?
    ensures !crashed <==> forall k :: 0 <= k < |passes| ==> passes[k].load.Some?
    ensures forall k :: 0 <= k < |reports| ==>
      var found := Search(passes[k].load, SearchRegion, ScaleSteps, ScaleRange, Confidence, passes[k].shot);
      && passes[k].load.Some?
      && (reports[k].Some? <==> found.Some?)
      && (reports[k].Some? ==> reports[k].value == found.value.loc)
  {
    reports := [];
    for k := 0 to |passes|
      invariant |reports| == k
      invariant forall j :: 0 <= j < k ==>
        var found := Search(passes[j].load, SearchRegion, ScaleSteps, ScaleRange, Confidence, passes[j].shot);
        && passes[j].load.Some?
        && (reports[j].Some? <==> found.Some?)
        && (reports[j].Some? ==> reports[j].value == found.value.loc)
    {
      var r := FindImageWithScalingAsWritten(passes[k].load, SearchRegion, ScaleSteps, ScaleRange, Confidence, passes[k].shot);
      CorrectedAgrees(passes[k].load, SearchRegion, ScaleSteps, ScaleRange, Confidence, passes[k].shot);
      var unpacked := Unpack(r);
      if unpacked.None? {
        return reports, true;
      }
      var location := unpacked.value;
      if location.Some? {
        reports := reports + [Some(location.value.loc)];
      } else {
        reports := reports + [None];
      }
    }
    crashed := false;
  }
}
