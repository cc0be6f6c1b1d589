/**
  The console version: detectors whose parameters default to the constants of
  `config.py`, and `MainController`, which searches the icon and, while it is
  there, runs up to `MAX_ARROW_ATTEMPTS` arrow attempts, until interrupted.
*/
module Cli {
  import opened Base
  import opened Geometry
  import opened Argmax
  import opened Matching
  import opened Blobs
  import opened Trace

  /** The constants of `config.py` that the detectors and the controller read. */
  datatype Config = Config(
    iconSearchRegion: Region, iconConfidence: real, iconScaleRange: (real, real), iconScaleSteps: nat,
    characterSearchRegion: Region, characterConfidence: real, characterScaleRange: (real, real),
    characterScaleSteps: nat, arrowSearchRadius: real, arrowMinArea: real, arrowMinHits: int,
    dragDistance: real, maxArrowAttempts: int)

  /** The values `config.py` ships with. */
  const ConfigPy := Config(
    Region(800, 800, 300, 300), 0.85, (0.95, 1.05), 10,
    Region(200, 700, 700, 400), 0.5, (0.7, 1.3),
    10, 100.0, 300.0, 1,
    100.0, 20)

  /** `click_center` moves at most 20 pixels off the centre on each axis. */
  const ClickReach: nat := 20

  /** Python's `x if x is not None else default`. */
  function OrDefault<T>(x: Option<T>, default: T): T {
    if x.Some? then x.value else default
  }

  /** `ImageDetector` with its template loaded. */
  datatype IconDetector = IconDetector(region: Region, confidence: real, template: Size)

  /** The constructor: `confidence` defaults to `ICON_CONFIDENCE`. */
  function NewIconDetector(cfg: Config, region: Region, confidence: Option<real>, template: Size): (d: IconDetector)
    ensures d.confidence == (if confidence.Some? then confidence.value else cfg.iconConfidence)
    ensures d.region == region && d.template == template
  {
    IconDetector(region, OrDefault(confidence, cfg.iconConfidence), template)
  }

  /**
    The scale search of `ImageDetector`: every scale is tried, whatever the size of
    the scaled template, with truncated template sizes.
  */
  function IconSearch(d: IconDetector, steps: nat, range: (real, real), shot: real -> Match): Option<Seen> {
    SeenOf(Located(Linspace(range.0, range.1, steps, true), Every(), shot, d.region.Origin(), d.confidence))
  }

  /**
    No scale is skipped: there is no result exactly when no scale reaches the
    confidence; a result is a scale of the sweep, scoring at least the confidence
    and at least every other scale, located at its offset plus the region origin.
  */
  lemma IconSearchSpec(d: IconDetector, steps: nat, range: (real, real), shot: real -> Match)
    ensures var scales := Linspace(range.0, range.1, steps, true);
      var r := IconSearch(d, steps, range, shot);
      && (r.None? <==> forall j :: 0 <= j < |scales| ==>
                         (shot(scales[j]).score < d.confidence || shot(scales[j]).score <= Initial))
      && (r.Some? ==> && r.value.scale in scales
                      && shot(r.value.scale).score >= d.confidence
                      && r.value.loc == Translate(shot(r.value.scale).offset, d.region.Origin())
                      && forall j :: 0 <= j < |scales| ==> shot(scales[j]).score <= shot(r.value.scale).score)
  {
    LocatedSpec(Linspace(range.0, range.1, steps, true), Every(), shot, d.region.Origin(), d.confidence);
  }

  /**
    `find_image_with_scaling(scale_steps, scale_range)`: missing arguments take
    `ICON_SCALE_STEPS` and `ICON_SCALE_RANGE`; every scale is matched and the first
    best one is kept.
  */
  method FindImageWithScaling(cfg: Config, d: IconDetector, steps: Option<nat>, range: Option<(real, real)>,
                              shot: real -> Match) returns (r: Option<Seen>)
    ensures r == IconSearch(d, OrDefault(steps, cfg.iconScaleSteps), OrDefault(range, cfg.iconScaleRange), shot)
  {
    var n := OrDefault(steps, cfg.iconScaleSteps);
    var rg := OrDefault(range, cfg.iconScaleRange);
    var scales := Linspace(rg.0, rg.1, n, true);
    var maxCorr, found := Sweep(scales, Every(), shot, d.region.Origin());
    ThresholdIsLocated(scales, Every(), shot, d.region.Origin(), d.confidence, maxCorr, found);
    if maxCorr >= d.confidence {
      r := SeenOf(found);
    } else {
      r := None;
    }
  }

  /** `ArrowDetector` with its character template loaded. */
  datatype ArrowDetector = ArrowDetector(region: Region, radius: real, template: Size)

  /** The constructor: `arrow_search_radius` defaults to `ARROW_SEARCH_RADIUS`. */
  function NewArrowDetector(cfg: Config, region: Region, radius: Option<real>, template: Size): (d: ArrowDetector)
    ensures d.radius == (if radius.Some? then radius.value else cfg.arrowSearchRadius)
    ensures d.region == region && d.template == template
  {
    ArrowDetector(region, OrDefault(radius, cfg.arrowSearchRadius), template)
  }

  /** The character search: rounded template sizes of at least one pixel, oversized ones skipped. */
  function CharacterSearch(d: ArrowDetector, steps: nat, range: (real, real), confidence: real,
                           shot: real -> Match): Option<Seen> {
    SeenOf(Located(Linspace(range.0, range.1, steps, true), Fits(d.template, d.region.Dims(), RoundedAtLeastOne),
                   shot, d.region.Origin(), confidence))
  }

  /**
    `find_character(scale_steps, scale_range, confidence)`: missing arguments take
    the `CHARACTER_*` constants; a result needs the confidence and a found location.
  */
  method FindCharacter(cfg: Config, d: ArrowDetector, steps: Option<nat>, range: Option<(real, real)>, confidence: Option<real>,
                       shot: real -> Match) returns (r: Option<Seen>)
    ensures r == CharacterSearch(d, OrDefault(steps, cfg.characterScaleSteps), OrDefault(range, cfg.characterScaleRange),
                                 OrDefault(confidence, cfg.characterConfidence), shot)
    ensures r.Some? ==> && !Oversized(d.template, d.region.Dims(), r.value.scale, RoundedAtLeastOne)
                        && shot(r.value.scale).score >= OrDefault(confidence, cfg.characterConfidence)
                        && r.value.loc == Translate(shot(r.value.scale).offset, d.region.Origin())
  {
    var n := OrDefault(steps, cfg.characterScaleSteps);
    var rg := OrDefault(range, cfg.characterScaleRange);
    var conf := OrDefault(confidence, cfg.characterConfidence);
    var scales := Linspace(rg.0, rg.1, n, true);
    var fits := Fits(d.template, d.region.Dims(), RoundedAtLeastOne);
    var maxCorr, found := Sweep(scales, fits, shot, d.region.Origin());
    ThresholdIsLocated(scales, fits, shot, d.region.Origin(), conf, maxCorr, found);
    LocatedSpec(scales, fits, shot, d.region.Origin(), conf);
    if maxCorr >= conf && found.Some? {
      r := SeenOf(found);
    } else {
      r := None;
    }
  }

  /** `find_arrow_by_color(cx, cy, min_area)`: `min_area` defaults to `ARROW_MIN_AREA`. */
  method FindArrowByColorAround(cfg: Config, d: ArrowDetector, center: RPoint, minArea: Option<real>, screen: Size,
                                shoot: Region -> Option<seq<Contour>>, bearing: (real, real) -> real)
    returns (s: Option<Sighting>)
    requires ValidScreen(screen)
    ensures s == Sighted(d.radius, OrDefault(minArea, cfg.arrowMinArea), center, screen, shoot, bearing)
  {
    s := FindArrowByColor(d.radius, OrDefault(minArea, cfg.arrowMinArea), center, screen, shoot, bearing);
  }

  /** `wait_for_arrow(cx, cy, min_hits, min_area)`: the defaults are `ARROW_MIN_HITS` and `ARROW_MIN_AREA`. */
  method WaitForArrowAround(cfg: Config, d: ArrowDetector, center: RPoint, minHits: Option<int>, minArea: Option<real>,
                            screen: Size, frames: seq<Region -> Option<seq<Contour>>>,
                            bearing: (real, real) -> real, atanOfSums: seq<real> -> Option<real>)
    returns (w: ArrowWait)
    requires ValidScreen(screen)
    ensures w == WaitOutcome(Polls(d.radius, OrDefault(minArea, cfg.arrowMinArea), center, screen, frames, bearing),
                             OrDefault(minHits, cfg.arrowMinHits), atanOfSums)
  {
    w := WaitForArrow(d.radius, OrDefault(minArea, cfg.arrowMinArea), OrDefault(minHits, cfg.arrowMinHits), center,
                      screen, frames, bearing, atanOfSums);
  }

  /** With `ARROW_MIN_HITS` at 1, as shipped, a single sighting among the polls is enough. */
  lemma OneSightingSuffices(cfg: Config, d: ArrowDetector, center: RPoint, screen: Size, frames: seq<Region -> Option<seq<Contour>>>,
                            bearing: (real, real) -> real, atanOfSums: seq<real> -> Option<real>, k: nat)
    requires ValidScreen(screen) && k < |frames| && cfg.arrowMinHits <= 1
    requires Sighted(d.radius, cfg.arrowMinArea, center, screen, frames[k], bearing).Some?
    ensures var w := WaitOutcome(Polls(d.radius, cfg.arrowMinArea, center, screen, frames, bearing), cfg.arrowMinHits, atanOfSums);
      w.loc.Some? && w.hits >= 1
  {
    var polls := Polls(d.radius, cfg.arrowMinArea, center, screen, frames, bearing);
    AnglesAreHits(polls);
    WaitOutcomeSpec(polls, cfg.arrowMinHits, atanOfSums);
  }

  /** What the controller cannot compute: the template sizes, the screen, and the trigonometry. */
  datatype Controls = Controls(cfg: Config, iconTemplate: Size, charTemplate: Size, screen: Size,
                               bearing: (real, real) -> real, atanOfSums: seq<real> -> Option<real>,
                               heading: real -> RPoint)

  predicate ValidControls(c: Controls) {
    ValidScreen(c.screen)
  }

  /** The icon detector `MainController` builds. */
  function IconOf(c: Controls): IconDetector {
    NewIconDetector(c.cfg, c.cfg.iconSearchRegion, Some(c.cfg.iconConfidence), c.iconTemplate)
  }

  /** The arrow detector `MainController` builds. */
  function ArrowOf(c: Controls): ArrowDetector {
    NewArrowDetector(c.cfg, c.cfg.characterSearchRegion, Some(c.cfg.arrowSearchRadius), c.charTemplate)
  }

  function Tune(c: Controls): Tuning {
    Tuning(c.screen, c.iconTemplate, c.charTemplate, ClickReach, c.cfg.dragDistance, c.heading)
  }

  /** What the world answers during one arrow attempt. */
  datatype Round = Round(iconShot: real -> Match, draw1: Point, charShot: real -> Match,
                         frames: seq<Region -> Option<seq<Contour>>>, draw2: Point)

  /** One pass of `run`'s loop: the clock, the icon screenshot, and one round per attempt. */
  datatype Tick = Tick(now: real, iconShot: real -> Match, rounds: nat -> Round)

  function IconNow(c: Controls, shot: real -> Match): Option<Seen> {
    IconSearch(IconOf(c), c.cfg.iconScaleSteps, c.cfg.iconScaleRange, shot)
  }

  /** The detector answers of one attempt, every detector with its default arguments. */
  function AttemptOf(c: Controls, r: Round): Attempt
    requires ValidControls(c)
  {
    var ch := CharacterSearch(ArrowOf(c), c.cfg.characterScaleSteps, c.cfg.characterScaleRange,
                              c.cfg.characterConfidence, r.charShot);
    Attempt(IconNow(c, r.iconShot), r.draw1, ch, ArrowWaitAt(c, ch, r.frames), r.draw2)
  }

  /** The arrow wait around a found character, with the default hit count and area. */
  function ArrowWaitAt(c: Controls, ch: Option<Seen>, frames: seq<Region -> Option<seq<Contour>>>): ArrowWait
    requires ValidControls(c)
  {
    if Truthy(ch) then
      WaitOutcome(Polls(c.cfg.arrowSearchRadius, c.cfg.arrowMinArea, CharacterCenter(Tune(c), ch.value), c.screen,
                        frames, c.bearing),
                  c.cfg.arrowMinHits, c.atanOfSums)
    else ArrowWait(None, None, 0)
  }

  /**
    `arrow_detection_loop` from attempt `k` on: up to `MAX_ARROW_ATTEMPTS`
    attempts, returning as soon as the icon is gone.
  */
  function Attempts(core: Core, c: Controls, rounds: nat -> Round, k: nat): Core
    requires ValidControls(c)
    decreases if k < c.cfg.maxArrowAttempts then c.cfg.maxArrowAttempts - k else 0
  {
    if k >= c.cfg.maxArrowAttempts then core
    else
      var a := AttemptOf(c, rounds(k));
      var next := AttemptStep(core, Tune(c), a, k);
      if a.recheck.None? then next else Attempts(next, c, rounds, k + 1)
  }

  /** One pass of `run`'s loop. */
  function Pass(core: Core, c: Controls, tick: Tick): Core
    requires ValidControls(c)
  {
    var checked := core.(ops := core.ops + [CheckIcon]);
    var icon := IconNow(c, tick.iconShot);
    if Truthy(icon) then Attempts(FoundStep(checked, icon.value.loc), c, tick.rounds, 0)
    else SearchStep(checked, tick.now)
  }

  function Passes(core: Core, c: Controls, ticks: seq<Tick>): Core
    requires ValidControls(c)
    decreases |ticks|
  {
    if ticks == [] then core else Passes(Pass(core, c, ticks[0]), c, ticks[1..])
  }

  /** `run`, interrupted from the keyboard after the given passes. */
  function Interrupted(core: Core, c: Controls, ticks: seq<Tick>): Core
    requires ValidControls(c)
  {
    var end := Passes(core.(log := core.log + [Started]), c, ticks);
    end.(log := end.log + [Ended])
  }

  /** `MainController`: `last_status`, `search_start_time`, and what it logs and does. */
  class MainController {
    const controls: Controls
    var lastStatus: Status
    var searchStartTime: real
    var log: seq<Note>
    var ops: seq<Op>

    function Snap(): Core
      reads this
    {
      Core(lastStatus, searchStartTime, log, ops)
    }

    /** `search_start_time` starts as `None`; it is always set before it is read. */
    constructor (c: Controls)
      requires c.cfg == ConfigPy
      ensures controls == c && Snap() == Core(NoStatus, 0.0, [], [])
    {
      controls := c;
      lastStatus := NoStatus;
      searchStartTime := 0.0;
      log := [];
      ops := [];
    }

    /**
      A steady arrow: announce the hits, drag towards the arrow, announce the
      second click and click the icon again.
    */
    method Reposition(icon: Seen, center: RPoint, w: ArrowWait, draw: Point)
      requires ValidControls(controls) && Steady(w)
      modifies this`log, this`ops
      ensures var t := Tune(controls);
        && log == old(log) + [ArrowSteady(w.hits, w.angle.value), Reclicking]
        && ops == old(ops) + [DragOf(t, center, w.angle.value)] + Clicks(ClickAt(icon, t.iconTemplate, draw, t.reach, t.screen))
    {
      var t := Tune(controls);
      log := log + [ArrowSteady(w.hits, w.angle.value)];
      ops := ops + [DragOf(t, center, w.angle.value)];
      log := log + [Reclicking];
      var post := ClickAt(icon, t.iconTemplate, draw, t.reach, t.screen);
      ops := ops + Clicks(post);
    }

    /** What follows the character search: the arrow wait, then the drag and the confirming click. */
    method FollowCharacter(icon: Seen, ch: Option<Seen>, r: Round)
      requires ValidControls(controls) && ch == AttemptOf(controls, r).character
      modifies this`log, this`ops
      ensures log == old(log) + CharacterNotes(Tune(controls), AttemptOf(controls, r))
      ensures ops == old(ops) + CharacterOps(Tune(controls), icon, AttemptOf(controls, r))
    {
      var t := Tune(controls);
      ghost var a := AttemptOf(controls, r);
      CharacterUnfolded(t, icon, a, log, ops);
      if Truthy(ch) {
        var center := CharacterCenter(t, ch.value);
        log := log + [CharacterAt(center)];
        var w := WaitForArrowAround(controls.cfg, ArrowOf(controls), center, None, None, controls.screen, r.frames,
                                    controls.bearing, controls.atanOfSums);
        assert w == a.arrow;
        ops := ops + [WaitArrow(center, w)];
        if Steady(w) {
          Reposition(icon, center, w, r.draw2);
        } else {
          log := log + [NoArrow];
        }
      } else {
        log := log + [NoCharacter];
      }
    }

    /**
      One attempt: refresh the icon location (returning with the status reset if
      it is gone), click it, look for the character, then follow up.
    */
    method Attempt(r: Round, n: nat) returns (gone: bool)
      requires ValidControls(controls)
      modifies this`lastStatus, this`log, this`ops
      ensures Snap() == AttemptStep(old(Snap()), Tune(controls), AttemptOf(controls, r), n)
      ensures gone == AttemptOf(controls, r).recheck.None?
    {
      var t := Tune(controls);
      ghost var a := AttemptOf(controls, r);
      AttemptStepUnfolded(Snap(), t, a, n);
      var current := FindImageWithScaling(controls.cfg, IconOf(controls), None, None, r.iconShot);
      assert current == a.recheck;
      ops := ops + [CheckIcon];
      if current.None? {
        log := log + [IconGone];
        lastStatus := NoStatus;
        return true;
      }
      gone := false;
      var icon := current.value;
      log := log + [AttemptStarted(n + 1)];
      var pre := ClickAt(icon, t.iconTemplate, r.draw1, t.reach, t.screen);
      ops := ops + Clicks(pre) + [SearchCharacter];
      var ch := FindCharacter(controls.cfg, ArrowOf(controls), None, None, None, r.charShot);
      FollowCharacter(icon, ch, r);
    }

    /** `arrow_detection_loop`: up to `MAX_ARROW_ATTEMPTS` attempts, returning when the icon is gone. */
    method ArrowDetectionLoop(rounds: nat -> Round)
      requires ValidControls(controls)
      modifies this`lastStatus, this`log, this`ops
      ensures Snap() == Attempts(old(Snap()), controls, rounds, 0)
    {
      ghost var goal := Attempts(Snap(), controls, rounds, 0);
      var count := 0;
      while count < controls.cfg.maxArrowAttempts
        invariant 0 <= count
        invariant Attempts(Snap(), controls, rounds, count) == goal
        decreases controls.cfg.maxArrowAttempts - count
      {
        var gone := Attempt(rounds(count), count);
        if gone {
          return;
        }
        count := count + 1;
      }
    }

    /** One pass of `run`'s loop: search the icon, then attempts or the search messages. */
    method RunPass(tick: Tick)
      requires ValidControls(controls)
      modifies this`lastStatus, this`searchStartTime, this`log, this`ops
      ensures Snap() == Pass(old(Snap()), controls, tick)
    {
      var found := FindImageWithScaling(controls.cfg, IconOf(controls), None, None, tick.iconShot);
      ops := ops + [CheckIcon];
      if Truthy(found) {
        if lastStatus != Found {
          log := log + [IconFound(found.value.loc)];
          lastStatus := Found;
        }
        ArrowDetectionLoop(tick.rounds);
      } else if lastStatus != Searching {
        log := log + [SearchStarted(tick.now)];
        searchStartTime := tick.now;
        lastStatus := Searching;
      } else if tick.now - searchStartTime > 30.0 {
        log := log + [StillSearching(tick.now)];
        searchStartTime := tick.now;
      }
    }

    /** `run` over the passes that happened before the keyboard interrupt. */
    method Run(ticks: seq<Tick>)
      requires ValidControls(controls)
      modifies this`lastStatus, this`searchStartTime, this`log, this`ops
      ensures Snap() == Interrupted(old(Snap()), controls, ticks)
    {
      log := log + [Started];
      for i := 0 to |ticks|
        invariant Passes(Snap(), controls, ticks[i..]) == Passes(old(Snap()).(log := old(log) + [Started]), controls, ticks)
      {
        assert ticks[i..][0] == ticks[i] && ticks[i..][1..] == ticks[i + 1..];
        RunPass(ticks[i]);
      }
      log := log + [Ended];
    }
  }

  // ---------------------------------------------------------------------------
  // What the controller's loop guarantees.

  /** `arrow_detection_loop` checks the icon at most `MAX_ARROW_ATTEMPTS` times. */
  lemma {:induction false} AttemptsBound(core: Core, c: Controls, rounds: nat -> Round, k: nat)
    requires ValidControls(c)
    ensures Checks(Attempts(core, c, rounds, k).ops)
            <= Checks(core.ops) + (if k < c.cfg.maxArrowAttempts then c.cfg.maxArrowAttempts - k else 0)
    decreases if k < c.cfg.maxArrowAttempts then c.cfg.maxArrowAttempts - k else 0
  {
    if k < c.cfg.maxArrowAttempts {
      var a := AttemptOf(c, rounds(k));
      ChecksConcat(core.ops, AttemptOps(Tune(c), a));
      AttemptChecksOnce(Tune(c), a);
      if a.recheck.Some? {
        AttemptsBound(AttemptStep(core, Tune(c), a, k), c, rounds, k + 1);
      }
    }
  }

  /** Every pass checks the icon at most `1 + MAX_ARROW_ATTEMPTS` times. */
  lemma PassBound(core: Core, c: Controls, tick: Tick)
    requires ValidControls(c)
    ensures Checks(Pass(core, c, tick).ops)
            <= Checks(core.ops) + 1 + (if c.cfg.maxArrowAttempts > 0 then c.cfg.maxArrowAttempts else 0)
  {
    var checked := core.(ops := core.ops + [CheckIcon]);
    ChecksConcat(core.ops, [CheckIcon]);
    assert Checks([CheckIcon]) == 1 by { assert [CheckIcon][..0] == []; }
    var icon := IconNow(c, tick.iconShot);
    if Truthy(icon) {
      AttemptsBound(FoundStep(checked, icon.value.loc), c, tick.rounds, 0);
    }
  }

  /** A vanished icon ends the attempts with the status reset, so the next search is announced. */
  lemma {:induction false} GoneResetsStatus(core: Core, c: Controls, rounds: nat -> Round, k: nat)
    requires ValidControls(c) && k < c.cfg.maxArrowAttempts
    requires AttemptOf(c, rounds(k)).recheck.None?
    requires forall j :: 0 <= j < k ==> AttemptOf(c, rounds(j)).recheck.Some?
    ensures Attempts(core, c, rounds, 0).lastStatus == NoStatus
  {
    GoneAfter(core, c, rounds, 0, k);
  }

  lemma {:induction false} GoneAfter(core: Core, c: Controls, rounds: nat -> Round, i: nat, k: nat)
    requires ValidControls(c) && i <= k < c.cfg.maxArrowAttempts
    requires AttemptOf(c, rounds(k)).recheck.None?
    requires forall j :: i <= j < k ==> AttemptOf(c, rounds(j)).recheck.Some?
    ensures Attempts(core, c, rounds, i).lastStatus == NoStatus
    decreases k - i
  {
    var a := AttemptOf(c, rounds(i));
    var next := AttemptStep(core, Tune(c), a, i);
    if i < k {
      assert a.recheck.Some?;
      assert Attempts(core, c, rounds, i) == Attempts(next, c, rounds, i + 1);
      GoneAfter(next, c, rounds, i + 1, k);
    } else {
      assert Attempts(core, c, rounds, i) == next;
    }
  }

  predicate Sound(c: Controls, core: Core) {
    WellOrdered(c.screen, core.ops) && Consistent(core)
  }

  lemma {:induction false} AttemptsSound(core: Core, c: Controls, rounds: nat -> Round, k: nat)
    requires ValidControls(c) && Sound(c, core)
    ensures Sound(c, Attempts(core, c, rounds, k))
    decreases if k < c.cfg.maxArrowAttempts then c.cfg.maxArrowAttempts - k else 0
  {
    if k < c.cfg.maxArrowAttempts {
      var a := AttemptOf(c, rounds(k));
      AttemptStepOrdered(core, Tune(c), a, k);
      AttemptStepConsistent(core, Tune(c), a, k);
      if a.recheck.Some? {
        AttemptsSound(AttemptStep(core, Tune(c), a, k), c, rounds, k + 1);
      }
    }
  }

  lemma PassSound(core: Core, c: Controls, tick: Tick)
    requires ValidControls(c) && Sound(c, core)
    ensures Sound(c, Pass(core, c, tick))
  {
    var checked := core.(ops := core.ops + [CheckIcon]);
    assert Sound(c, checked) by {
      CheckKeepsOrder(c.screen, core.ops);
    }
    var icon := IconNow(c, tick.iconShot);
    if Truthy(icon) {
      var found := FoundStep(checked, icon.value.loc);
      assert Sound(c, found) by {
        FoundStepConsistent(checked, icon.value.loc);
      }
      AttemptsSound(found, c, tick.rounds, 0);
      assert Pass(core, c, tick) == Attempts(found, c, tick.rounds, 0);
    } else {
      assert Sound(c, SearchStep(checked, tick.now)) by {
        SearchStepConsistent(checked, tick.now);
      }
      assert Pass(core, c, tick) == SearchStep(checked, tick.now);
    }
  }


  /**
    A fresh controller's run keeps its actions in program order and logs "found"
    only on a change of status, and the periodic search report only after more
    than 30 seconds.
  */
  lemma {:induction false} RunSound(c: Controls, ticks: seq<Tick>)
    requires ValidControls(c)
    ensures Sound(c, Interrupted(Core(NoStatus, 0.0, [], []), c, ticks))
  {
    var start := Core(NoStatus, 0.0, [Started], []);
    assert Walk(c.screen, Idle, []) == Some(Idle);
    HearSnoc(Fresh, [], Started);
    assert [] + [Started] == [Started];
    PassesSound(start, c, ticks);
    HearSnoc(Fresh, Passes(start, c, ticks).log, Ended);
  }

  lemma {:induction false} PassesSound(core: Core, c: Controls, ticks: seq<Tick>)
    requires ValidControls(c) && Sound(c, core)
    ensures Sound(c, Passes(core, c, ticks))
    decreases |ticks|
  {
    if ticks != [] {
      PassSound(core, c, ticks[0]);
      PassesSound(Pass(core, c, ticks[0]), c, ticks[1..]);
    }
  }
}
