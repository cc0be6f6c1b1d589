/**
  The configurable application: its two detectors and the background worker
  that runs the icon search and the arrow attempts, with pause, resume and stop.

  The worker's inputs are what the world answers while it runs: per pass of
  the outer loop a `Tick` (the commands that arrived before the loop test, the
  clock, the icon screenshot, and per attempt a `Round`). A finite list of
  ticks is the part of an endless run that is observed.
*/
module App {
  import opened Base
  import opened Geometry
  import opened Argmax
  import opened Matching
  import opened Blobs
  import opened Trace

  /** `ImageDetector` once its template has loaded. */
  datatype IconDetector = IconDetector(region: Region, confidence: real, steps: nat, lo: real, hi: real,
                                       template: Size)

  /** `ArrowDetector` once its template has loaded. */
  datatype ArrowDetector = ArrowDetector(region: Region, radius: real, minArea: real, confidence: real,
                                         steps: nat, lo: real, hi: real, dragDistance: real, minHits: int,
                                         template: Size)

  /**
    `ImageDetector.find_image_with_scaling`, as a value: the first strict best
    among the scales whose truncated template fits the screenshot, if it reaches
    the confidence.
  */
  function IconSearch(d: IconDetector, shot: real -> Match): Option<Seen> {
    SeenOf(Located(Linspace(d.lo, d.hi, d.steps, true), Fits(d.template, d.region.Dims(), Truncated),
                   shot, d.region.Origin(), d.confidence))
  }

  /** `ArrowDetector.find_character`, as a value: the same with rounded templates of at least one pixel. */
  function CharacterSearch(d: ArrowDetector, shot: real -> Match): Option<Seen> {
    SeenOf(Located(Linspace(d.lo, d.hi, d.steps, true), Fits(d.template, d.region.Dims(), RoundedAtLeastOne),
                   shot, d.region.Origin(), d.confidence))
  }

  /**
    `find_image_with_scaling`: the scale loop that skips templates larger than
    the screenshot, then the confidence test. The screenshot of the search region
    has the region's size; `shot` gives the correlation peak per scale.
  */
  method FindImageWithScaling(d: IconDetector, shot: real -> Match) returns (r: Option<Seen>)
    ensures r == IconSearch(d, shot)
    ensures r.Some? ==> && r.value.scale in Linspace(d.lo, d.hi, d.steps, true)
                        && !Oversized(d.template, d.region.Dims(), r.value.scale, Truncated)
                        && shot(r.value.scale).score >= d.confidence
                        && r.value.loc == Translate(shot(r.value.scale).offset, d.region.Origin())
  {
    var scales := Linspace(d.lo, d.hi, d.steps, true);
    var fits := Fits(d.template, d.region.Dims(), Truncated);
    var maxCorr, found := Sweep(scales, fits, shot, d.region.Origin());
    ThresholdIsLocated(scales, fits, shot, d.region.Origin(), d.confidence, maxCorr, found);
    LocatedSpec(scales, fits, shot, d.region.Origin(), d.confidence);
    if maxCorr >= d.confidence {
      r := SeenOf(found);
    } else {
      r := None;
    }
  }

  /**
    `find_character`: as above with `max(1, round(...))` template sizes, and the
    extra test that a location was found.
  */
  method FindCharacter(d: ArrowDetector, shot: real -> Match) returns (r: Option<Seen>)
    ensures r == CharacterSearch(d, shot)
    ensures r.Some? ==> && r.value.scale in Linspace(d.lo, d.hi, d.steps, true)
                        && !Oversized(d.template, d.region.Dims(), r.value.scale, RoundedAtLeastOne)
                        && shot(r.value.scale).score >= d.confidence
                        && r.value.loc == Translate(shot(r.value.scale).offset, d.region.Origin())
  {
    var scales := Linspace(d.lo, d.hi, d.steps, true);
    var fits := Fits(d.template, d.region.Dims(), RoundedAtLeastOne);
    var maxCorr, found := Sweep(scales, fits, shot, d.region.Origin());
    ThresholdIsLocated(scales, fits, shot, d.region.Origin(), d.confidence, maxCorr, found);
    LocatedSpec(scales, fits, shot, d.region.Origin(), d.confidence);
    if maxCorr >= d.confidence && found.Some? {
      r := SeenOf(found);
    } else {
      r := None;
    }
  }

  /** Everything the worker reads from its settings, typed. */
  datatype Settings = Settings(icon: IconDetector, arrow: ArrowDetector, maxAttempts: int, screen: Size,
                               bearing: (real, real) -> real, atanOfSums: seq<real> -> Option<real>,
                               heading: real -> RPoint)

  predicate ValidSettings(s: Settings) {
    ValidScreen(s.screen)
  }

  /** The click reach of app.py is 10 pixels. */
  function Tune(s: Settings): Tuning {
    Tuning(s.screen, s.icon.template, s.arrow.template, 10, s.arrow.dragDistance, s.heading)
  }

  /** Host commands: the Pause, Resume and Stop buttons. */
  datatype Cmd = PauseCmd | ResumeCmd | StopCmd

  /** `_pause_ev.is_set()` and `_stop_ev.is_set()`. */
  datatype Flags = Flags(running: bool, stopped: bool)

  /** `pause()` clears the run event; `resume()` sets it; `stop()` sets the stop event and the run event. */
  function Command(f: Flags, c: Cmd): Flags {
    match c
    case PauseCmd => f.(running := false)
    case ResumeCmd => f.(running := true)
    case StopCmd => Flags(true, true)
  }

  function Commands(f: Flags, cmds: seq<Cmd>): Flags {
    if cmds == [] then f else Command(Commands(f, cmds[..|cmds| - 1]), cmds[|cmds| - 1])
  }

  /** What the world answers during one arrow attempt, before the detectors interpret it. */
  datatype Round = Round(cmds: seq<Cmd>, iconShot: real -> Match, draw1: Point, charShot: real -> Match,
                         frames: seq<Region -> Option<seq<Contour>>>, draw2: Point)

  /** One pass of the outer loop. */
  datatype Tick = Tick(cmds: seq<Cmd>, now: real, iconShot: real -> Match, rounds: nat -> Round)

  /** The arrow wait around a found character, over the polls of its frames. */
  function ArrowWaitAt(s: Settings, ch: Option<Seen>, frames: seq<Region -> Option<seq<Contour>>>): ArrowWait
    requires ValidSettings(s)
  {
    if Truthy(ch) then
      WaitOutcome(Polls(s.arrow.radius, s.arrow.minArea, CharacterCenter(Tune(s), ch.value), s.screen, frames, s.bearing),
                  s.arrow.minHits, s.atanOfSums)
    else ArrowWait(None, None, 0)
  }

  /** The detector answers of one round. */
  function AttemptOf(s: Settings, r: Round): Attempt
    requires ValidSettings(s)
  {
    var ch := CharacterSearch(s.arrow, r.charShot);
    Attempt(IconSearch(s.icon, r.iconShot), r.draw1, ch, ArrowWaitAt(s, ch, r.frames), r.draw2)
  }

  datatype State = State(flags: Flags, core: Core)

  /**
    The attempt loop from attempt `k` on, the commands before its test already
    applied: it runs while fewer than `MAX_ARROW_ATTEMPTS` attempts were made and
    the worker is running and not stopped, and breaks when the icon is gone.
  */
  function AttemptLoop(st: State, s: Settings, rounds: nat -> Round, k: nat): State
    requires ValidSettings(s)
    decreases if k < s.maxAttempts then s.maxAttempts - k else 0
  {
    if !(k < s.maxAttempts && st.flags.running && !st.flags.stopped) then st
    else
      var a := AttemptOf(s, rounds(k));
      var core := AttemptStep(st.core, Tune(s), a, k);
      if a.recheck.None? then State(st.flags, core)
      else AttemptLoop(State(Commands(st.flags, rounds(k + 1).cmds), core), s, rounds, k + 1)
  }

  /** One pass of the outer loop after the stop test. */
  function TickStep(st: State, s: Settings, tick: Tick): State
    requires ValidSettings(s)
  {
    if !st.flags.running then st
    else
      var core := st.core.(ops := st.core.ops + [CheckIcon]);
      var icon := IconSearch(s.icon, tick.iconShot);
      if Truthy(icon) then
        AttemptLoop(State(Commands(st.flags, tick.rounds(0).cmds), FoundStep(core, icon.value.loc)), s, tick.rounds, 0)
      else State(st.flags, SearchStep(core, tick.now))
  }

  /** The outer loop over the observed passes: commands, stop test, one pass. */
  function Loop(st: State, s: Settings, ticks: seq<Tick>): State
    requires ValidSettings(s)
    decreases |ticks|
  {
    if ticks == [] then st
    else
      var st1 := st.(flags := Commands(st.flags, ticks[0].cmds));
      if st1.flags.stopped then st1 else Loop(TickStep(st1, s, ticks[0]), s, ticks[1..])
  }

  /** `run`: an initialisation failure is logged and ends it; a stop ends it with a final message. */
  function RunOutcome(flags: Flags, log: seq<Note>, ops: seq<Op>, s: Settings, loaded: bool, ticks: seq<Tick>): State
    requires ValidSettings(s)
  {
    if !loaded then State(flags, Core(NoStatus, 0.0, log + [InitFailed], ops))
    else
      var st := Loop(State(flags, Core(NoStatus, 0.0, log + [Started], ops)), s, ticks);
      if st.flags.stopped then st.(core := st.core.(log := st.core.log + [Ended])) else st
  }

  // ---------------------------------------------------------------------------
  // What the worker's loop guarantees.

  /** The stop event is never cleared: the worker is stopped exactly when it was or a stop arrived. */
  lemma {:induction false} CommandsStop(f: Flags, cmds: seq<Cmd>)
    ensures Commands(f, cmds).stopped <==> f.stopped || StopCmd in cmds
    decreases |cmds|
  {
    if cmds != [] {
      var init := cmds[..|cmds| - 1];
      CommandsStop(f, init);
      assert cmds == init + [cmds[|cmds| - 1]];
    }
  }

  /** Without a resume a paused worker stays paused, unless a stop arrives, which also wakes it. */
  lemma {:induction false} CommandsWithoutResume(f: Flags, cmds: seq<Cmd>)
    requires !f.running || f.stopped
    requires ResumeCmd !in cmds
    ensures !Commands(f, cmds).running || Commands(f, cmds).stopped
    decreases |cmds|
  {
    if cmds != [] {
      var init := cmds[..|cmds| - 1];
      assert cmds == init + [cmds[|cmds| - 1]];
      CommandsWithoutResume(f, init);
    }
  }

  /** The attempt loop from attempt `k` on checks the icon at most once per remaining attempt. */
  lemma {:induction false} AttemptLoopBound(st: State, s: Settings, rounds: nat -> Round, k: nat)
    requires ValidSettings(s)
    ensures Checks(AttemptLoop(st, s, rounds, k).core.ops)
            <= Checks(st.core.ops) + (if k < s.maxAttempts then s.maxAttempts - k else 0)
    decreases if k < s.maxAttempts then s.maxAttempts - k else 0
  {
    if k < s.maxAttempts && st.flags.running && !st.flags.stopped {
      var a := AttemptOf(s, rounds(k));
      var core := AttemptStep(st.core, Tune(s), a, k);
      ChecksConcat(st.core.ops, AttemptOps(Tune(s), a));
      AttemptChecksOnce(Tune(s), a);
      if a.recheck.Some? {
        AttemptLoopBound(State(Commands(st.flags, rounds(k + 1).cmds), core), s, rounds, k + 1);
      }
    }
  }

  /**
    One pass checks the icon once, then at most `MAX_ARROW_ATTEMPTS` times more
    in the attempt loop; a paused pass checks nothing.
  */
  lemma PassBound(st: State, s: Settings, tick: Tick)
    requires ValidSettings(s)
    ensures Checks(TickStep(st, s, tick).core.ops)
            <= Checks(st.core.ops) + (if !st.flags.running then 0 else if s.maxAttempts > 0 then 1 + s.maxAttempts else 1)
  {
    if st.flags.running {
      var ops := st.core.ops + [CheckIcon];
      ChecksConcat(st.core.ops, [CheckIcon]);
      assert Checks([CheckIcon]) == 1 by { assert [CheckIcon][..0] == []; }
      var core := st.core.(ops := ops);
      var icon := IconSearch(s.icon, tick.iconShot);
      if Truthy(icon) {
        AttemptLoopBound(State(Commands(st.flags, tick.rounds(0).cmds), FoundStep(core, icon.value.loc)),
                         s, tick.rounds, 0);
      }
    }
  }

  /** What the worker keeps true of its logs: actions in program order, announcements matching the status. */
  predicate Sound(s: Settings, c: Core) {
    WellOrdered(s.screen, c.ops) && Consistent(c)
  }

  lemma {:induction false} AttemptLoopSound(st: State, s: Settings, rounds: nat -> Round, k: nat)
    requires ValidSettings(s) && Sound(s, st.core)
    ensures Sound(s, AttemptLoop(st, s, rounds, k).core)
    decreases if k < s.maxAttempts then s.maxAttempts - k else 0
  {
    if k < s.maxAttempts && st.flags.running && !st.flags.stopped {
      var a := AttemptOf(s, rounds(k));
      var core := AttemptStep(st.core, Tune(s), a, k);
      AttemptStepOrdered(st.core, Tune(s), a, k);
      AttemptStepConsistent(st.core, Tune(s), a, k);
      if a.recheck.Some? {
        AttemptLoopSound(State(Commands(st.flags, rounds(k + 1).cmds), core), s, rounds, k + 1);
      }
    }
  }

  lemma TickStepSound(st: State, s: Settings, tick: Tick)
    requires ValidSettings(s) && Sound(s, st.core)
    ensures Sound(s, TickStep(st, s, tick).core)
  {
    if st.flags.running {
      CheckKeepsOrder(s.screen, st.core.ops);
      var core := st.core.(ops := st.core.ops + [CheckIcon]);
      assert Consistent(core);
      var icon := IconSearch(s.icon, tick.iconShot);
      if Truthy(icon) {
        FoundStepConsistent(core, icon.value.loc);
        AttemptLoopSound(State(Commands(st.flags, tick.rounds(0).cmds), FoundStep(core, icon.value.loc)),
                         s, tick.rounds, 0);
      } else {
        SearchStepConsistent(core, tick.now);
      }
    }
  }

  /**
    Over any run, the actions stay in program order (every attempt re-checks the
    icon, clicks at most once before the character search, and drags and clicks
    again only after a steady arrow) and every status message matches the status.
  */
  lemma {:induction false} LoopSound(st: State, s: Settings, ticks: seq<Tick>)
    requires ValidSettings(s) && Sound(s, st.core)
    ensures Sound(s, Loop(st, s, ticks).core)
    decreases |ticks|
  {
    if ticks != [] {
      var st1 := st.(flags := Commands(st.flags, ticks[0].cmds));
      if !st1.flags.stopped {
        TickStepSound(st1, s, ticks[0]);
        LoopSound(TickStep(st1, s, ticks[0]), s, ticks[1..]);
      }
    }
  }

  /** A fresh worker's run ends with both guarantees. */
  lemma RunSound(flags: Flags, s: Settings, loaded: bool, ticks: seq<Tick>)
    requires ValidSettings(s)
    ensures Sound(s, RunOutcome(flags, [], [], s, loaded, ticks).core)
  {
    assert Walk(s.screen, Idle, []) == Some(Idle);
    if loaded {
      var c := Core(NoStatus, 0.0, [Started], []);
      HearSnoc(Fresh, [], Started);
      assert [] + [Started] == [Started];
      LoopSound(State(flags, c), s, ticks);
      var st := Loop(State(flags, c), s, ticks);
      HearSnoc(Fresh, st.core.log, Ended);
    } else {
      HearSnoc(Fresh, [], InitFailed);
      assert [] + [InitFailed] == [InitFailed];
    }
  }

  /**
    A paused worker does no detection: as long as no resume arrives it takes no
    screen action and logs nothing, whether or not a stop ends the run.
  */
  lemma {:induction false} PausedStaysIdle(st: State, s: Settings, ticks: seq<Tick>)
    requires ValidSettings(s)
    requires !st.flags.running || st.flags.stopped
    requires forall i :: 0 <= i < |ticks| ==> ResumeCmd !in ticks[i].cmds
    ensures Loop(st, s, ticks).core == st.core
    decreases |ticks|
  {
    if ticks != [] {
      CommandsWithoutResume(st.flags, ticks[0].cmds);
      var st1 := st.(flags := Commands(st.flags, ticks[0].cmds));
      if !st1.flags.stopped {
        PausedStaysIdle(st1, s, ticks[1..]);
      }
    }
  }

  /** The pass that receives a stop is the last: the ticks after it are never looked at. */
  lemma {:induction false} StopIsFinal(st: State, s: Settings, ticks: seq<Tick>, i: nat)
    requires ValidSettings(s)
    requires i < |ticks| && StopCmd in ticks[i].cmds
    ensures Loop(st, s, ticks) == Loop(st, s, ticks[..i + 1])
    ensures Loop(st, s, ticks).flags.stopped
    decreases i
  {
    var st1 := st.(flags := Commands(st.flags, ticks[0].cmds));
    assert ticks[..i + 1][0] == ticks[0];
    if i == 0 {
      CommandsStop(st.flags, ticks[0].cmds);
    } else if !st1.flags.stopped {
      assert ticks[..i + 1][1..] == ticks[1..][..i];
      StopIsFinal(TickStep(st1, s, ticks[0]), s, ticks[1..], i - 1);
    } else {
      // a stop carried by an earlier pass ended it there
    }
  }

  /** `DetectorWorker`: the two events, the log it emits and the screen actions it takes. */
  class DetectorWorker {
    const settings: Settings
    var running: bool
    var stopped: bool
    var log: seq<Note>
    var ops: seq<Op>

    function Snap(status: Status, t0: real): State
      reads this
    {
      State(Flags(running, stopped), Core(status, t0, log, ops))
    }

    /** A new worker may run and is not stopped. */
    constructor (s: Settings)
      ensures settings == s && running && !stopped && log == [] && ops == []
    {
      settings := s;
      running := true;
      stopped := false;
      log := [];
      ops := [];
    }

    method Pause()
      modifies this`running
      ensures Flags(running, stopped) == Command(old(Flags(running, stopped)), PauseCmd)
    {
      running := false;
    }

    method Resume()
      modifies this`running
      ensures Flags(running, stopped) == Command(old(Flags(running, stopped)), ResumeCmd)
    {
      running := true;
    }

    /** Stop also sets the run event, so that a paused worker leaves its wait. */
    method Stop()
      modifies this`running, this`stopped
      ensures running && stopped
      ensures Flags(running, stopped) == Command(old(Flags(running, stopped)), StopCmd)
    {
      stopped := true;
      running := true;
    }

    /** The commands that arrived since the last loop test, in order. */
    method Deliver(cmds: seq<Cmd>)
      modifies this`running, this`stopped
      ensures Flags(running, stopped) == Commands(old(Flags(running, stopped)), cmds)
    {
      for i := 0 to |cmds|
        invariant Flags(running, stopped) == Commands(old(Flags(running, stopped)), cmds[..i])
      {
        assert cmds[..i + 1][..i] == cmds[..i];
        match cmds[i]
        case PauseCmd => Pause();
        case ResumeCmd => Resume();
        case StopCmd => Stop();
      }
      assert cmds[..|cmds|] == cmds;
    }

    /**
      A steady arrow: announce the hits, drag towards the arrow, announce the
      second click and click the icon again.
    */
    method Reposition(icon: Seen, center: RPoint, w: ArrowWait, draw: Point)
      requires ValidSettings(settings) && Steady(w)
      modifies this`log, this`ops
      ensures var t := Tune(settings);
        && log == old(log) + [ArrowSteady(w.hits, w.angle.value), Reclicking]
        && ops == old(ops) + [DragOf(t, center, w.angle.value)] + Clicks(ClickAt(icon, t.iconTemplate, draw, t.reach, t.screen))
    {
      var t := Tune(settings);
      log := log + [ArrowSteady(w.hits, w.angle.value)];
      ops := ops + [DragOf(t, center, w.angle.value)];
      log := log + [Reclicking];
      var post := ClickAt(icon, t.iconTemplate, draw, t.reach, t.screen);
      ops := ops + Clicks(post);
    }

    /**
      What follows a character search: nothing to wait for unless the character is
      there (`location and scale`); otherwise wait for the arrow around its centre
      and, when it held still, drag towards it and click the icon once more.
    */
    method FollowCharacter(icon: Seen, ch: Option<Seen>, r: Round)
      requires ValidSettings(settings) && ch == CharacterSearch(settings.arrow, r.charShot)
      modifies this`log, this`ops
      ensures log == old(log) + CharacterNotes(Tune(settings), AttemptOf(settings, r))
      ensures ops == old(ops) + CharacterOps(Tune(settings), icon, AttemptOf(settings, r))
    {
      var t := Tune(settings);
      ghost var a := AttemptOf(settings, r);
      CharacterUnfolded(t, icon, a, log, ops);
      assert a.character == ch;
      if Truthy(ch) {
        var c := CharacterCenter(t, ch.value);
        log := log + [CharacterAt(c)];
        var w := WaitForArrow(settings.arrow.radius, settings.arrow.minArea, settings.arrow.minHits, c,
                              settings.screen, r.frames, settings.bearing, settings.atanOfSums);
        assert w == a.arrow;
        ops := ops + [WaitArrow(c, w)];
        if Steady(w) {
          Reposition(icon, c, w, r.draw2);
        } else {
          log := log + [NoArrow];
        }
      } else {
        log := log + [NoCharacter];
      }
    }

    /**
      One arrow attempt: re-check the icon, click it, look for the character, then
      follow it up.
    */
    method Attempt(r: Round, n: nat, status: Status, t0: real) returns (status': Status, gone: bool)
      requires ValidSettings(settings)
      modifies this`log, this`ops
      ensures var c := AttemptStep(Core(status, t0, old(log), old(ops)), Tune(settings), AttemptOf(settings, r), n);
        status' == c.lastStatus && log == c.log && ops == c.ops
      ensures gone == AttemptOf(settings, r).recheck.None?
    {
      var t := Tune(settings);
      ghost var a := AttemptOf(settings, r);
      AttemptStepUnfolded(Core(status, t0, log, ops), t, a, n);
      var recheck := FindImageWithScaling(settings.icon, r.iconShot);
      assert recheck == a.recheck;
      ops := ops + [CheckIcon];
      if recheck.None? {
        log := log + [IconGone];
        return NoStatus, true;
      }
      status', gone := status, false;
      var icon := recheck.value;
      log := log + [AttemptStarted(n + 1)];
      var pre := ClickAt(icon, t.iconTemplate, r.draw1, t.reach, t.screen);
      ops := ops + Clicks(pre) + [SearchCharacter];
      var ch := FindCharacter(settings.arrow, r.charShot);
      FollowCharacter(icon, ch, r);
    }

    /**
      One pass of the outer loop while running: search the icon; when it is there
      (`location and scale`), announce it on a change and run the attempt loop;
      otherwise announce or time the search.
    */
    method Pass(tick: Tick, status: Status, t0: real) returns (status': Status, t0': real)
      requires ValidSettings(settings) && running && !stopped
      modifies this`log, this`ops, this`running, this`stopped
      ensures Snap(status', t0') == TickStep(old(Snap(status, t0)), settings, tick)
    {
      var found := FindImageWithScaling(settings.icon, tick.iconShot);
      ops := ops + [CheckIcon];
      status', t0' := status, t0;
      if Truthy(found) {
        if status' != Found {
          log := log + [IconFound(found.value.loc)];
          status' := Found;
        }
        Deliver(tick.rounds(0).cmds);
        ghost var goal := AttemptLoop(Snap(status', t0'), settings, tick.rounds, 0);
        var attempts := 0;
        while attempts < settings.maxAttempts && running && !stopped
          invariant AttemptLoop(Snap(status', t0'), settings, tick.rounds, attempts) == goal
          decreases settings.maxAttempts - attempts
        {
          var gone;
          status', gone := Attempt(tick.rounds(attempts), attempts, status', t0');
          if gone {
            break;
          }
          attempts := attempts + 1;
          Deliver(tick.rounds(attempts).cmds);
        }
      } else {
        if status' != Searching {
          log := log + [SearchStarted(tick.now)];
          status' := Searching;
          t0' := tick.now;
        } else if tick.now - t0' > 30.0 {
          log := log + [StillSearching(tick.now)];
          t0' := tick.now;
        }
      }
    }

    /**
      `run`: build the detectors (`loaded` says whether both templates loaded),
      then loop until stopped: take the commands, test stop, skip the pass while
      paused, run a pass otherwise.
    */
    method Run(loaded: bool, ticks: seq<Tick>)
      requires ValidSettings(settings)
      modifies this
      ensures var o := RunOutcome(old(Flags(running, stopped)), old(log), old(ops), settings, loaded, ticks);
        Flags(running, stopped) == o.flags && log == o.core.log && ops == o.core.ops
    {
      if !loaded {
        log := log + [InitFailed];
        return;
      }
      log := log + [Started];
      var status := NoStatus;
      var t0 := 0.0;
      ghost var goal := Loop(Snap(status, t0), settings, ticks);
      var i := 0;
      while i < |ticks|
        invariant 0 <= i <= |ticks|
        invariant Loop(Snap(status, t0), settings, ticks[i..]) == goal
      {
        ghost var before := Snap(status, t0);
        Deliver(ticks[i].cmds);
        assert ticks[i..][0] == ticks[i] && ticks[i..][1..] == ticks[i + 1..];
        if stopped {
          break;
        }
        if running {
          status, t0 := Pass(ticks[i], status, t0);
        }
        i := i + 1;
      }
      if stopped {
        log := log + [Ended];
      }
    }
  }
}
