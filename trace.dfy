/**
  What both detection controllers (`DetectorWorker.run` and
  `MainController.run` / `arrow_detection_loop`) do in one arrow attempt and in
  one pass of the icon search, as values: the messages they log, the screen
  actions they take, and the `last_status` / search timer they keep.

  Two small automata state the properties of those records:
  - `Walk` reads the action log and admits only the order the program uses:
    icon check, optional preventive click, character search, arrow wait, drag
    from the character, confirming click; clicks and drag ends on screen.
  - `Hear` reads the message log and admits a status announcement only when the
    status changes, and a "still searching" note only after more than 30 seconds.
*/
module Trace {
  import opened Base
  import opened Geometry
  import opened Matching
  import opened Blobs

  /** `last_status`: `None`, `"found"` or `"searching"`. */
  datatype Status = NoStatus | Found | Searching

  /** The screen actions a controller takes, in order. */
  datatype Op =
    | CheckIcon                                     // a call of the icon detector
    | Click(at: RPoint)                             // `pyautogui.click`
    | SearchCharacter                               // a call of the character detector
    | WaitArrow(center: RPoint, outcome: ArrowWait) // `wait_for_arrow` around the character
    | Drag(from: Point, to: Point)                  // press, move and release

  /** The messages a controller logs (wording aside). */
  datatype Note =
    | Started | Ended | InitFailed
    | IconFound(loc: Point)
    | SearchStarted(at: real)
    | StillSearching(at: real)
    | IconGone
    | AttemptStarted(n: nat)
    | CharacterAt(center: RPoint)
    | NoCharacter
    | ArrowSteady(hits: nat, angle: real)
    | Reclicking
    | NoArrow

  /** A detector answer `(location, scale)`; `None` stands for `(None, None)`. */
  datatype Seen = Seen(loc: Point, scale: real)

  /** The `(location, scale)` pair a scale search returns. */
  function SeenOf(h: Option<Hit<real>>): Option<Seen> {
    match h
    case None => None
    case Some(hit) => Some(Seen(hit.loc, hit.key))
  }

  /** Python's `if location and scale`: a tuple is always true, a zero scale is false. */
  predicate Truthy(r: Option<Seen>) {
    r.Some? && r.value.scale != 0.0
  }

  /**
    What the world answers during one arrow attempt: the icon re-check, the
    random draw of the preventive click, the character search, the arrow wait,
    and the random draw of the confirming click.
  */
  datatype Attempt = Attempt(recheck: Option<Seen>, draw1: Point, character: Option<Seen>,
                             arrow: ArrowWait, draw2: Point)

  /**
    Fixed facts of a controller: screen size, template sizes, the reach of the
    random click offset, the drag distance, and the unit vector
    `(sin(rad), -cos(rad))` of a bearing, an oracle.
  */
  datatype Tuning = Tuning(screen: Size, iconTemplate: Size, charTemplate: Size, reach: nat,
                           dragDistance: real, heading: real -> RPoint)

  predicate ValidTuning(t: Tuning) {
    ValidScreen(t.screen)
  }

  /** `random.randint(-reach, reach)`, the random source being an arbitrary integer draw. */
  function Jitter(draw: int, reach: nat): (r: int)
    ensures -(reach as int) <= r <= reach
  {
    draw % (2 * reach + 1) - reach
  }

  /** Every offset in range is reachable by some draw. */
  lemma JitterOnto(v: int, reach: nat)
    requires -(reach as int) <= v <= reach
    ensures Jitter(v + reach, reach) == v
  {
  }

  /**
    `click_center`: no click when the scale is zero (`location and scale`) or a
    centre coordinate is zero (`cx and cy`); otherwise the centre plus a random
    offset, clamped into the screen.
  */
  function ClickAt(seen: Seen, template: Size, draw: Point, reach: nat, screen: Size): Option<RPoint>
    requires ValidScreen(screen)
  {
    if seen.scale == 0.0 then None
    else
      var c := CenterOf(seen.loc, seen.scale, template);
      if c.x == 0.0 || c.y == 0.0 then None
      else Some(ClickPoint(c, Point(Jitter(draw.x, reach), Jitter(draw.y, reach)), screen))
  }

  /**
    A click lands on screen; when the centre is on screen it lands within `reach`
    pixels of it on each axis; it happens exactly when the scale and both centre
    coordinates are non-zero.
  */
  lemma ClickAtSpec(seen: Seen, template: Size, draw: Point, reach: nat, screen: Size)
    requires ValidScreen(screen)
    ensures var c := CenterOf(seen.loc, seen.scale, template);
      var r := ClickAt(seen, template, draw, reach, screen);
      && (r.Some? <==> seen.scale != 0.0 && c.x != 0.0 && c.y != 0.0)
      && (r.Some? ==> OnScreenPoint(r.value, screen))
      && (r.Some? && OnScreenPoint(c, screen) ==> Near(r.value, c, reach))
  {
    var c := CenterOf(seen.loc, seen.scale, template);
    if seen.scale != 0.0 && c.x != 0.0 && c.y != 0.0 {
      ClickFromCenter(c, draw, reach, screen);
    }
  }

  /** The clamped, jittered click around a centre. */
  lemma ClickFromCenter(c: RPoint, draw: Point, reach: nat, screen: Size)
    requires ValidScreen(screen)
    ensures var p := ClickPoint(c, Point(Jitter(draw.x, reach), Jitter(draw.y, reach)), screen);
      OnScreenPoint(p, screen) && (OnScreenPoint(c, screen) ==> Near(p, c, reach))
  {
    var off := Point(Jitter(draw.x, reach), Jitter(draw.y, reach));
    if OnScreenPoint(c, screen) {
      ClickNearCenter(c, off, screen, reach);
    }
  }

  /** Within `reach` pixels on each axis. */
  predicate Near(p: RPoint, c: RPoint, reach: nat) {
    c.x - reach as real <= p.x <= c.x + reach as real && c.y - reach as real <= p.y <= c.y + reach as real
  }

  function Clicks(p: Option<RPoint>): seq<Op> {
    match p
    case None => []
    case Some(at) => [Click(at)]
  }

  /** `drag_towards_arrow(cx, cy, angle)`: from the rounded centre to the clamped, rounded target. */
  function DragOf(t: Tuning, center: RPoint, angle: real): Op
    requires ValidTuning(t)
  {
    var u := t.heading(angle);
    Drag(DragStart(center), DragTarget(center, RPoint(t.dragDistance * u.x, t.dragDistance * u.y), t.screen))
  }

  /** The character centre: its top-left corner plus half the scaled template. */
  function CharacterCenter(t: Tuning, ch: Seen): RPoint {
    CenterOf(ch.loc, ch.scale, t.charTemplate)
  }

  /** The actions after the character search of one attempt. */
  function CharacterOps(t: Tuning, icon: Seen, a: Attempt): seq<Op>
    requires ValidTuning(t)
  {
    if !Truthy(a.character) then []
    else
      var c := CharacterCenter(t, a.character.value);
      [WaitArrow(c, a.arrow)]
      + if Steady(a.arrow) then [DragOf(t, c, a.arrow.angle.value)]
                                + Clicks(ClickAt(icon, t.iconTemplate, a.draw2, t.reach, t.screen))
        else []
  }

  /** The actions of one attempt. */
  function AttemptOps(t: Tuning, a: Attempt): seq<Op>
    requires ValidTuning(t)
  {
    match a.recheck
    case None => [CheckIcon]
    case Some(icon) =>
      [CheckIcon] + Clicks(ClickAt(icon, t.iconTemplate, a.draw1, t.reach, t.screen))
      + [SearchCharacter] + CharacterOps(t, icon, a)
  }

  /** The messages after the character search of one attempt. */
  function CharacterNotes(t: Tuning, a: Attempt): seq<Note> {
    if !Truthy(a.character) then [NoCharacter]
    else
      [CharacterAt(CharacterCenter(t, a.character.value))]
      + if Steady(a.arrow) then [ArrowSteady(a.arrow.hits, a.arrow.angle.value), Reclicking] else [NoArrow]
  }

  /** The messages of attempt number `n` (counted from zero). */
  function AttemptNotes(t: Tuning, a: Attempt, n: nat): seq<Note> {
    match a.recheck
    case None => [IconGone]
    case Some(_) => [AttemptStarted(n + 1)] + CharacterNotes(t, a)
  }

  /** What a controller keeps across iterations: `last_status`, the search timer, the logs. */
  datatype Core = Core(lastStatus: Status, searchT0: real, log: seq<Note>, ops: seq<Op>)

  /** One attempt: a vanished icon resets `last_status`; otherwise the status is kept. */
  function AttemptStep(c: Core, t: Tuning, a: Attempt, n: nat): Core
    requires ValidTuning(t)
  {
    Core(if a.recheck.None? then NoStatus else c.lastStatus, c.searchT0,
         c.log + AttemptNotes(t, a, n), c.ops + AttemptOps(t, a))
  }

  /** The icon was found: announce it unless the status already says so. */
  function FoundStep(c: Core, loc: Point): Core {
    if c.lastStatus != Found then c.(lastStatus := Found, log := c.log + [IconFound(loc)]) else c
  }

  /**
    The icon was not found: announce the search on a status change and start the
    timer; otherwise report and restart the timer once more than 30 seconds passed.
  */
  function SearchStep(c: Core, now: real): Core {
    if c.lastStatus != Searching then
      c.(lastStatus := Searching, searchT0 := now, log := c.log + [SearchStarted(now)])
    else if now - c.searchT0 > 30.0 then
      c.(searchT0 := now, log := c.log + [StillSearching(now)])
    else c
  }

  // ---------------------------------------------------------------------------
  // The order of screen actions.

  /** How far into an attempt the actions have gone. */
  datatype Phase =
    | Idle
    | Checked
    | PreClicked
    | CharSearched
    | Waited(center: RPoint, steady: bool)
    | Dragged
    | Confirmed

  predicate OnScreenPoint(p: RPoint, screen: Size) {
    0.0 <= p.x <= (screen.w - 1) as real && 0.0 <= p.y <= (screen.h - 1) as real
  }

  /**
    One admitted action: an icon check may come at any time; a click only right
    after a check or a drag, and on screen; the character search only after a
    check and at most a click; the arrow wait only after the character search; a
    drag only after a steady wait, from the rounded character centre to a point
    on screen.
  */
  function Next(screen: Size, p: Phase, op: Op): Option<Phase> {
    match op
    case CheckIcon => Some(Checked)
    case Click(at) =>
      if !OnScreenPoint(at, screen) then None
      else if p == Checked then Some(PreClicked)
      else if p == Dragged then Some(Confirmed)
      else None
    case SearchCharacter => if p == Checked || p == PreClicked then Some(CharSearched) else None
    case WaitArrow(c, o) => if p == CharSearched then Some(Waited(c, Steady(o))) else None
    case Drag(from, to) =>
      if p.Waited? && p.steady && from == DragStart(p.center)
         && 0 <= to.x <= screen.w - 1 && 0 <= to.y <= screen.h - 1
      then Some(Dragged)
      else None
  }

  /** The phase after a whole action log, or `None` if some action was out of order. */
  function Walk(screen: Size, p: Phase, ops: seq<Op>): Option<Phase> {
    if ops == [] then Some(p)
    else
      match Walk(screen, p, ops[..|ops| - 1])
      case None => None
      case Some(q) => Next(screen, q, ops[|ops| - 1])
  }

  /** The action log follows the program's order from the start. */
  predicate WellOrdered(screen: Size, ops: seq<Op>) {
    Walk(screen, Idle, ops).Some?
  }

  lemma {:induction false} WalkConcat(screen: Size, p: Phase, x: seq<Op>, y: seq<Op>)
    ensures Walk(screen, p, x + y) ==
      (match Walk(screen, p, x) case None => None case Some(q) => Walk(screen, q, y))
    decreases |y|
  {
    if y == [] {
      assert x + y == x;
    } else {
      var y' := y[..|y| - 1];
      assert (x + y)[..|x + y| - 1] == x + y';
      WalkConcat(screen, p, x, y');
    }
  }

  /** Every attempt's actions are admitted whatever phase the log was in. */
  lemma {:induction false} AttemptOpsAdmitted(t: Tuning, a: Attempt, p: Phase)
    requires ValidTuning(t)
    ensures Walk(t.screen, p, AttemptOps(t, a)).Some?
  {
    var s := t.screen;
    match a.recheck
    case None =>
      assert Walk(s, p, [CheckIcon]) == Next(s, p, CheckIcon) by {
        assert [CheckIcon][..0] == [];
      }
    case Some(icon) =>
      var pre := Clicks(ClickAt(icon, t.iconTemplate, a.draw1, t.reach, t.screen));
      ClickAtSpec(icon, t.iconTemplate, a.draw1, t.reach, t.screen);
      var head := [CheckIcon] + pre;
      assert Walk(s, p, [CheckIcon]) == Some(Checked) by { assert [CheckIcon][..0] == []; }
      WalkConcat(s, p, [CheckIcon], pre);
      assert Walk(s, Checked, pre) == Some(if pre == [] then Checked else PreClicked) by {
        if pre != [] { assert pre[..0] == []; }
      }
      WalkConcat(s, p, head, [SearchCharacter]);
      assert Walk(s, Walk(s, p, head).value, [SearchCharacter]) == Some(CharSearched) by {
        assert [SearchCharacter][..0] == [];
      }
      WalkConcat(s, p, head + [SearchCharacter], CharacterOps(t, icon, a));
      CharacterOpsAdmitted(t, icon, a);
      assert AttemptOps(t, a) == head + [SearchCharacter] + CharacterOps(t, icon, a);
  }

  /** The actions after the character search are admitted once the search is done. */
  lemma {:induction false} CharacterOpsAdmitted(t: Tuning, icon: Seen, a: Attempt)
    requires ValidTuning(t)
    ensures Walk(t.screen, CharSearched, CharacterOps(t, icon, a)).Some?
  {
    var s := t.screen;
    if Truthy(a.character) {
      var c := CharacterCenter(t, a.character.value);
      var w := [WaitArrow(c, a.arrow)];
      assert Walk(s, CharSearched, w) == Some(Waited(c, Steady(a.arrow))) by { assert w[..0] == []; }
      if Steady(a.arrow) {
        var d := [DragOf(t, c, a.arrow.angle.value)];
        var post := Clicks(ClickAt(icon, t.iconTemplate, a.draw2, t.reach, t.screen));
        ClickAtSpec(icon, t.iconTemplate, a.draw2, t.reach, t.screen);
        WalkConcat(s, CharSearched, w, d);
        assert Walk(s, Waited(c, true), d) == Some(Dragged) by { assert d[..0] == []; }
        WalkConcat(s, CharSearched, w + d, post);
        assert Walk(s, Dragged, post).Some? by { if post != [] { assert post[..0] == []; } }
        assert CharacterOps(t, icon, a) == w + d + post;
      } else {
        assert CharacterOps(t, icon, a) == w;
      }
    }
  }

  /** An attempt keeps the action log in order. */
  lemma {:induction false} AttemptStepOrdered(c: Core, t: Tuning, a: Attempt, n: nat)
    requires ValidTuning(t) && WellOrdered(t.screen, c.ops)
    ensures WellOrdered(t.screen, AttemptStep(c, t, a, n).ops)
  {
    WalkConcat(t.screen, Idle, c.ops, AttemptOps(t, a));
    AttemptOpsAdmitted(t, a, Walk(t.screen, Idle, c.ops).value);
  }

  /** An icon check keeps the action log in order. */
  lemma CheckKeepsOrder(screen: Size, ops: seq<Op>)
    requires WellOrdered(screen, ops)
    ensures WellOrdered(screen, ops + [CheckIcon])
  {
    assert (ops + [CheckIcon])[..|ops|] == ops;
  }

  /** The number of icon checks in an action log. */
  function Checks(ops: seq<Op>): nat {
    if ops == [] then 0 else Checks(ops[..|ops| - 1]) + (if ops[|ops| - 1].CheckIcon? then 1 else 0)
  }

  lemma {:induction false} ChecksConcat(x: seq<Op>, y: seq<Op>)
    ensures Checks(x + y) == Checks(x) + Checks(y)
    decreases |y|
  {
    if y == [] {
      assert x + y == x;
    } else {
      assert (x + y)[..|x + y| - 1] == x + y[..|y| - 1];
      ChecksConcat(x, y[..|y| - 1]);
    }
  }

  lemma {:induction false} NoChecks(ops: seq<Op>)
    requires forall k :: 0 <= k < |ops| ==> !ops[k].CheckIcon?
    ensures Checks(ops) == 0
    decreases |ops|
  {
    if ops != [] {
      NoChecks(ops[..|ops| - 1]);
    }
  }

  /** Every attempt checks for the icon exactly once, first. */
  lemma AttemptChecksOnce(t: Tuning, a: Attempt)
    requires ValidTuning(t)
    ensures Checks(AttemptOps(t, a)) == 1 && AttemptOps(t, a)[0] == CheckIcon
  {
    var ops := AttemptOps(t, a);
    var rest := ops[1..];
    assert ops == [CheckIcon] + rest;
    assert forall k :: 0 <= k < |rest| ==> !rest[k].CheckIcon?;
    NoChecks(rest);
    ChecksConcat([CheckIcon], rest);
    assert Checks([CheckIcon]) == 1 by { assert [CheckIcon][..0] == []; }
  }

  // ---------------------------------------------------------------------------
  // The status announcements.

  /** The status and timer the messages imply. */
  datatype Mark = Mark(status: Status, t0: real)

  /** The status and timer a controller starts with (`search_t0 = 0`). */
  const Fresh: Mark := Mark(NoStatus, 0.0)

  /**
    One admitted message: the icon is announced only when not already announced,
    the search only when not already searching; a still-searching report only
    while searching and more than 30 seconds after the timer was set.
  */
  function Heard(m: Mark, n: Note): Option<Mark> {
    match n
    case IconFound(_) => if m.status == Found then None else Some(m.(status := Found))
    case SearchStarted(at) => if m.status == Searching then None else Some(Mark(Searching, at))
    case StillSearching(at) => if m.status == Searching && at - m.t0 > 30.0 then Some(m.(t0 := at)) else None
    case IconGone => Some(m.(status := NoStatus))
    case _ => Some(m)
  }

  function Hear(m: Mark, log: seq<Note>): Option<Mark> {
    if log == [] then Some(m)
    else
      match Hear(m, log[..|log| - 1])
      case None => None
      case Some(q) => Heard(q, log[|log| - 1])
  }

  /** The log never repeats an announcement, and the status and timer are the ones it implies. */
  predicate Consistent(c: Core) {
    Hear(Fresh, c.log) == Some(Mark(c.lastStatus, c.searchT0))
  }

  lemma HearSnoc(m: Mark, log: seq<Note>, n: Note)
    ensures Hear(m, log + [n]) == (match Hear(m, log) case None => None case Some(q) => Heard(q, n))
  {
    assert (log + [n])[..|log|] == log;
  }

  lemma {:induction false} HearConcat(m: Mark, x: seq<Note>, y: seq<Note>)
    ensures Hear(m, x + y) == (match Hear(m, x) case None => None case Some(q) => Hear(q, y))
    decreases |y|
  {
    if y == [] {
      assert x + y == x;
    } else {
      var y' := y[..|y| - 1];
      assert (x + y)[..|x + y| - 1] == x + y';
      HearConcat(m, x, y');
    }
  }

  /** A message that announces nothing about the status. */
  predicate Quiet(n: Note) {
    !(n.IconFound? || n.SearchStarted? || n.StillSearching? || n.IconGone?)
  }

  lemma {:induction false} HearQuiet(m: Mark, log: seq<Note>)
    requires forall k :: 0 <= k < |log| ==> Quiet(log[k])
    ensures Hear(m, log) == Some(m)
    decreases |log|
  {
    if log != [] {
      HearQuiet(m, log[..|log| - 1]);
    }
  }

  /** An attempt whose icon is still there logs only quiet messages. */
  lemma AttemptNotesQuiet(t: Tuning, a: Attempt, n: nat)
    requires a.recheck.Some?
    ensures forall k :: 0 <= k < |AttemptNotes(t, a, n)| ==> Quiet(AttemptNotes(t, a, n)[k])
  {
    var tail := CharacterNotes(t, a);
    assert forall k :: 0 <= k < |tail| ==> Quiet(tail[k]);
    assert AttemptNotes(t, a, n) == [AttemptStarted(n + 1)] + tail;
  }

  /** An attempt's messages only reset the status, and only when the icon vanished. */
  lemma AttemptNotesHeard(t: Tuning, a: Attempt, n: nat, m: Mark)
    ensures Hear(m, AttemptNotes(t, a, n)) == Some(if a.recheck.None? then m.(status := NoStatus) else m)
  {
    if a.recheck.None? {
      assert AttemptNotes(t, a, n) == [] + [IconGone];
      HearSnoc(m, [], IconGone);
    } else {
      AttemptNotesQuiet(t, a, n);
      HearQuiet(m, AttemptNotes(t, a, n));
    }
  }

  lemma {:induction false} AttemptStepConsistent(c: Core, t: Tuning, a: Attempt, n: nat)
    requires ValidTuning(t) && Consistent(c)
    ensures Consistent(AttemptStep(c, t, a, n))
  {
    HearConcat(Fresh, c.log, AttemptNotes(t, a, n));
    AttemptNotesHeard(t, a, n, Mark(c.lastStatus, c.searchT0));
  }

  /** What follows the character search, in the order a controller appends it. */
  lemma CharacterUnfolded(t: Tuning, icon: Seen, a: Attempt, log: seq<Note>, ops: seq<Op>)
    requires ValidTuning(t)
    ensures !Truthy(a.character) ==> log + CharacterNotes(t, a) == log + [NoCharacter] && ops + CharacterOps(t, icon, a) == ops
    ensures Truthy(a.character) && Steady(a.arrow) ==>
      var c := CharacterCenter(t, a.character.value);
      && log + CharacterNotes(t, a) == log + [CharacterAt(c)] + [ArrowSteady(a.arrow.hits, a.arrow.angle.value), Reclicking]
      && ops + CharacterOps(t, icon, a)
         == ops + [WaitArrow(c, a.arrow)] + [DragOf(t, c, a.arrow.angle.value)]
            + Clicks(ClickAt(icon, t.iconTemplate, a.draw2, t.reach, t.screen))
    ensures Truthy(a.character) && !Steady(a.arrow) ==>
      var c := CharacterCenter(t, a.character.value);
      log + CharacterNotes(t, a) == log + [CharacterAt(c)] + [NoArrow] && ops + CharacterOps(t, icon, a) == ops + [WaitArrow(c, a.arrow)]
  {
    if Truthy(a.character) {
      var c := CharacterCenter(t, a.character.value);
      if Steady(a.arrow) {
        var post := [DragOf(t, c, a.arrow.angle.value)] + Clicks(ClickAt(icon, t.iconTemplate, a.draw2, t.reach, t.screen));
        assert CharacterOps(t, icon, a) == [WaitArrow(c, a.arrow)] + post;
      } else {
        assert CharacterOps(t, icon, a) == [WaitArrow(c, a.arrow)] + [];
      }
    }
  }

  /** An attempt step in the order a controller appends its messages and actions. */
  lemma AttemptStepUnfolded(c: Core, t: Tuning, a: Attempt, n: nat)
    requires ValidTuning(t)
    ensures a.recheck.None? ==>
      AttemptStep(c, t, a, n) == Core(NoStatus, c.searchT0, c.log + [IconGone], c.ops + [CheckIcon])
    ensures a.recheck.Some? ==>
      var icon := a.recheck.value;
      AttemptStep(c, t, a, n)
        == Core(c.lastStatus, c.searchT0, c.log + [AttemptStarted(n + 1)] + CharacterNotes(t, a),
                c.ops + [CheckIcon] + Clicks(ClickAt(icon, t.iconTemplate, a.draw1, t.reach, t.screen))
                + [SearchCharacter] + CharacterOps(t, icon, a))
  {
    if a.recheck.Some? {
      var icon := a.recheck.value;
      var pre := Clicks(ClickAt(icon, t.iconTemplate, a.draw1, t.reach, t.screen));
      assert c.log + AttemptNotes(t, a, n) == c.log + [AttemptStarted(n + 1)] + CharacterNotes(t, a);
      assert c.ops + AttemptOps(t, a) == c.ops + [CheckIcon] + pre + [SearchCharacter] + CharacterOps(t, icon, a);
    }
  }

  /** A found icon is announced exactly when the status was not already "found". */
  lemma FoundStepConsistent(c: Core, loc: Point)
    requires Consistent(c)
    ensures Consistent(FoundStep(c, loc))
    ensures FoundStep(c, loc).lastStatus == Found
    ensures |FoundStep(c, loc).log| == |c.log| + (if c.lastStatus == Found then 0 else 1)
  {
    HearSnoc(Fresh, c.log, IconFound(loc));
  }

  /**
    A missed icon is announced exactly on the change to "searching"; while
    searching, a report is added exactly when more than 30 seconds have passed
    since the timer was last set, and the timer restarts then.
  */
  lemma SearchStepConsistent(c: Core, now: real)
    requires Consistent(c)
    ensures Consistent(SearchStep(c, now))
    ensures SearchStep(c, now).lastStatus == Searching
    ensures c.lastStatus == Searching ==>
      (|SearchStep(c, now).log| > |c.log| <==> now - c.searchT0 > 30.0)
  {
    HearSnoc(Fresh, c.log, SearchStarted(now));
    HearSnoc(Fresh, c.log, StillSearching(now));
  }
}
