/**
  Integer conversions and on-screen clamps: `clamp_region_to_screen`, the clamped
  click point of `click_center` and the clamped drag target of the drag helpers.
  The screen size that the source reads from `pyautogui.size()` is a parameter.
*/
module Geometry {
  import opened Base

  function Min(a: real, b: real): real { if a <= b then a else b }
  function Max(a: real, b: real): real { if a >= b then a else b }

  /** Python `int(r)` on a float: truncation toward zero. */
  function Trunc(r: real): (n: int)
    ensures 0.0 <= r ==> n as real <= r < n as real + 1.0
    ensures r < 0.0 ==> n as real - 1.0 < r <= n as real
  {
    if r >= 0.0 then r.Floor else -((-r).Floor)
  }

  /** Python `round(r)`: to the nearest integer, ties to the even neighbour. */
  function Round(r: real): (n: int)
    ensures n as real - 0.5 <= r <= n as real + 0.5
    ensures r - r.Floor as real == 0.5 ==> n % 2 == 0
  {
    var f := r.Floor;
    var frac := r - f as real;
    if frac < 0.5 then f
    else if frac > 0.5 then f + 1
    else if f % 2 == 0 then f
    else f + 1
  }

  /** Rounding never leaves an interval whose ends are integers, and keeps integers. */
  lemma RoundWithin(r: real, lo: int, hi: int)
    requires lo as real <= r <= hi as real
    ensures lo <= Round(r) <= hi
  {
  }

  lemma RoundOfInteger(k: int)
    ensures Round(k as real) == k
  {
  }

  /** Python's float `a % 360`: the floor remainder, which is never negative. */
  function Mod360(a: real): (r: real)
    ensures 0.0 <= r < 360.0
    ensures 0.0 <= a < 360.0 ==> r == a
  {
    a - 360.0 * (a / 360.0).Floor as real
  }

  /** Angles that differ by whole turns have the same remainder. */
  lemma {:induction false} Mod360Periodic(a: real, k: int)
    ensures Mod360(a + 360.0 * k as real) == Mod360(a)
  {
    var q := (a / 360.0).Floor;
    assert (a + 360.0 * k as real) / 360.0 == a / 360.0 + k as real;
    assert ((a + 360.0 * k as real) / 360.0).Floor == q + k;
  }

  /** `max(lo, min(v, hi))`, the clamp every on-screen coordinate goes through. */
  function Clamp(v: real, lo: real, hi: real): (r: real)
    requires lo <= hi
    ensures lo <= r <= hi
    ensures lo <= v <= hi ==> r == v
    ensures v < lo ==> r == lo
    ensures hi < v ==> r == hi
  {
    Max(lo, Min(v, hi))
  }

  /** Clamping toward an interval never moves a value away from any point inside it. */
  lemma ClampContracts(u: real, v: real, lo: real, hi: real)
    requires lo <= v <= hi
    ensures var d := Clamp(u, lo, hi) - v; var e := u - v;
      (if d < 0.0 then -d else d) <= (if e < 0.0 then -e else e)
  {
  }

  /** Whether an integer rectangle lies inside the screen with a positive size. */
  predicate OnScreen(r: Region, screen: Size) {
    && 0 <= r.x <= screen.w - 1 && 0 <= r.y <= screen.h - 1
    && 1 <= r.w && r.x + r.w <= screen.w
    && 1 <= r.h && r.y + r.h <= screen.h
  }

  /**
    `clamp_region_to_screen(x, y, w, h)`: the origin is clamped into the screen and
    rounded, then the size is clamped to at least one pixel and to what is left of
    the screen after the rounded origin, and rounded.
  */
  function ClampRegion(screen: Size, x: real, y: real, w: real, h: real): (r: Region)
    requires ValidScreen(screen)
    ensures OnScreen(r, screen)
  {
    var cx := Round(Clamp(x, 0.0, (screen.w - 1) as real));
    RoundWithin(Clamp(x, 0.0, (screen.w - 1) as real), 0, screen.w - 1);
    var cy := Round(Clamp(y, 0.0, (screen.h - 1) as real));
    RoundWithin(Clamp(y, 0.0, (screen.h - 1) as real), 0, screen.h - 1);
    var cw := Round(Clamp(w, 1.0, (screen.w - cx) as real));
    RoundWithin(Clamp(w, 1.0, (screen.w - cx) as real), 1, screen.w - cx);
    var ch := Round(Clamp(h, 1.0, (screen.h - cy) as real));
    RoundWithin(Clamp(h, 1.0, (screen.h - cy) as real), 1, screen.h - cy);
    Region(cx, cy, cw, ch)
  }

  /** A request that is already an on-screen integer rectangle comes back unchanged. */
  lemma {:induction false} ClampRegionKeepsOnScreen(screen: Size, r: Region)
    requires ValidScreen(screen) && OnScreen(r, screen)
    ensures ClampRegion(screen, r.x as real, r.y as real, r.w as real, r.h as real) == r
  {
    RoundOfInteger(r.x);
    RoundOfInteger(r.y);
    RoundOfInteger(r.w);
    RoundOfInteger(r.h);
  }

  /** Clamping is idempotent. */
  lemma {:induction false} ClampRegionIdempotent(screen: Size, x: real, y: real, w: real, h: real)
    requires ValidScreen(screen)
    ensures var r := ClampRegion(screen, x, y, w, h);
      ClampRegion(screen, r.x as real, r.y as real, r.w as real, r.h as real) == r
  {
    ClampRegionKeepsOnScreen(screen, ClampRegion(screen, x, y, w, h));
  }

  /** `get_center_position`: the top-left corner plus half the scaled template. */
  function CenterOf(loc: Point, scale: real, template: Size): RPoint {
    RPoint(loc.x as real + (template.w as real * scale) / 2.0,
           loc.y as real + (template.h as real * scale) / 2.0)
  }

  /** The centre lies inside the scaled template box placed at the location. */
  lemma CenterInsideBox(loc: Point, scale: real, template: Size)
    requires 0.0 <= scale && 0 <= template.w && 0 <= template.h
    ensures var c := CenterOf(loc, scale, template);
      && loc.x as real <= c.x <= loc.x as real + template.w as real * scale
      && loc.y as real <= c.y <= loc.y as real + template.h as real * scale
  {
    assert 0.0 <= template.w as real * scale;
    assert 0.0 <= template.h as real * scale;
  }

  /** The click position of `click_center`: centre plus offset, clamped into the screen. */
  function ClickPoint(center: RPoint, offset: Point, screen: Size): (p: RPoint)
    requires ValidScreen(screen)
    ensures 0.0 <= p.x <= (screen.w - 1) as real && 0.0 <= p.y <= (screen.h - 1) as real
  {
    RPoint(Clamp(center.x + offset.x as real, 0.0, (screen.w - 1) as real),
           Clamp(center.y + offset.y as real, 0.0, (screen.h - 1) as real))
  }

  /** When the centre is on screen, the click stays within `reach` pixels of it on each axis. */
  lemma {:induction false} ClickNearCenter(center: RPoint, offset: Point, screen: Size, reach: int)
    requires ValidScreen(screen)
    requires 0.0 <= center.x <= (screen.w - 1) as real && 0.0 <= center.y <= (screen.h - 1) as real
    requires -reach <= offset.x <= reach && -reach <= offset.y <= reach
    ensures var p := ClickPoint(center, offset, screen);
      && center.x - reach as real <= p.x <= center.x + reach as real
      && center.y - reach as real <= p.y <= center.y + reach as real
  {
    ClampContracts(center.x + offset.x as real, center.x, 0.0, (screen.w - 1) as real);
    ClampContracts(center.y + offset.y as real, center.y, 0.0, (screen.h - 1) as real);
  }

  /** The rounded press position of a drag. */
  function DragStart(center: RPoint): Point {
    Point(Round(center.x), Round(center.y))
  }

  /**
    The release position of a drag: centre plus the (trigonometric) offset, clamped
    into the screen and then rounded.
  */
  function DragTarget(center: RPoint, delta: RPoint, screen: Size): (t: Point)
    requires ValidScreen(screen)
    ensures 0 <= t.x <= screen.w - 1 && 0 <= t.y <= screen.h - 1
    ensures 0.0 <= center.x + delta.x <= (screen.w - 1) as real ==> t.x == Round(center.x + delta.x)
    ensures 0.0 <= center.y + delta.y <= (screen.h - 1) as real ==> t.y == Round(center.y + delta.y)
  {
    var tx := Clamp(center.x + delta.x, 0.0, (screen.w - 1) as real);
    var ty := Clamp(center.y + delta.y, 0.0, (screen.h - 1) as real);
    RoundWithin(tx, 0, screen.w - 1);
    RoundWithin(ty, 0, screen.h - 1);
    Point(Round(tx), Round(ty))
  }
}
