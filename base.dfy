/** Value types shared by every part of the detection engine. */
module Base {

  /** Python's `None`-or-value, as the detectors return it. */
  datatype Option<+T> = None | Some(value: T)

  /** An integer pixel position on the screen (or inside a captured region). */
  datatype Point = Point(x: int, y: int)

  /** A sub-pixel position: image centres, click points and drag origins before rounding. */
  datatype RPoint = RPoint(x: real, y: real)

  /** A width and a height in pixels (screen size, template size, screenshot size). */
  datatype Size = Size(w: int, h: int)

  /** A capture rectangle (x, y, w, h) in screen pixels. */
  datatype Region = Region(x: int, y: int, w: int, h: int)
  {
    function Origin(): Point { Point(x, y) }
    function Dims(): Size { Size(w, h) }
  }

  /** A screen `pyautogui.size()` can report: both dimensions at least one pixel. */
  predicate ValidScreen(screen: Size) {
    screen.w >= 1 && screen.h >= 1
  }

  function Translate(p: Point, origin: Point): Point {
    Point(p.x + origin.x, p.y + origin.y)
  }
}
