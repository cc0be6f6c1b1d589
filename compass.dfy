/**
  `get_direction_from_angle`: the eight-way compass label of a bearing measured
  clockwise from straight up, in degrees.
*/
module Compass {
  import opened Geometry

  datatype Direction = Up | UpRight | Right | DownRight | Down | DownLeft | Left | UpLeft | Unknown

  /** The label the program prints for each direction. */
  function Label(d: Direction): string {
    match d
    case Up => "正上方"
    case UpRight => "右上"
    case Right => "正右方"
    case DownRight => "右下"
    case Down => "正下方"
    case DownLeft => "左下"
    case Left => "正左方"
    case UpLeft => "左上"
    case Unknown => "未知方向"
  }

  /**
    `angle = (angle + 360) % 360`, then a chain of sector tests: straight up takes
    [337.5, 360] and [0, 22.5]; every other sector is open below and closed above.
  */
  function DirectionFromAngle(angle: real): (d: Direction)
    ensures d != Unknown
  {
    var a := Mod360(angle + 360.0);
    if (337.5 <= a <= 360.0) || (0.0 <= a <= 22.5) then Up
    else if 22.5 < a <= 67.5 then UpRight
    else if 67.5 < a <= 112.5 then Right
    else if 112.5 < a <= 157.5 then DownRight
    else if 157.5 < a <= 202.5 then Down
    else if 202.5 < a <= 247.5 then DownLeft
    else if 247.5 < a <= 292.5 then Left
    else if 292.5 < a <= 337.5 then UpLeft
    else Unknown
  }

  /** The compass points clockwise from straight up, 45 degrees apart. */
  const Points: seq<Direction> := [Up, UpRight, Right, DownRight, Down, DownLeft, Left, UpLeft]

  /** The smallest integer not below `x`. */
  function Ceil(x: real): int {
    -((-x).Floor)
  }

  /**
    An independent sector index for a normalised angle: 0 near straight up,
    otherwise the number of 45-degree steps past 22.5, rounded up.
  */
  function Sector(a: real): (k: int)
    requires 0.0 <= a < 360.0
    ensures 0 <= k < 8
  {
    if a <= 22.5 || 337.5 <= a then 0 else Ceil((a - 22.5) / 45.0)
  }

  /** The sector chain and the sector index agree on every angle. */
  lemma DirectionIsSector(angle: real)
    ensures DirectionFromAngle(angle) == Points[Sector(Mod360(angle + 360.0))]
  {
    var a := Mod360(angle + 360.0);
    if 22.5 < a < 337.5 {
      var q := (a - 22.5) / 45.0;
      var k := Sector(a);
      assert (k - 1) as real < q <= k as real;
      assert 22.5 + 45.0 * (k - 1) as real < a <= 22.5 + 45.0 * k as real;
    }
  }

  /**
    The label is the compass point nearest the angle: its heading, a multiple of
    45 degrees, is at most 22.5 degrees away from the normalised angle, going
    round through 360 for straight up.
  */
  lemma {:induction false} DirectionIsNearest(angle: real)
    ensures var a := Mod360(angle + 360.0);
      var k := Sector(a);
      DirectionFromAngle(angle) == Points[k]
      && ((-22.5 <= a - 45.0 * k as real <= 22.5) || (k == 0 && 337.5 <= a))
  {
    DirectionIsSector(angle);
    var a := Mod360(angle + 360.0);
    if 22.5 < a < 337.5 {
      var k := Sector(a);
      assert (k - 1) as real < (a - 22.5) / 45.0 <= k as real;
    }
  }

  /** Whole turns do not change the label. */
  lemma {:induction false} DirectionPeriodic(angle: real, turns: int)
    ensures DirectionFromAngle(angle + 360.0 * turns as real) == DirectionFromAngle(angle)
  {
    Mod360Periodic(angle + 360.0, turns);
    assert angle + 360.0 * turns as real + 360.0 == angle + 360.0 + 360.0 * turns as real;
  }

  /** The boundaries: 22.5 and 337.5 are straight up; 67.5 and 112.5 close their sectors. */
  lemma SectorBoundaries()
    ensures DirectionFromAngle(22.5) == Up && DirectionFromAngle(337.5) == Up
    ensures DirectionFromAngle(67.5) == UpRight && DirectionFromAngle(112.5) == Right
    ensures DirectionFromAngle(360.0) == Up && DirectionFromAngle(-90.0) == Left
  {
    assert Mod360(22.5 + 360.0) == 22.5 by { Mod360Periodic(22.5, 1); }
    assert Mod360(337.5 + 360.0) == 337.5 by { Mod360Periodic(337.5, 1); }
    assert Mod360(67.5 + 360.0) == 67.5 by { Mod360Periodic(67.5, 1); }
    assert Mod360(112.5 + 360.0) == 112.5 by { Mod360Periodic(112.5, 1); }
    assert Mod360(360.0 + 360.0) == 0.0 by { Mod360Periodic(0.0, 2); }
  }
}
