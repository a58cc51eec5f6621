/** The level the agents run through: a fixed list of platforms, built once
    from a table of [width, height, x, y] rows and never changed afterwards. */
module Levels {
  import opened Geometry

  /** One row of a level table: width, height, x, y (in that order). */
  datatype Row = Row(width: int, height: int, x: int, y: int)

  /** The layout of Level_01: a low block and two tall blocks, all 50 wide. */
  const Level01Table: seq<Row> := [Row(50, 100, 200, 500), Row(50, 150, 700, 450), Row(50, 150, 1100, 450)]

  /** A platform is created at the origin with the row's size and then moved
      to the row's position. */
  function PlatformOf(row: Row): (r: Rect)
    ensures r.Left() == row.x && r.Top() == row.y
    ensures r.Right() - r.Left() == row.width && r.Bottom() - r.Top() == row.height
  {
    Rect(0, 0, row.width, row.height).(x := row.x, y := row.y)
  }

  /** The platforms of Level_01, in the order the table lists them. */
  function Level01Platforms(): (ps: seq<Rect>)
    ensures |ps| == |Level01Table|
    ensures forall i :: 0 <= i < |ps| ==> ps[i] == PlatformOf(Level01Table[i])
  {
    [PlatformOf(Level01Table[0]), PlatformOf(Level01Table[1]), PlatformOf(Level01Table[2])]
  }

  /** Level_01 written out as rectangles (x, y, w, h). */
  lemma Level01Rects()
    ensures Level01Platforms() == [Rect(200, 500, 50, 100), Rect(700, 450, 50, 150), Rect(1100, 450, 50, 150)]
  {
  }

  /** A level owns its platform list; nothing changes it after construction. */
  class Level {
    const platforms: seq<Rect>

    /** Builds Level_01 by appending one platform per table row. */
    constructor Level01()
      ensures platforms == Level01Platforms()
    {
      var ps: seq<Rect> := [];
      for i := 0 to |Level01Table|
        invariant |ps| == i
        invariant forall k :: 0 <= k < i ==> ps[k] == PlatformOf(Level01Table[k])
      {
        ps := ps + [PlatformOf(Level01Table[i])];
      }
      platforms := ps;
    }
  }
}
