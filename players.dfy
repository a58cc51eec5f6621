/** The player sprite: a 50 by 50 rect with a velocity and sensor fields,
    updated in place once per frame. Each method is proved to leave the
    player in the state the corresponding function of module Physics gives. */
module Players {
  import opened Geometry
  import opened Levels
  import opened Physics

  class Player {
    /** Top-left corner of the rect (rect.x, rect.y); the size is fixed. */
    var x: int
    var y: int
    /** Horizontal speed in pixels per frame. */
    var changeX: int
    /** Vertical speed in tenths of a pixel per frame. */
    var changeY: int
    /** The x the closest-block scan picked (the first entry of closest_block). */
    var closestBlock: int
    /** Per-platform cache of platform tops, allocated on the first update. */
    var blockTops: seq<int>
    var closestBlockDistance: int
    var listMade: bool
    /** The level whose platforms the player collides with. */
    const level: Level

    /** The player's state as a value. */
    function State(): PlayerState
      reads this
    {
      PlayerState(x, y, changeX, changeY, closestBlock, blockTops, closestBlockDistance, listMade)
    }

    ghost predicate Valid()
      reads this
    {
      TopsWellFormed(State(), level.platforms)
    }

    /** A new player: the rect starts at the origin (the position argument is
        stored nowhere the physics reads), at rest, with default sensors. */
    constructor (position: int, level: Level)
      ensures State() == Initial && this.level == level
      ensures Valid()
    {
      x, y := 0, 0;
      changeX, changeY := 0, 0;
      closestBlock := InitialClosestBlock;
      blockTops := [];
      closestBlockDistance := InitialClosestDistance;
      listMade := false;
      this.level := level;
    }

    /** calc_grav: gravity, then the floor clamp. */
    method CalcGrav()
      modifies this
      ensures (y, changeY) == Gravity(old(y), old(changeY))
      ensures State() == old(State()).(y := y, changeY := changeY)
    {
      if changeY == 0 {
        changeY := GravityAccel;
      } else {
        changeY := changeY + GravityAccel;
      }
      if y >= ScreenHeight - PlayerHeight && changeY >= 0 {
        changeY := 0;
        y := ScreenHeight - PlayerHeight;
      }
    }

    /** update: gravity, horizontal move, sensor refresh, horizontal hits,
        vertical move, vertical hits. */
    method Update()
      requires Valid()
      modifies this
      ensures Valid()
      ensures State() == Updated(old(State()), level.platforms)
    {
      MoveHorizontally();
      MoveVertically();
    }

    /** The first half of update, up to the horizontal hits. */
    method MoveHorizontally()
      requires Valid()
      modifies this
      ensures State() == HorizontalPhase(old(State()), level.platforms)
    {
      ghost var s0 := State();
      var ps := level.platforms;
      CalcGrav();

      // Move left/right.
      x := x + changeX;

      // Allocate the cache once, one zero per platform.
      if !listMade {
        blockTops := AppendZeros(blockTops, |ps|);
        listMade := true;
      }

      // Refresh the tops of the platforms to the right.
      if changeX != 0 || changeY != 0 {
        blockTops, closestBlockDistance := RefreshTops(ps, blockTops, closestBlockDistance, x, y + PlayerHeight);
      }

      var hits := Hits(PlayerRect(x, y), ps);
      closestBlock := ScanClosestBlock(ps, x);
      x := ResolveHorizontal(hits, x, changeX);
    }

    /** The second half of update: the vertical move and its hits. */
    method MoveVertically()
      modifies this
      ensures State() == VerticalPhase(old(State()), level.platforms)
    {
      y := MoveY(y, changeY);
      var hits := Hits(PlayerRect(x, y), level.platforms);
      y, changeY := ResolveVertical(hits, y, changeY);
    }

    /** jump: probe 2 px below the rect, restore it, and set the jump speed
        when the probe hit a platform or the player is on the floor. */
    method Jump()
      modifies this
      ensures State() == old(State()).(changeY := if CanJump(old(x), old(y), level.platforms) then JumpSpeed else old(changeY))
    {
      y := y + JumpProbe;
      var hits := Hits(PlayerRect(x, y), level.platforms);
      y := y - JumpProbe;
      if |hits| > 0 || y + PlayerHeight >= ScreenHeight {
        changeY := JumpSpeed;
      }
    }

    method Stop()
      modifies this
      ensures State() == old(State()).(changeX := StopSpeed)
    {
      changeX := StopSpeed;
    }

    /** go_left: note that the speed it sets is positive. */
    method GoLeft()
      modifies this
      ensures State() == old(State()).(changeX := LeftSpeed)
    {
      changeX := LeftSpeed;
    }

    method GoRight()
      modifies this
      ensures State() == old(State()).(changeX := RightSpeed)
    {
      changeX := RightSpeed;
    }
  }

  /** Appends one zero per platform to the cache. */
  method AppendZeros(tops: seq<int>, n: nat) returns (r: seq<int>)
    ensures r == tops + Zeros(n)
  {
    r := tops;
    var i := 0;
    while i < n
      invariant 0 <= i <= n
      invariant r == tops + Zeros(i)
    {
      r := r + [0];
      i := i + 1;
    }
  }

  /** The cache refresh loop: each platform strictly right of px stores its
      top, and the nearest-top value is recomputed after each store. */
  method RefreshTops(ps: seq<Rect>, tops: seq<int>, nearest: int, px: int, bottom: int)
    returns (tops': seq<int>, nearest': int)
    requires |tops| == |ps|
    ensures (tops', nearest') == RefreshFrom(ps, 0, tops, nearest, px, bottom)
  {
    tops', nearest' := tops, nearest;
    var i := 0;
    while i < |ps|
      invariant 0 <= i <= |ps| == |tops'|
      invariant RefreshFrom(ps, i, tops', nearest', px, bottom) == RefreshFrom(ps, 0, tops, nearest, px, bottom)
    {
      if ps[i].x > px {
        tops' := tops'[i := ps[i].Top()];
        nearest' := NearestTop(tops', bottom);
      }
      i := i + 1;
    }
  }

  /** The closest-block scan loop. */
  method ScanClosestBlock(ps: seq<Rect>, px: int) returns (best: int)
    ensures best == ClosestScan(ps, px)
  {
    best := SensorSentinel;
    var i := 0;
    while i < |ps|
      invariant 0 <= i <= |ps|
      invariant ClosestFrom(ps, i, px, best) == ClosestScan(ps, px)
    {
      if ps[i].x > px && ps[i].x - px < best {
        best := ps[i].x;
      }
      i := i + 1;
    }
  }

  /** The horizontal hit loop: each hit pushes the player out in the
      direction of travel; the last write wins. */
  method ResolveHorizontal(hits: seq<Rect>, x: int, changeX: int) returns (nx: int)
    ensures nx == ResolveX(hits, 0, x, changeX)
  {
    nx := x;
    var j := 0;
    while j < |hits|
      invariant 0 <= j <= |hits|
      invariant ResolveX(hits, j, nx, changeX) == ResolveX(hits, 0, x, changeX)
    {
      if changeX > 0 {
        nx := hits[j].Left() - PlayerWidth;
      } else if changeX < 0 {
        nx := hits[j].Right();
      }
      j := j + 1;
    }
  }

  /** The vertical hit loop: each hit pushes the player out in the direction
      of travel and zeroes the vertical speed. */
  method ResolveVertical(hits: seq<Rect>, y: int, changeY: int) returns (ny: int, ncy: int)
    ensures (ny, ncy) == ResolveY(hits, 0, y, changeY)
  {
    ny, ncy := y, changeY;
    var j := 0;
    while j < |hits|
      invariant 0 <= j <= |hits|
      invariant ResolveY(hits, j, ny, ncy) == ResolveY(hits, 0, y, changeY)
    {
      if ncy > 0 {
        ny := hits[j].Top() - PlayerHeight;
      } else if ncy < 0 {
        ny := hits[j].Bottom();
      }
      ncy := 0;
      j := j + 1;
    }
  }
}
