/** One frame of a player's motion, as pure functions of the player's state
    and the level's platforms. The Player class (module Players) performs the
    same steps in place; its methods are proved equal to these functions, and
    the lemmas here state what one frame guarantees.

    Units: positions and the horizontal velocity are whole pixels, as in the
    program; the vertical velocity is kept in TENTHS of a pixel per frame so
    that the fractional gravity (0.4 px per frame) is exact. */
module Physics {
  import opened Geometry

  const ScreenWidth := 1200
  const ScreenHeight := 600
  const PlayerWidth := 50
  const PlayerHeight := 50
  /** The y of a player standing on the floor of the screen. */
  const FloorY := ScreenHeight - PlayerHeight
  /** Gravity per frame, in tenths of a pixel (0.4 px). */
  const GravityAccel := 4
  /** Jump velocity, in tenths of a pixel (-10 px). */
  const JumpSpeed := -100
  /** How far below the player the jump probe looks, in pixels. */
  const JumpProbe := 2
  /** Horizontal speeds set by stop, go_left and go_right, in pixels. */
  const StopSpeed := 0
  const LeftSpeed := 5
  const RightSpeed := 10
  /** Value of the closest-block sensor when no platform lies to the right. */
  const SensorSentinel := 1500
  /** Initial values of the sensor fields of a new player. */
  const InitialClosestBlock := 9990
  const InitialClosestDistance := 1500

  /** Everything a player carries from one frame to the next.
      changeY is in tenths of a pixel; closestBlock is the x of the platform
      the sensor scan picked; blockTops and listMade are the lazily allocated
      per-platform cache of platform tops. */
  datatype PlayerState = PlayerState(
    x: int, y: int,
    changeX: int, changeY: int,
    closestBlock: int,
    blockTops: seq<int>, closestBlockDistance: int, listMade: bool)

  /** A freshly constructed player: rect at the origin, at rest, sensors at their defaults. */
  const Initial := PlayerState(0, 0, 0, 0, InitialClosestBlock, [], InitialClosestDistance, false)

  /** The 50 by 50 rect of a player whose top-left corner is (x, y). */
  function PlayerRect(x: int, y: int): Rect {
    Rect(x, y, PlayerWidth, PlayerHeight)
  }

  /** The cache is either not yet allocated (and empty) or holds one entry per platform. */
  predicate TopsWellFormed(s: PlayerState, ps: seq<Rect>) {
    (s.listMade ==> |s.blockTops| == |ps|) && (!s.listMade ==> s.blockTops == [])
  }

  // ---------------------------------------------------------------- gravity

  /** calc_grav: add 0.4 px of downward speed, then snap to the floor when the
      player is at or below it and not moving up. Returns (y, changeY). */
  function Gravity(y: int, changeY: int): (r: (int, int))
    ensures r.1 == changeY + GravityAccel || r == (FloorY, 0)
    ensures r.0 == y || r.0 == FloorY
    ensures r.0 >= FloorY && r.1 >= 0 ==> r == (FloorY, 0)
    ensures y < FloorY ==> r == (y, changeY + GravityAccel)
    ensures changeY + GravityAccel < 0 ==> r == (y, changeY + GravityAccel)
  {
    var cy := if changeY == 0 then GravityAccel else changeY + GravityAccel;
    if y >= ScreenHeight - PlayerHeight && cy >= 0 then (ScreenHeight - PlayerHeight, 0) else (y, cy)
  }

  // ------------------------------------------------------------ integration

  /** Truncation toward zero of v / 10 (the conversion of a fractional pixel
      position to the integer rect). */
  function TruncTenths(v: int): (r: int)
    ensures v >= 0 ==> 0 <= 10 * r <= v < 10 * r + 10
    ensures v < 0 ==> 10 * r - 10 < v <= 10 * r <= 0
  {
    if v >= 0 then v / 10 else -((-v) / 10)
  }

  /** rect.y += change_y: the sum is fractional and is truncated toward zero. */
  function MoveY(y: int, changeY: int): int {
    TruncTenths(10 * y + changeY)
  }

  // --------------------------------------------------- horizontal resolution

  /** Resolving one horizontal hit: moving right puts the player's right edge
      on the platform's left edge, moving left puts its left edge on the
      platform's right edge. */
  function PushOutX(b: Rect, x: int, changeX: int): int {
    if changeX > 0 then b.Left() - PlayerWidth
    else if changeX < 0 then b.Right()
    else x
  }

  /** Resolving the hits hits[i..] one after another, in list order. */
  function ResolveX(hits: seq<Rect>, i: nat, x: int, changeX: int): int
    requires i <= |hits|
    decreases |hits| - i
  {
    if i == |hits| then x
    else ResolveX(hits, i + 1, PushOutX(hits[i], x, changeX), changeX)
  }

  lemma {:induction false} ResolveXFrom(hits: seq<Rect>, i: nat, x: int, changeX: int)
    requires i <= |hits|
    ensures i == |hits| || changeX == 0 ==> ResolveX(hits, i, x, changeX) == x
    ensures i < |hits| && changeX > 0 ==> ResolveX(hits, i, x, changeX) + PlayerWidth == hits[|hits| - 1].Left()
    ensures i < |hits| && changeX < 0 ==> ResolveX(hits, i, x, changeX) == hits[|hits| - 1].Right()
    decreases |hits| - i
  {
    if i < |hits| {
      ResolveXFrom(hits, i + 1, PushOutX(hits[i], x, changeX), changeX);
    }
  }

  /** Horizontal resolution: the last hit in list order wins; a player that is
      not moving sideways is never pushed. */
  lemma HorizontalResolution(hits: seq<Rect>, x: int, changeX: int)
    ensures hits == [] || changeX == 0 ==> ResolveX(hits, 0, x, changeX) == x
    ensures hits != [] && changeX > 0 ==> ResolveX(hits, 0, x, changeX) + PlayerWidth == hits[|hits| - 1].Left()
    ensures hits != [] && changeX < 0 ==> ResolveX(hits, 0, x, changeX) == hits[|hits| - 1].Right()
  {
    ResolveXFrom(hits, 0, x, changeX);
  }

  // ----------------------------------------------------- vertical resolution

  /** Resolving one vertical hit: falling puts the player's bottom on the
      platform's top, rising puts its top on the platform's bottom; in every
      case the vertical speed is zeroed. Returns (y, changeY). */
  function PushOutY(b: Rect, y: int, changeY: int): (int, int) {
    (if changeY > 0 then b.Top() - PlayerHeight
     else if changeY < 0 then b.Bottom()
     else y,
     0)
  }

  /** Resolving the hits hits[i..] one after another, in list order. */
  function ResolveY(hits: seq<Rect>, i: nat, y: int, changeY: int): (int, int)
    requires i <= |hits|
    decreases |hits| - i
  {
    if i == |hits| then (y, changeY)
    else
      var next := PushOutY(hits[i], y, changeY);
      ResolveY(hits, i + 1, next.0, next.1)
  }

  /** Once the vertical speed is zero, further hits move nothing. */
  lemma {:induction false} ResolveYAtRest(hits: seq<Rect>, i: nat, y: int)
    requires i <= |hits|
    ensures ResolveY(hits, i, y, 0) == (y, 0)
    decreases |hits| - i
  {
    if i < |hits| {
      ResolveYAtRest(hits, i + 1, y);
    }
  }

  /** Vertical resolution: only the first hit moves the player, because it
      zeroes the vertical speed; after any hit the player is at rest. */
  lemma VerticalResolution(hits: seq<Rect>, y: int, changeY: int)
    ensures hits == [] ==> ResolveY(hits, 0, y, changeY) == (y, changeY)
    ensures hits != [] ==> ResolveY(hits, 0, y, changeY).1 == 0
    ensures hits != [] && changeY > 0 ==> ResolveY(hits, 0, y, changeY).0 + PlayerHeight == hits[0].Top()
    ensures hits != [] && changeY < 0 ==> ResolveY(hits, 0, y, changeY).0 == hits[0].Bottom()
    ensures hits != [] && changeY == 0 ==> ResolveY(hits, 0, y, changeY).0 == y
  {
    if hits != [] {
      var next := PushOutY(hits[0], y, changeY);
      ResolveYAtRest(hits, 1, next.0);
    }
  }

  // ------------------------------------------------------ closest-block scan

  /** The closest-block scan over ps[i..]: a platform strictly to the right
      replaces `best` when its DISTANCE is below `best`, although `best` holds
      an absolute x once it has been replaced. */
  function ClosestFrom(ps: seq<Rect>, i: nat, px: int, best: int): int
    requires i <= |ps|
    decreases |ps| - i
  {
    if i == |ps| then best
    else ClosestFrom(ps, i + 1, px, if ps[i].x > px && ps[i].x - px < best then ps[i].x else best)
  }

  /** The sensor value closest_block[0] for a player at x = px. */
  function ClosestScan(ps: seq<Rect>, px: int): int {
    ClosestFrom(ps, 0, px, SensorSentinel)
  }

  lemma {:induction false} ClosestFromCases(ps: seq<Rect>, i: nat, px: int, best: int)
    requires i <= |ps|
    ensures var r := ClosestFrom(ps, i, px, best);
      r == best || exists j :: i <= j < |ps| && px < ps[j].x && r == ps[j].x
    ensures (forall k :: i <= k < |ps| ==> ps[k].x <= px) ==> ClosestFrom(ps, i, px, best) == best
    ensures (exists k :: i <= k < |ps| && px < ps[k].x && ps[k].x - px < best) ==>
      exists j :: i <= j < |ps| && px < ps[j].x && ClosestFrom(ps, i, px, best) == ps[j].x
    decreases |ps| - i
  {
    if i < |ps| {
      var best' := if ps[i].x > px && ps[i].x - px < best then ps[i].x else best;
      ClosestFromCases(ps, i + 1, px, best');
    }
  }

  /** The closest-block sensor: the sentinel 1500 when nothing lies to the
      right, otherwise the sentinel or the x of some platform strictly to the
      right, and certainly a platform's x when one lies less than 1500 px to
      the right. */
  lemma ClosestBlockScan(ps: seq<Rect>, px: int)
    ensures (forall k :: 0 <= k < |ps| ==> ps[k].x <= px) ==> ClosestScan(ps, px) == SensorSentinel
    ensures ClosestScan(ps, px) == SensorSentinel ||
      exists j :: 0 <= j < |ps| && px < ps[j].x && ClosestScan(ps, px) == ps[j].x
    ensures (exists k :: 0 <= k < |ps| && px < ps[k].x < px + SensorSentinel) ==>
      exists j :: 0 <= j < |ps| && px < ps[j].x && ClosestScan(ps, px) == ps[j].x
  {
    ClosestFromCases(ps, 0, px, SensorSentinel);
  }

  // ------------------------------------------------------- block-tops cache

  /** Distance between a platform top and the player's bottom. */
  function Dist(t: int, bottom: int): nat {
    if t >= bottom then t - bottom else bottom - t
  }

  /** The entry of `tops` nearest to `bottom`; among equally near entries the
      first one, as a minimum with a key function picks it. */
  function NearestTop(tops: seq<int>, bottom: int): (r: int)
    requires tops != []
    ensures r in tops
    ensures forall t :: t in tops ==> Dist(r, bottom) <= Dist(t, bottom)
  {
    if |tops| == 1 then tops[0]
    else
      var prefix := tops[..|tops| - 1];
      var m := NearestTop(prefix, bottom);
      var t := tops[|tops| - 1];
      assert tops == prefix + [t];
      if Dist(t, bottom) < Dist(m, bottom) then t else m
  }

  /** Ties go to the earliest entry: every entry before the chosen one is
      strictly farther from `bottom`. */
  lemma {:induction false} NearestTopIsFirst(tops: seq<int>, bottom: int)
    requires tops != []
    ensures exists k :: (0 <= k < |tops| && tops[k] == NearestTop(tops, bottom) &&
                         forall j :: 0 <= j < k ==> Dist(NearestTop(tops, bottom), bottom) < Dist(tops[j], bottom))
  {
    var r := NearestTop(tops, bottom);
    if |tops| == 1 {
      assert tops[0] == r;
    } else {
      var prefix := tops[..|tops| - 1];
      NearestTopIsFirst(prefix, bottom);
      var m := NearestTop(prefix, bottom);
      var k :| 0 <= k < |prefix| && prefix[k] == m && forall j :: 0 <= j < k ==> Dist(m, bottom) < Dist(prefix[j], bottom);
      var t := tops[|tops| - 1];
      if Dist(t, bottom) < Dist(m, bottom) {
        assert r == t;
        forall j | 0 <= j < |tops| - 1 ensures Dist(r, bottom) < Dist(tops[j], bottom) {
          assert tops[j] == prefix[j];
          assert prefix[j] in prefix;
        }
        assert tops[|tops| - 1] == r;
      } else {
        assert r == m;
        forall j | 0 <= j < k ensures Dist(r, bottom) < Dist(tops[j], bottom) {
          assert tops[j] == prefix[j];
        }
        assert tops[k] == r;
      }
    }
  }

  /** The cache refresh over platforms ps[i..]: every platform strictly right of
      the player stores its top, and after each such store the nearest-top
      field is recomputed over the whole cache. Returns (tops, nearest). */
  function RefreshFrom(ps: seq<Rect>, i: nat, tops: seq<int>, nearest: int, px: int, bottom: int): (r: (seq<int>, int))
    requires i <= |ps| == |tops|
    ensures |r.0| == |tops|
    decreases |ps| - i
  {
    if i == |ps| then (tops, nearest)
    else if ps[i].x > px then
      var t := tops[i := ps[i].Top()];
      RefreshFrom(ps, i + 1, t, NearestTop(t, bottom), px, bottom)
    else RefreshFrom(ps, i + 1, tops, nearest, px, bottom)
  }

  lemma {:induction false} RefreshFromTops(ps: seq<Rect>, i: nat, tops: seq<int>, nearest: int, px: int, bottom: int)
    requires i <= |ps| == |tops|
    ensures var r := RefreshFrom(ps, i, tops, nearest, px, bottom).0;
      && (forall k :: 0 <= k < i ==> r[k] == tops[k])
      && (forall k :: i <= k < |ps| ==> r[k] == if ps[k].x > px then ps[k].Top() else tops[k])
    decreases |ps| - i
  {
    if i < |ps| {
      if ps[i].x > px {
        var t := tops[i := ps[i].Top()];
        RefreshFromTops(ps, i + 1, t, NearestTop(t, bottom), px, bottom);
      } else {
        RefreshFromTops(ps, i + 1, tops, nearest, px, bottom);
      }
    }
  }

  lemma {:induction false} RefreshFromNearest(ps: seq<Rect>, i: nat, tops: seq<int>, nearest: int, px: int, bottom: int)
    requires i <= |ps| == |tops|
    ensures var r := RefreshFrom(ps, i, tops, nearest, px, bottom);
      && ((exists k :: i <= k < |ps| && ps[k].x > px) ==> r.0 != [] && r.1 == NearestTop(r.0, bottom))
      && ((forall k :: i <= k < |ps| ==> ps[k].x <= px) ==> r == (tops, nearest))
    decreases |ps| - i
  {
    if i < |ps| {
      if ps[i].x > px {
        var t := tops[i := ps[i].Top()];
        var n := NearestTop(t, bottom);
        RefreshFromNearest(ps, i + 1, t, n, px, bottom);
        var r := RefreshFrom(ps, i + 1, t, n, px, bottom);
        assert RefreshFrom(ps, i, tops, nearest, px, bottom) == r;
        if forall k :: i + 1 <= k < |ps| ==> ps[k].x <= px {
          assert r == (t, n);
        }
      } else {
        RefreshFromNearest(ps, i + 1, tops, nearest, px, bottom);
        if exists k :: i <= k < |ps| && ps[k].x > px {
          var k :| i <= k < |ps| && ps[k].x > px;
          assert k != i;
        }
      }
    }
  }

  /** The block-tops cache after a refresh: exactly the entries of platforms
      right of the player hold their tops, the others are unchanged, and the
      nearest-top field is the cache entry nearest the player's bottom, or
      unchanged when no platform lies to the right. */
  lemma BlockTopsRefresh(ps: seq<Rect>, tops: seq<int>, nearest: int, px: int, bottom: int)
    requires |ps| == |tops|
    ensures var r := RefreshFrom(ps, 0, tops, nearest, px, bottom);
      && |r.0| == |ps|
      && (forall k :: 0 <= k < |ps| ==> r.0[k] == if ps[k].x > px then ps[k].Top() else tops[k])
      && ((exists k :: 0 <= k < |ps| && ps[k].x > px) ==>
            r.0 != [] && r.1 == NearestTop(r.0, bottom) &&
            r.1 in r.0 && forall t :: t in r.0 ==> Dist(r.1, bottom) <= Dist(t, bottom))
      && ((forall k :: 0 <= k < |ps| ==> ps[k].x <= px) ==> r == (tops, nearest))
  {
    RefreshFromTops(ps, 0, tops, nearest, px, bottom);
    RefreshFromNearest(ps, 0, tops, nearest, px, bottom);
  }

  /** One zero per platform: the freshly allocated cache. */
  function Zeros(n: nat): (r: seq<int>)
    ensures |r| == n && forall k :: 0 <= k < n ==> r[k] == 0
  {
    if n == 0 then [] else Zeros(n - 1) + [0]
  }

  // -------------------------------------------------------------- one frame

  /** The first half of update: gravity, the horizontal move, the cache
      allocation and refresh, the closest-block scan and the horizontal hits. */
  function HorizontalPhase(s: PlayerState, ps: seq<Rect>): (r: PlayerState)
    requires TopsWellFormed(s, ps)
    ensures r.listMade && |r.blockTops| == |ps|
    ensures r.changeX == s.changeX
    ensures (r.y, r.changeY) == Gravity(s.y, s.changeY)
  {
    var g := Gravity(s.y, s.changeY);
    var x1 := s.x + s.changeX;
    var tops := if s.listMade then s.blockTops else s.blockTops + Zeros(|ps|);
    var cache := if s.changeX != 0 || g.1 != 0 then RefreshFrom(ps, 0, tops, s.closestBlockDistance, x1, g.0 + PlayerHeight)
                 else (tops, s.closestBlockDistance);
    var hits := Hits(PlayerRect(x1, g.0), ps);
    PlayerState(ResolveX(hits, 0, x1, s.changeX), g.0, s.changeX, g.1, ClosestScan(ps, x1), cache.0, cache.1, true)
  }

  /** The second half of update: the vertical move and the vertical hits. */
  function VerticalPhase(s: PlayerState, ps: seq<Rect>): PlayerState {
    var y1 := MoveY(s.y, s.changeY);
    var v := ResolveY(Hits(PlayerRect(s.x, y1), ps), 0, y1, s.changeY);
    s.(y := v.0, changeY := v.1)
  }

  /** Player.update: one frame of motion against the platforms `ps`. */
  function Updated(s: PlayerState, ps: seq<Rect>): (r: PlayerState)
    requires TopsWellFormed(s, ps)
    ensures TopsWellFormed(r, ps) && r.listMade
    ensures r.changeX == s.changeX
    ensures s.listMade ==> |r.blockTops| == |s.blockTops|
  {
    VerticalPhase(HorizontalPhase(s, ps), ps)
  }

  /** What update does horizontally: a player with no sideways speed keeps its
      x; otherwise it moves by its speed and, if the moved rect hits
      platforms, ends flush against the last of them in list order. */
  lemma UpdateHorizontal(s: PlayerState, ps: seq<Rect>)
    requires TopsWellFormed(s, ps)
    ensures var g := Gravity(s.y, s.changeY);
      var hits := Hits(PlayerRect(s.x + s.changeX, g.0), ps);
      && (s.changeX == 0 ==> Updated(s, ps).x == s.x)
      && (hits == [] ==> Updated(s, ps).x == s.x + s.changeX)
      && (s.changeX > 0 && hits != [] ==> Updated(s, ps).x + PlayerWidth == hits[|hits| - 1].Left())
      && (s.changeX < 0 && hits != [] ==> Updated(s, ps).x == hits[|hits| - 1].Right())
  {
    var g := Gravity(s.y, s.changeY);
    HorizontalResolution(Hits(PlayerRect(s.x + s.changeX, g.0), ps), s.x + s.changeX, s.changeX);
  }

  /** What update does vertically, after the horizontal phase: if the rect
      moved by the vertical speed hits platforms, the player stops (speed 0)
      flush against the first of them; otherwise it keeps the moved y and
      its speed. */
  lemma UpdateVertical(s: PlayerState, ps: seq<Rect>)
    requires TopsWellFormed(s, ps)
    ensures var m := HorizontalPhase(s, ps);
      var y1 := MoveY(m.y, m.changeY);
      var hits := Hits(PlayerRect(m.x, y1), ps);
      && Updated(s, ps).x == m.x
      && (hits != [] ==> Updated(s, ps).changeY == 0)
      && (hits != [] && m.changeY > 0 ==> Updated(s, ps).y + PlayerHeight == hits[0].Top())
      && (hits != [] && m.changeY < 0 ==> Updated(s, ps).y == hits[0].Bottom())
      && (hits == [] ==> Updated(s, ps).y == y1 && Updated(s, ps).changeY == m.changeY)
  {
    var m := HorizontalPhase(s, ps);
    var y1 := MoveY(m.y, m.changeY);
    VerticalResolution(Hits(PlayerRect(m.x, y1), ps), y1, m.changeY);
  }

  /** Gravity accumulates from frame to frame: a player above the floor whose
      vertically moved rect touches no platform ends the frame 0.4 px per
      frame faster downward, at the moved y. */
  lemma FallingAccelerates(s: PlayerState, ps: seq<Rect>)
    requires TopsWellFormed(s, ps)
    requires s.y < FloorY
    requires forall k :: 0 <= k < |ps| ==>
      !Overlaps(PlayerRect(HorizontalPhase(s, ps).x, MoveY(s.y, s.changeY + GravityAccel)), ps[k])
    ensures Updated(s, ps).changeY == s.changeY + GravityAccel
    ensures Updated(s, ps).y == MoveY(s.y, s.changeY + GravityAccel)
  {
    var m := HorizontalPhase(s, ps);
    HitsEmptyIff(PlayerRect(m.x, MoveY(m.y, m.changeY)), ps);
    UpdateVertical(s, ps);
  }

  /** A player standing on the floor at rest, whose moved rect touches no
      platform, stays on the floor at rest. */
  lemma RestingOnFloor(s: PlayerState, ps: seq<Rect>)
    requires TopsWellFormed(s, ps)
    requires s.y == FloorY && s.changeY == 0
    requires forall k :: 0 <= k < |ps| ==> !Overlaps(PlayerRect(s.x + s.changeX, FloorY), ps[k])
    ensures Updated(s, ps).y == FloorY && Updated(s, ps).changeY == 0
    ensures Updated(s, ps).x == s.x + s.changeX
  {
    var a := PlayerRect(s.x + s.changeX, FloorY);
    HitsEmptyIff(a, ps);
    UpdateHorizontal(s, ps);
    UpdateVertical(s, ps);
  }

  /** The sensor fields after update: closest_block is the scan at the moved
      x; the cache is allocated with one entry per platform (zeros when new);
      when the player moves, the entries of platforms right of it hold their
      tops and the nearest-top field is the cache entry nearest the player's
      bottom; otherwise the cache and that field are unchanged. */
  lemma UpdateSensors(s: PlayerState, ps: seq<Rect>)
    requires TopsWellFormed(s, ps)
    ensures var g := Gravity(s.y, s.changeY);
      var x1 := s.x + s.changeX;
      var moving := s.changeX != 0 || g.1 != 0;
      var r := Updated(s, ps);
      && r.closestBlock == ClosestScan(ps, x1)
      && r.listMade && |r.blockTops| == |ps|
      && (forall k :: 0 <= k < |ps| ==>
            r.blockTops[k] == if moving && ps[k].x > x1 then ps[k].Top() else if s.listMade then s.blockTops[k] else 0)
      && (moving && (exists k :: 0 <= k < |ps| && ps[k].x > x1) ==>
            r.blockTops != [] && r.closestBlockDistance == NearestTop(r.blockTops, g.0 + PlayerHeight) &&
            r.closestBlockDistance in r.blockTops &&
            forall t :: t in r.blockTops ==> Dist(r.closestBlockDistance, g.0 + PlayerHeight) <= Dist(t, g.0 + PlayerHeight))
      && (!(moving && exists k :: 0 <= k < |ps| && ps[k].x > x1) ==> r.closestBlockDistance == s.closestBlockDistance)
  {
    var g := Gravity(s.y, s.changeY);
    var x1 := s.x + s.changeX;
    var bottom := g.0 + PlayerHeight;
    var moving := s.changeX != 0 || g.1 != 0;
    var tops := if s.listMade then s.blockTops else s.blockTops + Zeros(|ps|);
    assert forall k :: 0 <= k < |ps| ==> tops[k] == if s.listMade then s.blockTops[k] else 0;
    var cache := if moving then RefreshFrom(ps, 0, tops, s.closestBlockDistance, x1, bottom)
                 else (tops, s.closestBlockDistance);
    var r := Updated(s, ps);
    assert r.blockTops == cache.0 && r.closestBlockDistance == cache.1 && r.closestBlock == ClosestScan(ps, x1);
    if moving {
      BlockTopsRefresh(ps, tops, s.closestBlockDistance, x1, bottom);
    }
  }

  /** The jump probe: a platform overlaps the rect moved 2 px down, or the
      player's bottom is at or below the bottom of the screen. */
  predicate CanJump(x: int, y: int, ps: seq<Rect>) {
    |Hits(PlayerRect(x, y + JumpProbe), ps)| > 0 || y + PlayerHeight >= ScreenHeight
  }

  /** The jump probe succeeds exactly when some platform is within 2 px below
      the player or the player stands on the floor of the screen. */
  lemma JumpGate(x: int, y: int, ps: seq<Rect>)
    ensures CanJump(x, y, ps) <==>
      (exists k :: 0 <= k < |ps| && Overlaps(PlayerRect(x, y + JumpProbe), ps[k])) || y >= FloorY
  {
    HitsEmptyIff(PlayerRect(x, y + JumpProbe), ps);
  }
}
