/** Concrete situations on Level_01 that pin the general lemmas to numbers. */
module Scenarios {
  import opened Geometry
  import opened Levels
  import opened Physics
  import opened Session

  /** A player at x = 710 falling at 6 px per frame with its bottom at 445
      lands on the platform at (700, 450, 50, 150): its bottom ends at 450
      and its vertical speed at 0. */
  lemma FallOntoTallPlatform()
    ensures var s := PlayerState(710, 395, 0, 60, SensorSentinel, [0, 0, 0], InitialClosestDistance, true);
      var r := Updated(s, Level01Platforms());
      r.y + PlayerHeight == 450 && r.changeY == 0 && r.x == 710
  {
    Level01Rects();
    var ps := Level01Platforms();
    var s := PlayerState(710, 395, 0, 60, SensorSentinel, [0, 0, 0], InitialClosestDistance, true);
    assert Gravity(395, 60) == (395, 64);
    assert Hits(PlayerRect(710, 395), ps) == [];
    assert MoveY(395, 64) == 401;
    assert Hits(PlayerRect(710, 401), ps) == [ps[1]];
    UpdateVertical(s, ps);
  }

  /** The closest-block scan is not a nearest-platform search: at x = 500 the
      platform at 700 is nearer (200 px away, against 600 px for the one at
      1100), yet the scan ends at 1100, because 1100 - 500 is compared with
      the stored absolute x 700. */
  lemma ClosestScanIsNotNearest()
    ensures ClosestScan(Level01Platforms(), 500) == 1100
  {
    Level01Rects();
  }

  /** A player spawned on the floor may jump; one standing in the air above
      no platform may not. */
  lemma JumpOnlyFromSupport()
    ensures CanJump(0, FloorY, Level01Platforms())
    ensures !CanJump(400, 300, Level01Platforms())
  {
    Level01Rects();
    JumpGate(400, 300, Level01Platforms());
  }

  /** A spawned player, which has no horizontal speed yet, stays on the floor
      at rest and does not move during its first update. */
  lemma SpawnedPlayerStaysPut()
    ensures var r := Updated(Spawned, Level01Platforms());
      r.x == 0 && r.y == FloorY && r.changeY == 0
  {
    Level01Rects();
    RestingOnFloor(Spawned, Level01Platforms());
  }
}
