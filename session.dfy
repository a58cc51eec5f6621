/** One generation's evaluation: players are spawned on the floor, and every
    frame each player's fitness is snapshotted, its network is asked for an
    action from an observation, every player is updated, and every player is
    kept on screen. */
module Session {
  import opened Geometry
  import opened Levels
  import opened Physics
  import opened Players

  /** What a network sees: the player's y / 600, x / 1500 and the
      closest-block sensor / 300. */
  datatype Observation = Observation(normY: real, normX: real, nearest: real)

  /** The first two network outputs: the stop/right selector and the jump
      selector. */
  datatype Output = Output(moveOut: real, jumpOut: real)

  /** A network, as far as the frame loop sees it: a pure map from an
      observation to its outputs. */
  type Network = Observation -> Output

  /** The observation built from a player's state at the start of a frame. */
  function Observe(s: PlayerState): (o: Observation)
    ensures o.normY * 600.0 == s.y as real && o.normX * 1500.0 == s.x as real
    ensures o.nearest * 300.0 == s.closestBlock as real
    ensures 0 <= s.y <= FloorY && 0 <= s.x <= ScreenWidth - PlayerWidth ==>
      0.0 <= o.normY < 1.0 && 0.0 <= o.normX < 1.0
  {
    Observation(s.y as real / 600.0, s.x as real / 1500.0, s.closestBlock as real / 300.0)
  }

  /** The fitness of a player at x: its horizontal progress in hundreds of pixels. */
  function Fitness(x: int): (f: real)
    ensures f * 100.0 == x as real
    ensures x >= 0 ==> f >= 0.0
  {
    x as real / 100.0
  }

  /** The decision block: stop when the first output is positive, attempt a
      jump when the second exceeds 0.5, go right when the first output is not
      positive; the calls happen in that order. */
  function Decided(s: PlayerState, ps: seq<Rect>, out: Output): (r: PlayerState)
    ensures r.changeX == if out.moveOut > 0.0 then StopSpeed else RightSpeed
    ensures r.changeY == if out.jumpOut > 0.5 && CanJump(s.x, s.y, ps) then JumpSpeed else s.changeY
    ensures r.(changeX := s.changeX, changeY := s.changeY) == s
  {
    var s1 := if out.moveOut > 0.0 then s.(changeX := StopSpeed) else s;
    var s2 := if out.jumpOut > 0.5 then s1.(changeY := if CanJump(s1.x, s1.y, ps) then JumpSpeed else s1.changeY) else s1;
    if out.moveOut <= 0.0 then s2.(changeX := RightSpeed) else s2
  }

  /** The state of a player after the decision block, given its network. */
  function Decision(s: PlayerState, ps: seq<Rect>, net: Network): PlayerState {
    Decided(s, ps, net(Observe(s)))
  }

  /** The screen clamp on x: right edge at most 1200, then left edge at least 0. */
  function ClampX(x: int): (r: int)
    ensures 0 <= r <= ScreenWidth - PlayerWidth
    ensures 0 <= x <= ScreenWidth - PlayerWidth ==> r == x
    ensures x > ScreenWidth - PlayerWidth ==> r == ScreenWidth - PlayerWidth
    ensures x < 0 ==> r == 0
  {
    var right := if x + PlayerWidth > ScreenWidth then ScreenWidth - PlayerWidth else x;
    if right < 0 then 0 else right
  }

  /** A player's state after a whole frame. */
  function FrameResult(s: PlayerState, ps: seq<Rect>, net: Network): PlayerState
    requires TopsWellFormed(s, ps)
  {
    var u := Updated(Decision(s, ps, net), ps);
    u.(x := ClampX(u.x))
  }

  /** What one frame guarantees for each player: the speed is 0 when the
      network says stop and 10 otherwise (never negative), and the player
      ends on screen horizontally. */
  lemma FrameOutcome(s: PlayerState, ps: seq<Rect>, net: Network)
    requires TopsWellFormed(s, ps)
    ensures var r := FrameResult(s, ps, net);
      && TopsWellFormed(r, ps)
      && r.changeX == (if net(Observe(s)).moveOut > 0.0 then StopSpeed else RightSpeed)
      && r.changeX >= 0
      && 0 <= r.x <= ScreenWidth - PlayerWidth
  {
  }

  /** A player that ends its move with every platform at or left of it
      reports the sentinel 1500 / 300 to its network on the next frame,
      whatever the layout. */
  lemma SentinelObservation(s: PlayerState, ps: seq<Rect>)
    requires TopsWellFormed(s, ps)
    requires forall k :: 0 <= k < |ps| ==> ps[k].x <= s.x + s.changeX
    ensures Observe(Updated(s, ps)).nearest == 5.0
  {
    UpdateSensors(s, ps);
    ClosestBlockScan(ps, s.x + s.changeX);
  }

  /** All players are distinct objects. */
  ghost predicate Distinct(players: array<Player>)
    reads players
  {
    forall i, j :: 0 <= i < j < players.Length ==> players[i] != players[j]
  }

  /** Every player's sensor cache is well formed for its own level. */
  ghost predicate AllValid(players: array<Player>)
    reads players, set k | 0 <= k < players.Length :: players[k]
  {
    forall k :: 0 <= k < players.Length ==> TopsWellFormed(players[k].State(), players[k].level.platforms)
  }

  /** The per-frame block of the main loop, for all players in order: the
      decision loop, the update of every player, the screen clamp. */
  method Frame(players: array<Player>, nets: seq<Network>, fitness: array<real>)
    requires players.Length == |nets| == fitness.Length
    requires Distinct(players)
    requires AllValid(players)
    modifies fitness, set k | 0 <= k < players.Length :: players[k]
    ensures AllValid(players)
    ensures forall k :: 0 <= k < players.Length ==> fitness[k] == Fitness(old(players[k].x))
    ensures forall k :: 0 <= k < players.Length ==>
      TopsWellFormed(old(players[k].State()), players[k].level.platforms) &&
      players[k].State() == FrameResult(old(players[k].State()), players[k].level.platforms, nets[k])
  {
    DecideAll(players, nets, fitness);
    UpdateAll(players);
    ClampAll(players);
  }

  /** Fitness snapshot, observation and decision, player by player. */
  method DecideAll(players: array<Player>, nets: seq<Network>, fitness: array<real>)
    requires players.Length == |nets| == fitness.Length
    requires Distinct(players)
    requires AllValid(players)
    modifies fitness, set k | 0 <= k < players.Length :: players[k]
    ensures AllValid(players)
    ensures forall k :: 0 <= k < players.Length ==> fitness[k] == Fitness(old(players[k].x))
    ensures forall k :: 0 <= k < players.Length ==>
      players[k].State() == Decision(old(players[k].State()), players[k].level.platforms, nets[k])
  {
    var n := players.Length;
    var i := 0;
    while i < n
      invariant 0 <= i <= n
      invariant forall k :: 0 <= k < i ==> fitness[k] == Fitness(old(players[k].x))
      invariant forall k :: 0 <= k < i ==>
        players[k].State() == Decision(old(players[k].State()), players[k].level.platforms, nets[k])
      invariant forall k :: i <= k < n ==> players[k].State() == old(players[k].State())
    {
      var p := players[i];
      fitness[i] := Fitness(p.x);
      var output := nets[i](Observe(p.State()));
      if output.moveOut > 0.0 {
        p.Stop();
      }
      if output.jumpOut > 0.5 {
        p.Jump();
      }
      if output.moveOut <= 0.0 {
        p.GoRight();
      }
      i := i + 1;
    }
  }

  /** Update every player, in order. */
  method UpdateAll(players: array<Player>)
    requires Distinct(players)
    requires AllValid(players)
    modifies set k | 0 <= k < players.Length :: players[k]
    ensures AllValid(players)
    ensures forall k :: 0 <= k < players.Length ==>
      TopsWellFormed(old(players[k].State()), players[k].level.platforms) &&
      players[k].State() == Updated(old(players[k].State()), players[k].level.platforms)
  {
    var n := players.Length;
    var i := 0;
    while i < n
      invariant 0 <= i <= n
      invariant forall k :: 0 <= k < n ==> TopsWellFormed(old(players[k].State()), players[k].level.platforms)
      invariant forall k :: 0 <= k < i ==>
        players[k].State() == Updated(old(players[k].State()), players[k].level.platforms)
      invariant forall k :: i <= k < n ==> players[k].State() == old(players[k].State())
    {
      players[i].Update();
      i := i + 1;
    }
  }

  /** Keep every player on screen horizontally, in order. */
  method ClampAll(players: array<Player>)
    requires Distinct(players)
    modifies set k | 0 <= k < players.Length :: players[k]
    ensures forall k :: 0 <= k < players.Length ==>
      players[k].State() == old(players[k].State()).(x := ClampX(old(players[k].x)))
  {
    var n := players.Length;
    var i := 0;
    while i < n
      invariant 0 <= i <= n
      invariant forall k :: 0 <= k < i ==>
        players[k].State() == old(players[k].State()).(x := ClampX(old(players[k].x)))
      invariant forall k :: i <= k < n ==> players[k].State() == old(players[k].State())
    {
      var p := players[i];
      if p.x + PlayerWidth > ScreenWidth {
        p.x := ScreenWidth - PlayerWidth;
      }
      if p.x < 0 {
        p.x := 0;
      }
      i := i + 1;
    }
  }

  /** The spawn state of every player: a new player moved onto the floor. */
  const Spawned := Initial.(y := FloorY)

  /** Session set-up: one player per genome on the shared level, each
      starting with fitness 0, then every player is placed on the floor. */
  method SpawnCohort(level: Level, n: nat) returns (players: array<Player>, fitness: array<real>)
    ensures fresh(players) && fresh(fitness)
    ensures players.Length == n && fitness.Length == n
    ensures Distinct(players)
    ensures forall k :: 0 <= k < n ==>
      fresh(players[k]) && players[k].level == level && players[k].Valid() &&
      players[k].State() == Spawned && fitness[k] == 0.0
  {
    var made: seq<Player> := [];
    while |made| < n
      invariant |made| <= n
      invariant forall j, k :: 0 <= j < k < |made| ==> made[j] != made[k]
      invariant forall k :: 0 <= k < |made| ==>
        fresh(made[k]) && made[k].level == level && made[k].State() == Initial
    {
      var p := new Player(340, level);
      made := made + [p];
    }
    players := new Player[n](k requires 0 <= k < n => made[k]);
    fitness := new real[n](k => 0.0);

    var i := 0;
    while i < n
      invariant 0 <= i <= n
      invariant forall k :: 0 <= k < n ==> players[k] == made[k]
      invariant forall k :: 0 <= k < i ==> made[k].State() == Spawned
      invariant forall k :: i <= k < n ==> made[k].State() == Initial
      invariant forall k :: 0 <= k < n ==> fresh(made[k]) && made[k].level == level
      invariant forall k :: 0 <= k < n ==> fitness[k] == 0.0
    {
      made[i].y := FloorY;
      i := i + 1;
    }
  }
}
