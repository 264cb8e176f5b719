// The tunnel dodger: the player rotates around the inside of a tube while
// obstacles and coins, spawned at random wall segments far ahead, rush
// towards the player. The obstacle list is rebuilt every frame, keeping
// only what is still in front of the camera.

module Tunnel {
  import opened Common
  import opened Store

  const SpeedInitial: real := 15.0
  const RotationSpeed: real := 3.0
  const Segments: nat := 16
  /** Math.PI */
  const Pi: real := 3.141592653589793
  const SpawnDepth: real := -100.0
  /** Entries whose new z is not below this are dropped. */
  const KeepBefore: real := 10.0
  const CoinPoints: real := 50.0

  datatype Kind = Obstacle | Coin

  /** One entry of the list: depth z, wall angle, kind, and whether it can
    * still be hit. */
  datatype Obs = Obs(z: real, angle: real, kind: Kind, active: bool)

  /** The random draws for a spawn: the wall segment and the kind. */
  datatype Spawn = Spawn(segment: int, kind: Kind)

  predicate SpawnOk(s: Spawn)
  {
    0 <= s.segment < Segments
  }

  datatype Key = ArrowLeft | ArrowRight | OtherKey

  /** A new entry: far ahead, active, on the boundary of a wall segment. */
  function Spawned(s: Spawn): (o: Obs)
    ensures o.z == SpawnDepth && o.active && o.kind == s.kind
    ensures o.angle == s.segment as real * (Pi * 2.0 / Segments as real)
    ensures SpawnOk(s) ==> 0.0 <= o.angle < 2.0 * Pi
  {
    Obs(SpawnDepth, s.segment as real * (Pi * 2.0 / Segments as real), s.kind, true)
  }

  /** The rotation for one frame: left adds 3 * dt, right subtracts it. */
  function Steer(angle: real, left: bool, right: bool, dt: real): (r: real)
    ensures left == right ==> r == angle
    ensures left && !right ==> r == angle + RotationSpeed * dt
    ensures right && !left ==> r == angle - RotationSpeed * dt
  {
    var a := if left then angle + RotationSpeed * dt else angle;
    if right then a - RotationSpeed * dt else a
  }

  // ----- the obstacle update -----

  /** Near the player's depth and still able to hit. */
  predicate InReach(o: Obs)
  {
    o.active && Abs(o.z) < 1.0
  }

  /** A coin hit that scores in this frame. */
  predicate CoinHit(o: Obs, speed: real, dt: real, angle: real, near: (real, real) -> bool)
  {
    var moved := o.(z := o.z + speed * dt);
    InReach(moved) && near(angle, o.angle) && o.kind == Coin
  }

  /** An entry after one frame: advanced by speed * dt and, when it hits, a
    * coin is switched off. near(player, wall) is the angular hit test. */
  function Frame1(o: Obs, speed: real, dt: real, angle: real, near: (real, real) -> bool): (n: Obs)
    ensures n.z == o.z + speed * dt && n.angle == o.angle && n.kind == o.kind
    ensures n.active == (o.active && !CoinHit(o, speed, dt, angle, near))
    ensures !o.active ==> !n.active
  {
    var moved := o.(z := o.z + speed * dt);
    if InReach(moved) && near(angle, o.angle) && o.kind == Coin then moved.(active := false) else moved
  }

  /** The store after one entry's collision test: an obstacle ends the game,
    * a coin scores 50. */
  function HitStore(st: GameState, o: Obs, speed: real, dt: real, angle: real, near: (real, real) -> bool): (r: GameState)
    ensures r.score == st.score + (if CoinHit(o, speed, dt, angle, near) then CoinPoints else 0.0)
    ensures r.phase == (if ObstacleHit(o, speed, dt, angle, near) then GameOver else st.phase)
    ensures r.highScore == (if ObstacleHit(o, speed, dt, angle, near) then Max(st.score, st.highScore) else st.highScore)
    ensures r.highScore >= st.highScore
    ensures FlagsAgree(st) ==> FlagsAgree(r)
  {
    var moved := o.(z := o.z + speed * dt);
    if InReach(moved) && near(angle, o.angle) then
      if o.kind == Obstacle then EndGame(st) else AddScore(st, CoinPoints)
    else st
  }

  /** The rebuilt list: every entry advanced and tested, kept while its new
    * z is below 10, in the original order. */
  function Survivors(obs: seq<Obs>, speed: real, dt: real, angle: real, near: (real, real) -> bool): (r: seq<Obs>)
    ensures |r| <= |obs|
    ensures forall j :: 0 <= j < |r| ==> r[j].z < KeepBefore
    decreases |obs|
  {
    if obs == [] then []
    else
      var n := Frame1(obs[|obs| - 1], speed, dt, angle, near);
      Survivors(obs[..|obs| - 1], speed, dt, angle, near) + (if n.z < KeepBefore then [n] else [])
  }

  function UpdateStore(st: GameState, obs: seq<Obs>, speed: real, dt: real, angle: real, near: (real, real) -> bool): GameState
    decreases |obs|
  {
    if obs == [] then st
    else HitStore(UpdateStore(st, obs[..|obs| - 1], speed, dt, angle, near), obs[|obs| - 1], speed, dt, angle, near)
  }

  /** The update loop: move each entry, test it, keep it if still in front. */
  method Update(store: GameState, obs: seq<Obs>, speed: real, dt: real, angle: real, near: (real, real) -> bool)
    returns (next: seq<Obs>, store': GameState)
    ensures next == Survivors(obs, speed, dt, angle, near)
    ensures store' == UpdateStore(store, obs, speed, dt, angle, near)
  {
    next, store' := [], store;
    var i := 0;
    while i < |obs|
      invariant 0 <= i <= |obs|
      invariant next == Survivors(obs[..i], speed, dt, angle, near)
      invariant store' == UpdateStore(store, obs[..i], speed, dt, angle, near)
    {
      assert obs[..i + 1][..i] == obs[..i];
      store' := HitStore(store', obs[i], speed, dt, angle, near);
      var o := Frame1(obs[i], speed, dt, angle, near);
      if o.z < KeepBefore {
        next := next + [o];
      }
      i := i + 1;
    }
    assert obs[..|obs|] == obs;
  }

  /** The number of entries of obs[..i] that survive the frame. */
  function Rank(obs: seq<Obs>, i: nat, speed: real, dt: real, angle: real, near: (real, real) -> bool): nat
    requires i <= |obs|
  {
    |Survivors(obs[..i], speed, dt, angle, near)|
  }

  lemma {:induction false} SurvivorsOfPrefix(obs: seq<Obs>, j: nat, speed: real, dt: real, angle: real, near: (real, real) -> bool)
    requires j <= |obs|
    ensures Survivors(obs[..j], speed, dt, angle, near) <= Survivors(obs, speed, dt, angle, near)
    decreases |obs| - j
  {
    if j < |obs| {
      SurvivorsOfPrefix(obs[..|obs| - 1], j, speed, dt, angle, near);
      assert obs[..|obs| - 1][..j] == obs[..j];
    } else {
      assert obs[..j] == obs;
    }
  }

  /** Filtering keeps order: an entry that stays in front appears in the new
    * list at its rank among the survivors, so later entries stay later. */
  lemma SurvivorAt(obs: seq<Obs>, i: nat, speed: real, dt: real, angle: real, near: (real, real) -> bool)
    requires i < |obs|
    requires Frame1(obs[i], speed, dt, angle, near).z < KeepBefore
    ensures Rank(obs, i, speed, dt, angle, near) < |Survivors(obs, speed, dt, angle, near)|
    ensures Survivors(obs, speed, dt, angle, near)[Rank(obs, i, speed, dt, angle, near)]
            == Frame1(obs[i], speed, dt, angle, near)
    ensures Rank(obs, i + 1, speed, dt, angle, near) == Rank(obs, i, speed, dt, angle, near) + 1
  {
    assert obs[..i + 1][..i] == obs[..i];
    SurvivorsOfPrefix(obs, i + 1, speed, dt, angle, near);
  }

  /** An entry that reaches the camera is dropped, and the rank does not move. */
  lemma DroppedAt(obs: seq<Obs>, i: nat, speed: real, dt: real, angle: real, near: (real, real) -> bool)
    requires i < |obs|
    requires Frame1(obs[i], speed, dt, angle, near).z >= KeepBefore
    ensures Rank(obs, i + 1, speed, dt, angle, near) == Rank(obs, i, speed, dt, angle, near)
  {
    assert obs[..i + 1][..i] == obs[..i];
  }

  function CountCoinHits(obs: seq<Obs>, speed: real, dt: real, angle: real, near: (real, real) -> bool): nat
    decreases |obs|
  {
    if obs == [] then 0
    else CountCoinHits(obs[..|obs| - 1], speed, dt, angle, near)
         + (if CoinHit(obs[|obs| - 1], speed, dt, angle, near) then 1 else 0)
  }

  /** A frame scores exactly 50 per coin hit. */
  lemma {:induction false} UpdateScore(st: GameState, obs: seq<Obs>, speed: real, dt: real, angle: real, near: (real, real) -> bool)
    ensures UpdateStore(st, obs, speed, dt, angle, near).score
            == st.score + CoinPoints * CountCoinHits(obs, speed, dt, angle, near) as real
    decreases |obs|
  {
    if obs != [] {
      UpdateScore(st, obs[..|obs| - 1], speed, dt, angle, near);
    }
  }

  /** An obstacle that is in reach and at the player's angle this frame. An
    * entry is never both an obstacle hit and a coin hit. */
  function ObstacleHit(o: Obs, speed: real, dt: real, angle: real, near: (real, real) -> bool): (b: bool)
    ensures b ==> !CoinHit(o, speed, dt, angle, near)
    ensures b ==> o.active
  {
    var moved := o.(z := o.z + speed * dt);
    InReach(moved) && near(angle, o.angle) && o.kind == Obstacle
  }

  predicate AnyObstacleHit(obs: seq<Obs>, speed: real, dt: real, angle: real, near: (real, real) -> bool)
  {
    exists k :: 0 <= k < |obs| && ObstacleHit(obs[k], speed, dt, angle, near)
  }

  /** A frame ends a running game exactly when some obstacle hits. */
  lemma {:induction false} UpdateEnds(st: GameState, obs: seq<Obs>, speed: real, dt: real, angle: real, near: (real, real) -> bool)
    requires st.phase != GameOver
    ensures UpdateStore(st, obs, speed, dt, angle, near).phase == GameOver
            <==> AnyObstacleHit(obs, speed, dt, angle, near)
    ensures !AnyObstacleHit(obs, speed, dt, angle, near) ==>
            UpdateStore(st, obs, speed, dt, angle, near).phase == st.phase
    decreases |obs|
  {
    if obs != [] {
      var init := obs[..|obs| - 1];
      var last := obs[|obs| - 1];
      UpdateEnds(st, init, speed, dt, angle, near);
      if AnyObstacleHit(init, speed, dt, angle, near) {
        var k :| 0 <= k < |init| && ObstacleHit(init[k], speed, dt, angle, near);
        assert obs[k] == init[k];
      }
      if AnyObstacleHit(obs, speed, dt, angle, near) && !ObstacleHit(last, speed, dt, angle, near) {
        var k :| 0 <= k < |obs| && ObstacleHit(obs[k], speed, dt, angle, near);
        assert k < |init| && init[k] == obs[k];
      }
    }
  }

  /** One frame of one entry's life: speed, elapsed time, player angle. */
  datatype Tick = Tick(speed: real, dt: real, angle: real)

  function CoinScores(o: Obs, ticks: seq<Tick>, near: (real, real) -> bool): nat
    decreases |ticks|
  {
    if ticks == [] then 0
    else
      var t := ticks[0];
      (if CoinHit(o, t.speed, t.dt, t.angle, near) then 1 else 0)
      + CoinScores(Frame1(o, t.speed, t.dt, t.angle, near), ticks[1..], near)
  }

  /** However many frames an entry lives through, it scores as a coin at most
    * once, and not at all once switched off. */
  lemma {:induction false} CoinScoresOnce(o: Obs, ticks: seq<Tick>, near: (real, real) -> bool)
    ensures CoinScores(o, ticks, near) <= (if o.active then 1 else 0)
    decreases |ticks|
  {
    if ticks != [] {
      var t := ticks[0];
      CoinScoresOnce(Frame1(o, t.speed, t.dt, t.angle, near), ticks[1..], near);
    }
  }

  // ----- the periodic score -----

  /** Math.floor(elapsed * 60) % 10 === 0. JavaScript's remainder keeps the
    * sign of the dividend, but it is zero exactly when Dafny's is. The point
    * fires during the first tenth of every 1/6 second of elapsed time. */
  function ScoreTick(elapsed: real): (b: bool)
    ensures b <==> elapsed * 6.0 - (elapsed * 6.0).Floor as real < 0.1
  {
    var m := (elapsed * 60.0).Floor;
    var q := (elapsed * 6.0).Floor;
    assert q as real <= elapsed * 6.0 < q as real + 1.0;
    assert m as real <= elapsed * 60.0 < m as real + 1.0;
    assert 10 * q <= m <= 10 * q + 9;
    assert m % 10 == 0 <==> m == 10 * q;
    m % 10 == 0
  }

  class TunnelScene {
    var playerAngle: real
    var obstacles: seq<Obs>
    var speed: real
    var left: bool
    var right: bool

    constructor ()
      ensures playerAngle == 0.0 && obstacles == [] && speed == SpeedInitial
      ensures !left && !right
    {
      playerAngle, obstacles, speed := 0.0, [], SpeedInitial;
      left, right := false, false;
    }

    /** Held keys are tracked whatever the phase. */
    method KeyDown(key: Key)
      modifies this
      ensures left == (old(left) || key == ArrowLeft)
      ensures right == (old(right) || key == ArrowRight)
      ensures playerAngle == old(playerAngle) && obstacles == old(obstacles) && speed == old(speed)
    {
      if key == ArrowLeft {
        left := true;
      }
      if key == ArrowRight {
        right := true;
      }
    }

    method KeyUp(key: Key)
      modifies this
      ensures left == (old(left) && key != ArrowLeft)
      ensures right == (old(right) && key != ArrowRight)
      ensures playerAngle == old(playerAngle) && obstacles == old(obstacles) && speed == old(speed)
    {
      if key == ArrowLeft {
        left := false;
      }
      if key == ArrowRight {
        right := false;
      }
    }

    /** One frame, only while playing: speed up, steer, maybe spawn, update
      * the list (testing hits against the angle the frame started with), and
      * award the periodic point. */
    method Frame(store: GameState, dt: real, elapsed: real, spawn: Option<Spawn>, near: (real, real) -> bool)
      returns (store': GameState)
      requires spawn.Some? ==> SpawnOk(spawn.value)
      modifies this
      ensures store.phase != Playing ==> store' == store && unchanged(this)
      ensures left == old(left) && right == old(right)
      ensures store.phase == Playing ==>
        speed == old(speed) + dt * 0.1 &&
        playerAngle == Steer(old(playerAngle), left, right, dt)
      ensures store.phase == Playing ==>
        var list := if spawn.Some? then old(obstacles) + [Spawned(spawn.value)] else old(obstacles);
        var hit := UpdateStore(store, list, speed, dt, old(playerAngle), near);
        obstacles == Survivors(list, speed, dt, old(playerAngle), near) &&
        store' == (if ScoreTick(elapsed) then AddScore(hit, 1.0) else hit)
    {
      if store.phase != Playing {
        return store;
      }
      speed := speed + dt * 0.1;
      var seen := playerAngle;
      playerAngle := Steer(playerAngle, left, right, dt);
      var list := obstacles;
      if spawn.Some? {
        list := list + [Spawned(spawn.value)];
      }
      obstacles, store' := Update(store, list, speed, dt, seen, near);
      if ScoreTick(elapsed) {
        store' := AddScore(store', 1.0);
      }
    }
  }
}
