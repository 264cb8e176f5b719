// The lane-dodge racer: the player's car picks one of three lanes and a
// speed in steps of 5; a fixed pool of 10 traffic cars moves relative to the
// player's speed and is respawned far ahead once it falls behind the camera.

module Race {
  import opened Common
  import opened Store

  const LaneWidth: real := 3.0
  const MaxSpeed: int := 50
  const SpeedStep: int := 5
  const PoolSize: nat := 10
  /** Traffic whose z passes this is respawned. */
  const Despawn: real := 20.0

  datatype Key = ArrowLeft | ArrowRight | ArrowUp | ArrowDown | OtherKey

  /** One traffic car: lane position x, depth z relative to the player, own speed. */
  datatype TrafficCar = TrafficCar(x: real, z: real, speed: real)

  /** The random draws for placing a traffic car: depth jitter in [0, 1), a
    * lane in {-1, 0, 1} and a speed draw in [0, 1). */
  datatype Spawn = Spawn(jitter: real, lane: int, speedRoll: real)

  predicate SpawnOk(r: Spawn)
  {
    0.0 <= r.jitter < 1.0 && -1 <= r.lane <= 1 && 0.0 <= r.speedRoll < 1.0
  }

  predicate OnLane(x: real)
  {
    x == -LaneWidth || x == 0.0 || x == LaneWidth
  }

  /** The up arrow: 5 faster, capped at 50. */
  function Faster(speed: int): (r: int)
    ensures r <= MaxSpeed
    ensures speed <= MaxSpeed ==> speed <= r <= speed + SpeedStep
    ensures speed < MaxSpeed - SpeedStep ==> r == speed + SpeedStep
    ensures r == MaxSpeed || r == speed + SpeedStep
  {
    if speed + SpeedStep < MaxSpeed then speed + SpeedStep else MaxSpeed
  }

  /** The down arrow: 5 slower, never below 0. */
  function Slower(speed: int): (r: int)
    ensures r >= 0
    ensures speed >= 0 ==> speed - SpeedStep <= r <= speed
    ensures speed > SpeedStep ==> r == speed - SpeedStep
    ensures r == 0 || r == speed - SpeedStep
  {
    if speed - SpeedStep > 0 then speed - SpeedStep else 0
  }

  /** The speeds the controls can reach: multiples of 5 from 0 to 50. */
  predicate SpeedOk(speed: int)
  {
    0 <= speed <= MaxSpeed && speed % SpeedStep == 0
  }

  lemma SpeedControlsKeepRange(speed: int)
    requires SpeedOk(speed)
    ensures SpeedOk(Faster(speed)) && SpeedOk(Slower(speed))
  {
  }

  /** Points for driving one frame: speed * dt / 10 while moving. */
  function Drive(st: GameState, speed: int, dt: real): (r: GameState)
    ensures speed <= 0 ==> r == st
    ensures speed > 0 ==> r.score - st.score == speed as real * dt * 0.1
    ensures speed >= 0 && dt >= 0.0 ==> r.score >= st.score
    ensures r.highScore == st.highScore && r.phase == st.phase
    ensures r.gameOver == st.gameOver && r.gameStarted == st.gameStarted
  {
    if speed > 0 then AddScore(st, speed as real * dt * 0.1) else st
  }

  /** On a crash frame the drive points are added after the game has ended.
    * The final score passes the high score the end just recorded exactly when
    * the old score plus the frame's points passes the old high score; in
    * particular whenever the score had already reached the high score. */
  lemma CrashFrameOutscoresHighScore(st: GameState, speed: int, dt: real)
    requires speed > 0 && dt > 0.0
    ensures Drive(EndGame(st), speed, dt).phase == GameOver
    ensures Drive(EndGame(st), speed, dt).score > Drive(EndGame(st), speed, dt).highScore
            <==> st.score + speed as real * dt * 0.1 > st.highScore
    ensures st.score >= st.highScore ==>
            Drive(EndGame(st), speed, dt).score > Drive(EndGame(st), speed, dt).highScore
  {
    assert speed as real * dt > 0.0;
  }

  /** The proximity test between a car and the player at lane position xPos.
    * With both on lane centres it is a test for the same lane. */
  function Crash(c: TrafficCar, xPos: real): (b: bool)
    ensures OnLane(c.x) && OnLane(xPos) ==> (b <==> c.x == xPos && -2.0 < c.z < 2.0)
  {
    Abs(c.z) < 2.0 && Abs(c.x - xPos) < 1.5
  }

  /** The collision loop over the published traffic: any car close enough
    * ends the game; every car is tested. */
  method CheckTraffic(store: GameState, xPos: real, cars: array<TrafficCar>) returns (store': GameState)
    ensures (exists k :: 0 <= k < cars.Length && Crash(cars[k], xPos)) ==> store' == EndGame(store)
    ensures (forall k :: 0 <= k < cars.Length ==> !Crash(cars[k], xPos)) ==> store' == store
  {
    store' := store;
    var i := 0;
    while i < cars.Length
      invariant 0 <= i <= cars.Length
      invariant (exists k :: 0 <= k < i && Crash(cars[k], xPos)) ==> store' == EndGame(store)
      invariant (forall k :: 0 <= k < i ==> !Crash(cars[k], xPos)) ==> store' == store
    {
      if Crash(cars[i], xPos) {
        EndGameIdempotent(store);
        store' := EndGame(store');
      }
      i := i + 1;
    }
  }

  /** window.gameSpeed || 0: the published speed, or 0 before the first frame. */
  function PublishedSpeed(g: Option<real>): (r: real)
    ensures g.None? ==> r == 0.0
    ensures g.Some? ==> r == g.value
  {
    if g.Some? && g.value != 0.0 then g.value else 0.0
  }

  class Car {
    var lane: int
    var xPos: real
    /** The car's speed (React state), changed only by the arrow keys. */
    var speed: int

    ghost predicate Valid()
      reads this
    {
      -1 <= lane <= 1 && SpeedOk(speed)
    }

    /** The car starts in the right lane, at rest. */
    constructor ()
      ensures Valid()
      ensures lane == 1 && xPos == 0.0 && speed == 0
    {
      lane, xPos, speed := 1, 0.0, 0;
    }

    /** Key handler: nothing once the game is over; left/right change lane
      * within {-1, 0, 1}; up/down change speed within [0, 50]. */
    method KeyDown(gameOver: bool, key: Key)
      requires Valid()
      modifies this
      ensures Valid()
      ensures gameOver ==> unchanged(this)
      ensures xPos == old(xPos)
      ensures !gameOver ==>
        lane == (if key == ArrowLeft then LaneLeft(old(lane))
                 else if key == ArrowRight then LaneRight(old(lane))
                 else old(lane)) &&
        speed == (if key == ArrowUp then Faster(old(speed))
                  else if key == ArrowDown then Slower(old(speed))
                  else old(speed))
    {
      if gameOver {
        return;
      }
      if key == ArrowLeft {
        lane := LaneLeft(lane);
      }
      if key == ArrowRight {
        lane := LaneRight(lane);
      }
      if key == ArrowUp {
        speed := Faster(speed);
      }
      if key == ArrowDown {
        speed := Slower(speed);
      }
      SpeedControlsKeepRange(old(speed));
    }

    /** One frame: steer towards the lane, publish the speed, test the
      * published traffic, then score for distance. Once over, nothing
      * happens: the published speed is handed back as it was, and the
      * traffic keeps moving by it. */
    method Frame(store: GameState, dt: real, traffic: Option<array<TrafficCar>>, published: Option<real>)
      returns (store': GameState, gameSpeed: Option<real>)
      requires Valid()
      modifies this
      ensures Valid()
      ensures lane == old(lane) && speed == old(speed)
      ensures store.gameOver ==> store' == store && gameSpeed == published && unchanged(this)
      ensures !store.gameOver ==>
        xPos == Lerp(old(xPos), lane as real * LaneWidth, dt * 5.0) &&
        gameSpeed == Some(speed as real)
      ensures !store.gameOver && traffic.None? ==> store' == Drive(store, speed, dt)
      ensures !store.gameOver && traffic.Some? ==>
        ((exists k :: 0 <= k < traffic.value.Length && Crash(traffic.value[k], xPos)) ==>
           store' == Drive(EndGame(store), speed, dt)) &&
        ((forall k :: 0 <= k < traffic.value.Length ==> !Crash(traffic.value[k], xPos)) ==>
           store' == Drive(store, speed, dt))
      ensures dt >= 0.0 ==> store'.score >= store.score
    {
      if store.gameOver {
        return store, published;
      }
      xPos := Lerp(xPos, lane as real * LaneWidth, dt * 5.0);
      gameSpeed := Some(speed as real);
      store' := store;
      if traffic.Some? {
        store' := CheckTraffic(store, xPos, traffic.value);
      }
      store' := Drive(store', speed, dt);
    }
  }

  // ----- the traffic pool -----

  /** What every traffic car keeps: on a lane, not yet behind the camera, and
    * with a speed drawn from [10, 30). */
  predicate CarOk(c: TrafficCar)
  {
    c.z <= Despawn && OnLane(c.x) && 10.0 <= c.speed < 30.0
  }

  /** Car i starts 30 units further ahead than car i - 1. */
  function InitialCar(i: nat, r: Spawn): (c: TrafficCar)
    requires SpawnOk(r)
    ensures CarOk(c)
    ensures c.z == -100.0 - 30.0 * i as real
  {
    TrafficCar(r.lane as real * LaneWidth, -100.0 - 30.0 * i as real, 10.0 + r.speedRoll * 20.0)
  }

  predicate Respawns(c: TrafficCar, playerSpeed: real, dt: real)
  {
    c.z + (playerSpeed - c.speed) * dt > Despawn
  }

  /** One car's frame: move by the speed difference, and respawn far ahead on
    * a fresh lane and speed once behind the camera. */
  function AdvanceCar(c: TrafficCar, playerSpeed: real, dt: real, r: Spawn): (n: TrafficCar)
    ensures !Respawns(c, playerSpeed, dt) ==> n == c.(z := c.z + (playerSpeed - c.speed) * dt)
    ensures Respawns(c, playerSpeed, dt) && SpawnOk(r) ==>
      -300.0 < n.z <= -200.0 && OnLane(n.x) && 10.0 <= n.speed < 30.0
    ensures SpawnOk(r) ==> n.z <= Despawn
    ensures CarOk(c) && SpawnOk(r) ==> CarOk(n)
  {
    if Respawns(c, playerSpeed, dt) then
      TrafficCar(r.lane as real * LaneWidth, -200.0 - r.jitter * 100.0, 10.0 + r.speedRoll * 20.0)
    else c.(z := c.z + (playerSpeed - c.speed) * dt)
  }

  /** The traffic loop: every car advanced in place, in order. */
  method AdvanceTraffic(pool: array<TrafficCar>, playerSpeed: real, dt: real, rolls: seq<Spawn>)
    requires |rolls| == pool.Length
    modifies pool
    ensures forall k :: 0 <= k < pool.Length ==> pool[k] == AdvanceCar(old(pool[k]), playerSpeed, dt, rolls[k])
  {
    var i := 0;
    while i < pool.Length
      invariant 0 <= i <= pool.Length
      invariant forall k :: 0 <= k < i ==> pool[k] == AdvanceCar(old(pool[k]), playerSpeed, dt, rolls[k])
      invariant forall k :: i <= k < pool.Length ==> pool[k] == old(pool[k])
    {
      pool[i] := AdvanceCar(pool[i], playerSpeed, dt, rolls[i]);
      i := i + 1;
    }
  }

  class TrafficManager {
    const pool: array<TrafficCar>

    ghost predicate Valid()
      reads this, pool
    {
      pool.Length == PoolSize && forall k :: 0 <= k < pool.Length ==> CarOk(pool[k])
    }

    constructor (rolls: seq<Spawn>)
      requires |rolls| == PoolSize && forall k :: 0 <= k < |rolls| ==> SpawnOk(rolls[k])
      ensures Valid() && fresh(pool)
      ensures forall k :: 0 <= k < PoolSize ==> pool[k] == InitialCar(k, rolls[k])
    {
      pool := new TrafficCar[PoolSize](k requires 0 <= k < PoolSize => InitialCar(k, rolls[k]));
    }

    /** The traffic frame: it runs whatever the game phase, moving each car by
      * the published player speed minus its own. */
    method Step(gameSpeed: Option<real>, dt: real, rolls: seq<Spawn>)
      requires Valid()
      requires |rolls| == PoolSize && forall k :: 0 <= k < |rolls| ==> SpawnOk(rolls[k])
      modifies pool
      ensures Valid()
      ensures forall k :: 0 <= k < PoolSize ==>
        pool[k] == AdvanceCar(old(pool[k]), PublishedSpeed(gameSpeed), dt, rolls[k])
    {
      AdvanceTraffic(pool, PublishedSpeed(gameSpeed), dt, rolls);
      forall k | 0 <= k < pool.Length
        ensures CarOk(pool[k])
      {
        assert CarOk(old(pool[k]));
      }
    }
  }
}
