// The endless runner: a player that switches between three lanes and jumps,
// and a fixed pool of 25 obstacles and coins that scroll towards the player
// and are recycled in place once they are behind the camera. The player's
// refs and the pool's entries are updated in place, frame by frame.

module Runner {
  import opened Common
  import opened Store

  const LaneWidth: real := 3.0
  const PlayerSpeed: real := 20.0
  const JumpForce: real := 8.0
  const Gravity: real := 20.0
  const SpawnDistance: real := -120.0
  const PoolSize: nat := 25
  /** Height the player rests at after a landing. */
  const Ground: real := 0.5
  /** Highest y from which a jump may start. */
  const JumpHeight: real := 0.51
  const CoinPoints: real := 50.0
  const PassPoints: real := 10.0
  /** Entries whose z passes this are recycled. */
  const Despawn: real := 20.0

  datatype Key = ArrowLeft | ArrowRight | ArrowUp | Space | OtherKey

  datatype Kind = Obstacle | Coin

  /** One pool entry: lane position x, depth z (the player is at z = 0). */
  datatype Slot = Slot(x: real, z: real, kind: Kind, hit: bool, visible: bool, passed: bool)

  /** The random draws a recycle makes: jitter in [0, 1) for the depth, a lane
    * in {-1, 0, 1} and the new kind. */
  datatype Respawn = Respawn(jitter: real, lane: int, kind: Kind)

  predicate RespawnOk(r: Respawn)
  {
    0.0 <= r.jitter < 1.0 && -1 <= r.lane <= 1
  }

  predicate OnLane(x: real)
  {
    x == -LaneWidth || x == 0.0 || x == LaneWidth
  }

  // ----- the player's vertical motion -----

  datatype Body = Body(y: real, vy: real, jumping: bool)

  /** One frame of jump physics: while airborne (or above the ground) the
    * height integrates the velocity and gravity slows it; reaching the ground
    * snaps to it and ends the jump. */
  function Fall(b: Body, dt: real): (r: Body)
    ensures !(b.jumping || b.y > Ground) ==> r == b
    ensures (b.jumping || b.y > Ground) ==> r.y >= Ground
    ensures (b.jumping || b.y > Ground) ==> (r.y == Ground <==> b.y + b.vy * dt <= Ground)
    ensures (b.jumping || b.y > Ground) && r.y == Ground ==> !r.jumping && r.vy == 0.0
    ensures (b.jumping || b.y > Ground) && r.y > Ground ==>
      r.y == b.y + b.vy * dt && r.vy == b.vy - Gravity * dt && r.jumping == b.jumping
  {
    if b.jumping || b.y > Ground then
      var y := b.y + b.vy * dt;
      var vy := b.vy - Gravity * dt;
      if y <= Ground then Body(Ground, 0.0, false) else Body(y, vy, b.jumping)
    else b
  }

  /** Once on or above the ground, the player never sinks below it. */
  lemma FallStaysAboveGround(b: Body, dt: real)
    requires b.y >= Ground
    ensures Fall(b, dt).y >= Ground
  {
  }

  // ----- collisions -----

  /** Proximity test between the player at (px, py, 0) and an entry. With
    * both on lane centres it is a same-lane test. */
  function Touches(s: Slot, px: real, py: real): (b: bool)
    ensures OnLane(s.x) && OnLane(px) ==>
      (b <==> s.x == px && -1.2 < s.z < 1.2 && Ground - 1.0 < py < Ground + 1.0)
  {
    Abs(0.0 - s.z) < 1.2 && Abs(px - s.x) < 1.0 && Abs(py - Ground) < 1.0
  }

  /** A coin touched for the first time in its life. */
  predicate FreshCoin(s: Slot, px: real, py: real)
  {
    Touches(s, px, py) && s.kind == Coin && !s.hit
  }

  /** The entry after the collision test: a fresh coin is consumed and hidden. */
  function JudgeSlot(s: Slot, px: real, py: real): (r: Slot)
    ensures r.x == s.x && r.z == s.z && r.kind == s.kind && r.passed == s.passed
    ensures r.hit == (s.hit || (Touches(s, px, py) && s.kind == Coin))
    ensures r.visible == (s.visible && !FreshCoin(s, px, py))
  {
    if FreshCoin(s, px, py) then s.(hit := true, visible := false) else s
  }

  /** The store after the collision test of one entry: an obstacle ends the
    * game, a fresh coin scores 50. */
  function JudgeStore(st: GameState, s: Slot, px: real, py: real): (r: GameState)
    ensures r.score == st.score + (if FreshCoin(s, px, py) then CoinPoints else 0.0)
    ensures r.phase == (if Touches(s, px, py) && s.kind == Obstacle then GameOver else st.phase)
    ensures r.highScore == (if Touches(s, px, py) && s.kind == Obstacle then Max(st.score, st.highScore) else st.highScore)
    ensures r.highScore >= st.highScore
    ensures FlagsAgree(st) ==> FlagsAgree(r)
  {
    if !Touches(s, px, py) then st
    else if s.kind == Obstacle then EndGame(st)
    else if !s.hit then AddScore(st, CoinPoints)
    else st
  }

  /** The store after testing every entry of slots in order (no early exit). */
  function JudgeAll(st: GameState, slots: seq<Slot>, px: real, py: real): GameState
    decreases |slots|
  {
    if slots == [] then st
    else JudgeStore(JudgeAll(st, slots[..|slots| - 1], px, py), slots[|slots| - 1], px, py)
  }

  function JudgedSlots(slots: seq<Slot>, px: real, py: real): (r: seq<Slot>)
    ensures |r| == |slots|
    ensures forall k :: 0 <= k < |slots| ==> r[k] == JudgeSlot(slots[k], px, py)
  {
    seq(|slots|, k requires 0 <= k < |slots| => JudgeSlot(slots[k], px, py))
  }

  function CountFreshCoins(slots: seq<Slot>, px: real, py: real): nat
    decreases |slots|
  {
    if slots == [] then 0
    else CountFreshCoins(slots[..|slots| - 1], px, py)
         + (if FreshCoin(slots[|slots| - 1], px, py) then 1 else 0)
  }

  predicate HitsObstacle(slots: seq<Slot>, px: real, py: real)
  {
    exists k :: 0 <= k < |slots| && Touches(slots[k], px, py) && slots[k].kind == Obstacle
  }

  /** A collision pass scores exactly 50 per fresh coin touched. */
  lemma {:induction false} JudgeAllScore(st: GameState, slots: seq<Slot>, px: real, py: real)
    ensures JudgeAll(st, slots, px, py).score == st.score + CoinPoints * CountFreshCoins(slots, px, py) as real
    decreases |slots|
  {
    if slots != [] {
      JudgeAllScore(st, slots[..|slots| - 1], px, py);
    }
  }

  /** A collision pass ends the game exactly when some obstacle is touched
    * (or the game had already ended), and never touches the high score
    * otherwise. */
  lemma {:induction false} JudgeAllEnds(st: GameState, slots: seq<Slot>, px: real, py: real)
    requires st.phase != GameOver
    ensures JudgeAll(st, slots, px, py).phase == GameOver <==> HitsObstacle(slots, px, py)
    ensures !HitsObstacle(slots, px, py) ==> JudgeAll(st, slots, px, py).phase == st.phase
    decreases |slots|
  {
    if slots != [] {
      var init := slots[..|slots| - 1];
      var last := slots[|slots| - 1];
      JudgeAllEnds(st, init, px, py);
      if HitsObstacle(init, px, py) {
        var k :| 0 <= k < |init| && Touches(init[k], px, py) && init[k].kind == Obstacle;
        assert slots[k] == init[k];
      }
      if HitsObstacle(slots, px, py) && !(Touches(last, px, py) && last.kind == Obstacle) {
        var k :| 0 <= k < |slots| && Touches(slots[k], px, py) && slots[k].kind == Obstacle;
        assert k < |init| && init[k] == slots[k];
      }
    }
  }

  lemma {:induction false} NoFreshCoinsAfterJudge(slots: seq<Slot>, px: real, py: real)
    ensures CountFreshCoins(JudgedSlots(slots, px, py), px, py) == 0
    decreases |slots|
  {
    if slots != [] {
      var init := slots[..|slots| - 1];
      NoFreshCoinsAfterJudge(init, px, py);
      assert JudgedSlots(slots, px, py)[..|slots| - 1] == JudgedSlots(init, px, py);
    }
  }

  /** A coin is consumed once: testing the same entries again at the same
    * place awards nothing. */
  lemma JudgeAgainScoresNothing(st: GameState, slots: seq<Slot>, px: real, py: real)
    ensures JudgeAll(st, JudgedSlots(slots, px, py), px, py).score == st.score
  {
    NoFreshCoinsAfterJudge(slots, px, py);
    JudgeAllScore(st, JudgedSlots(slots, px, py), px, py);
  }

  /** The collision loop over the published pool: every entry is tested, in
    * order, and coins are consumed in place. */
  method Judge(store: GameState, px: real, py: real, pool: array<Slot>) returns (store': GameState)
    modifies pool
    ensures forall k :: 0 <= k < pool.Length ==> pool[k] == JudgeSlot(old(pool[k]), px, py)
    ensures store' == JudgeAll(store, old(pool[..]), px, py)
  {
    store' := store;
    var i := 0;
    while i < pool.Length
      invariant 0 <= i <= pool.Length
      invariant forall k :: 0 <= k < i ==> pool[k] == JudgeSlot(old(pool[k]), px, py)
      invariant forall k :: i <= k < pool.Length ==> pool[k] == old(pool[k])
      invariant store' == JudgeAll(store, old(pool[..])[..i], px, py)
    {
      var s := pool[i];
      assert old(pool[..])[..i + 1][..i] == old(pool[..])[..i];
      store' := JudgeStore(store', s, px, py);
      pool[i] := JudgeSlot(s, px, py);
      i := i + 1;
    }
    assert old(pool[..])[..pool.Length] == old(pool[..]);
  }

  // ----- the player -----

  class Player {
    var lane: int
    var isJumping: bool
    var yVelocity: real
    var xPos: real
    /** Height of the player; 0 until the first jump lands it at 0.5. */
    var y: real

    ghost predicate Valid()
      reads this
    {
      -1 <= lane <= 1 &&
      (y == 0.0 || y >= Ground) &&
      (!isJumping ==> yVelocity == 0.0 && (y == 0.0 || y == Ground))
    }

    constructor ()
      ensures Valid()
      ensures lane == 0 && !isJumping && yVelocity == 0.0 && xPos == 0.0 && y == 0.0
    {
      lane, isJumping, yVelocity, xPos, y := 0, false, 0.0, 0.0, 0.0;
    }

    /** Key handler: ignored unless a game is in progress; left/right move one
      * lane within {-1, 0, 1}; up or space starts a jump from the ground. */
    method KeyDown(phase: Phase, key: Key)
      requires Valid()
      modifies this
      ensures Valid()
      ensures phase != Playing ==> unchanged(this)
      ensures xPos == old(xPos) && y == old(y)
      ensures phase == Playing ==>
        lane == (if key == ArrowLeft then LaneLeft(old(lane))
                 else if key == ArrowRight then LaneRight(old(lane))
                 else old(lane))
      ensures phase == Playing && (key == ArrowUp || key == Space) &&
              !old(isJumping) && old(y) <= JumpHeight ==>
        isJumping && yVelocity == JumpForce
      ensures !(phase == Playing && (key == ArrowUp || key == Space) &&
                !old(isJumping) && old(y) <= JumpHeight) ==>
        isJumping == old(isJumping) && yVelocity == old(yVelocity)
    {
      if phase != Playing {
        return;
      }
      if key == ArrowLeft {
        lane := LaneLeft(lane);
      }
      if key == ArrowRight {
        lane := LaneRight(lane);
      }
      if (key == ArrowUp || key == Space) && !isJumping && y <= JumpHeight {
        isJumping := true;
        yVelocity := JumpForce;
      }
    }

    /** One frame: steer towards the lane, apply jump physics, then test the
      * published pool (none is published before the pool's first frame). */
    method Frame(store: GameState, dt: real, obstacles: Option<array<Slot>>)
      returns (store': GameState)
      requires Valid()
      modifies this, if obstacles.Some? then {obstacles.value} else {}
      ensures Valid()
      ensures store.phase != Playing ==> store' == store && unchanged(this)
      ensures obstacles.Some? && store.phase != Playing ==> unchanged(obstacles.value)
      ensures lane == old(lane)
      ensures store.phase == Playing ==>
        xPos == Lerp(old(xPos), lane as real * LaneWidth, dt * 15.0) &&
        Body(y, yVelocity, isJumping) == Fall(Body(old(y), old(yVelocity), old(isJumping)), dt)
      ensures store.phase == Playing && obstacles.None? ==> store' == store
      ensures store.phase == Playing && obstacles.Some? ==>
        store' == JudgeAll(store, old(obstacles.value[..]), xPos, y) &&
        forall k :: 0 <= k < obstacles.value.Length ==>
          obstacles.value[k] == JudgeSlot(old(obstacles.value[k]), xPos, y)
    {
      if store.phase != Playing {
        return store;
      }
      xPos := Lerp(xPos, lane as real * LaneWidth, dt * 15.0);
      var b := Fall(Body(y, yVelocity, isJumping), dt);
      y, yVelocity, isJumping := b.y, b.vy, b.jumping;
      store' := store;
      if obstacles.Some? {
        store' := Judge(store, xPos, y, obstacles.value);
      }
    }
  }

  // ----- the pool -----

  /** What every entry keeps between frames: at or before the despawn depth,
    * on a lane, visible exactly until a coin is consumed, and only obstacles
    * earn the pass bonus. */
  predicate SlotOk(s: Slot)
  {
    s.z <= Despawn && OnLane(s.x) &&
    s.visible == !s.hit && (s.hit ==> s.kind == Coin) && (s.passed ==> s.kind == Obstacle)
  }

  function InitialSlot(i: nat, kind: Kind): (s: Slot)
    ensures SlotOk(s)
    ensures s.z == SpawnDistance - 15.0 * i as real && s.x == 0.0 && s.kind == kind
    ensures !s.hit && s.visible && !s.passed
  {
    Slot(0.0, SpawnDistance - 15.0 * i as real, kind, false, true, false)
  }

  /** An obstacle that has just gone past the player earns the pass bonus once. */
  predicate PassBonus(s: Slot, speed: real, dt: real)
  {
    s.z + speed * dt > 2.0 && !s.passed && s.kind == Obstacle
  }

  predicate Recycles(s: Slot, speed: real, dt: real)
  {
    s.z + speed * dt > Despawn
  }

  /** One entry's frame: advance by speed * dt, mark the pass, and recycle it
    * to the far end, re-rolled and reset, once it is behind the camera. */
  function AdvanceSlot(s: Slot, speed: real, dt: real, r: Respawn): (n: Slot)
    ensures RespawnOk(r) ==> n.z <= Despawn
    ensures !Recycles(s, speed, dt) ==>
      n == s.(z := s.z + speed * dt, passed := s.passed || PassBonus(s, speed, dt))
    ensures Recycles(s, speed, dt) && RespawnOk(r) ==>
      SpawnDistance - 20.0 < n.z <= SpawnDistance && OnLane(n.x) && n.kind == r.kind &&
      !n.hit && !n.passed && n.visible
    ensures SlotOk(s) && RespawnOk(r) ==> SlotOk(n)
  {
    var z := s.z + speed * dt;
    var moved := s.(z := z, passed := s.passed || PassBonus(s, speed, dt));
    if z > Despawn then
      moved.(z := SpawnDistance - r.jitter * 20.0, x := r.lane as real * LaneWidth,
             kind := r.kind, hit := false, passed := false, visible := true)
    else moved
  }

  function CountBonuses(slots: seq<Slot>, speed: real, dt: real): nat
    decreases |slots|
  {
    if slots == [] then 0
    else CountBonuses(slots[..|slots| - 1], speed, dt)
         + (if PassBonus(slots[|slots| - 1], speed, dt) then 1 else 0)
  }

  class ObstacleManager {
    const pool: array<Slot>
    var speed: real

    ghost predicate Valid()
      reads this, pool
    {
      pool.Length == PoolSize && forall k :: 0 <= k < pool.Length ==> SlotOk(pool[k])
    }

    /** Entry i starts 15 units further away than entry i - 1; the kinds are
      * the initial random draws. */
    constructor (kinds: seq<Kind>)
      requires |kinds| == PoolSize
      ensures Valid() && fresh(pool) && speed == PlayerSpeed
      ensures forall k :: 0 <= k < PoolSize ==> pool[k] == InitialSlot(k, kinds[k])
    {
      pool := new Slot[PoolSize](k requires 0 <= k < PoolSize => InitialSlot(k, kinds[k]));
      speed := PlayerSpeed;
    }

    /** The pool's frame: speed up a little, then advance every entry in place,
      * awarding 10 points per pass bonus. Nothing moves unless playing. */
    method Step(store: GameState, dt: real, rolls: seq<Respawn>) returns (store': GameState)
      requires Valid()
      requires |rolls| == PoolSize && forall k :: 0 <= k < |rolls| ==> RespawnOk(rolls[k])
      modifies this, pool
      ensures Valid()
      ensures store.phase != Playing ==>
        store' == store && speed == old(speed) && pool[..] == old(pool[..])
      ensures store.phase == Playing ==>
        speed == old(speed) + dt * 0.1 &&
        (forall k :: 0 <= k < PoolSize ==> pool[k] == AdvanceSlot(old(pool[k]), speed, dt, rolls[k])) &&
        store' == AddScore(store, PassPoints * CountBonuses(old(pool[..]), speed, dt) as real)
    {
      if store.phase != Playing {
        return store;
      }
      speed := speed + dt * 0.1;
      store' := AdvancePool(store, pool, speed, dt, rolls);
      forall k | 0 <= k < pool.Length
        ensures SlotOk(pool[k])
      {
        assert SlotOk(old(pool[k]));
      }
    }
  }

  /** The pool's loop: each entry is advanced in place, in order, and every
    * pass bonus is added to the score as it is found. */
  method AdvancePool(store: GameState, pool: array<Slot>, speed: real, dt: real, rolls: seq<Respawn>)
    returns (store': GameState)
    requires |rolls| == pool.Length
    modifies pool
    ensures forall k :: 0 <= k < pool.Length ==> pool[k] == AdvanceSlot(old(pool[k]), speed, dt, rolls[k])
    ensures store' == AddScore(store, PassPoints * CountBonuses(old(pool[..]), speed, dt) as real)
  {
    store' := store;
    ghost var orig := pool[..];
    var i := 0;
    while i < pool.Length
      invariant 0 <= i <= pool.Length
      invariant forall k :: 0 <= k < i ==> pool[k] == AdvanceSlot(orig[k], speed, dt, rolls[k])
      invariant forall k :: i <= k < pool.Length ==> pool[k] == orig[k]
      invariant store' == AddScore(store, PassPoints * CountBonuses(orig[..i], speed, dt) as real)
    {
      var s := pool[i];
      assert orig[..i + 1][..i] == orig[..i];
      if PassBonus(s, speed, dt) {
        store' := AddScore(store', PassPoints);
      }
      pool[i] := AdvanceSlot(s, speed, dt, rolls[i]);
      i := i + 1;
    }
    assert orig[..pool.Length] == orig;
  }

  /** The collision pass keeps every pool entry well formed. */
  lemma JudgeKeepsSlotOk(s: Slot, px: real, py: real)
    requires SlotOk(s)
    ensures SlotOk(JudgeSlot(s, px, py))
  {
  }

  // ----- one entry's life -----

  /** What can happen to one entry: the player's collision test, or a pool frame. */
  datatype SlotEvent = Judged(px: real, py: real) | Advanced(speed: real, dt: real, roll: Respawn)

  function After(s: Slot, e: SlotEvent): Slot
  {
    match e
    case Judged(px, py) => JudgeSlot(s, px, py)
    case Advanced(speed, dt, roll) => AdvanceSlot(s, speed, dt, roll)
  }

  function CoinAwards(s: Slot, evs: seq<SlotEvent>): nat
    decreases |evs|
  {
    if evs == [] then 0
    else (if evs[0].Judged? && FreshCoin(s, evs[0].px, evs[0].py) then 1 else 0)
         + CoinAwards(After(s, evs[0]), evs[1..])
  }

  function PassAwards(s: Slot, evs: seq<SlotEvent>): nat
    decreases |evs|
  {
    if evs == [] then 0
    else (if evs[0].Advanced? && PassBonus(s, evs[0].speed, evs[0].dt) then 1 else 0)
         + PassAwards(After(s, evs[0]), evs[1..])
  }

  function Recycled(s: Slot, evs: seq<SlotEvent>): nat
    decreases |evs|
  {
    if evs == [] then 0
    else (if evs[0].Advanced? && Recycles(s, evs[0].speed, evs[0].dt) then 1 else 0)
         + Recycled(After(s, evs[0]), evs[1..])
  }

  /** Whatever happens to an entry, its coin scores and its pass bonus are each
    * earned at most once per life: never more often than it is recycled, plus
    * once for the life it is in now (if not already spent). */
  lemma {:induction false} OncePerLife(s: Slot, evs: seq<SlotEvent>)
    ensures CoinAwards(s, evs) <= Recycled(s, evs) + (if s.hit then 0 else 1)
    ensures PassAwards(s, evs) <= Recycled(s, evs) + (if s.passed then 0 else 1)
    decreases |evs|
  {
    if evs != [] {
      OncePerLife(After(s, evs[0]), evs[1..]);
    }
  }
}
