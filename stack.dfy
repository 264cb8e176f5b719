// The tower-builder: a block swings over the top of the tower along one axis;
// placing it keeps the part that overlaps the top block and drops the rest
// as debris. The geometry is pure (it works on fresh copies of the top
// block); the tower, the debris list, the current axis and the swing speed
// are the scene's state.

module Stack {
  import opened Common
  import opened Store

  const InitialSize: real := 3.0
  const BaseHue: int := 200
  const InitialSwingSpeed: real := 3.0
  const SwingSpeedStep: real := 0.1

  datatype Axis = X | Z

  datatype Point = Point(x: real, y: real, z: real)

  /** A box with centre pos, footprint w (along x) by d (along z), and the hue
    * of its colour. Debris pieces have the same shape. */
  datatype Block = Block(pos: Point, w: real, d: real, hue: int)

  function Flip(a: Axis): (r: Axis)
    ensures r != a
  {
    if a == X then Z else X
  }

  function Along(p: Point, a: Axis): real
  {
    if a == X then p.x else p.z
  }

  function Across(p: Point, a: Axis): real
  {
    if a == X then p.z else p.x
  }

  function SizeAlong(b: Block, a: Axis): real
  {
    if a == X then b.w else b.d
  }

  function SizeAcross(b: Block, a: Axis): real
  {
    if a == X then b.d else b.w
  }

  /** The two ends of an interval given by its centre and its length. */
  function Lo(centre: real, size: real): real { centre - size / 2.0 }
  function Hi(centre: real, size: real): real { centre + size / 2.0 }

  /** The block the tower starts with: 3 by 3 at the origin. */
  function Base(): (b: Block)
    ensures b.pos == Point(0.0, 0.0, 0.0)
    ensures b.w == InitialSize && b.d == InitialSize && b.hue == BaseHue
  {
    Block(Point(0.0, 0.0, 0.0), InitialSize, InitialSize, BaseHue)
  }

  /** Hue of the block placed on a tower of n blocks. */
  function Hue(n: nat): (h: int)
    ensures 0 <= h < 360
  {
    (n * 15) % 360
  }

  datatype Placement = Miss | Placed(block: Block, debris: Block)

  /** Cuts the active block (same footprint as prev, centred at active on the
    * current axis) against the top block prev. The kept part is the
    * intersection of the two intervals on that axis, the debris is the
    * overhang, and everything across the axis is copied from prev. */
  function Cut(prev: Block, active: Point, axis: Axis, hue: int): (c: Placement)
    ensures
      var pc, a, ps := Along(prev.pos, axis), Along(active, axis), SizeAlong(prev, axis);
      c.Placed? <==> (Lo(pc, ps) < Hi(a, ps) && Lo(a, ps) < Hi(pc, ps))
    ensures c.Placed? ==>
      var pc, a, ps := Along(prev.pos, axis), Along(active, axis), SizeAlong(prev, axis);
      var kc, ks := Along(c.block.pos, axis), SizeAlong(c.block, axis);
      ks > 0.0 &&
      Lo(kc, ks) == Max(Lo(pc, ps), Lo(a, ps)) && Hi(kc, ks) == Min(Hi(pc, ps), Hi(a, ps))
    ensures c.Placed? ==>
      SizeAcross(c.block, axis) == SizeAcross(prev, axis) &&
      Across(c.block.pos, axis) == Across(prev.pos, axis) &&
      c.block.pos.y == prev.pos.y && c.block.hue == hue
    ensures c.Placed? ==>
      var pc, a, ps := Along(prev.pos, axis), Along(active, axis), SizeAlong(prev, axis);
      var dc, ds := Along(c.debris.pos, axis), SizeAlong(c.debris, axis);
      ds + SizeAlong(c.block, axis) == ps &&
      (a > pc ==> Lo(dc, ds) == Hi(pc, ps) && Hi(dc, ds) == Hi(a, ps)) &&
      (a <= pc ==> Lo(dc, ds) == Lo(a, ps) && Hi(dc, ds) == Lo(pc, ps))
    ensures c.Placed? ==>
      SizeAcross(c.debris, axis) == SizeAcross(prev, axis) &&
      Across(c.debris.pos, axis) == Across(prev.pos, axis) &&
      c.debris.pos.y == active.y && c.debris.hue == hue
  {
    var delta := Along(active, axis) - Along(prev.pos, axis);
    var unused := Abs(delta);
    var overlap := SizeAlong(prev, axis) - unused;
    if overlap <= 0.0 then Miss
    else
      var half := SizeAlong(prev, axis) / 2.0 + unused / 2.0;
      var offset := if delta > 0.0 then half else -half;
      if axis == X then
        var pos := Point(prev.pos.x + delta / 2.0, prev.pos.y, prev.pos.z);
        Placed(Block(pos, overlap, prev.d, hue),
               Block(Point(prev.pos.x + offset, active.y, pos.z), unused, prev.d, hue))
      else
        var pos := Point(prev.pos.x, prev.pos.y, prev.pos.z + delta / 2.0);
        Placed(Block(pos, prev.w, overlap, hue),
               Block(Point(pos.x, active.y, prev.pos.z + offset), prev.w, unused, hue))
  }

  /** The upper block's footprint has positive size and lies inside the lower one's. */
  predicate Within(upper: Block, lower: Block)
  {
    upper.w > 0.0 && upper.d > 0.0 &&
    Lo(lower.pos.x, lower.w) <= Lo(upper.pos.x, upper.w) &&
    Hi(upper.pos.x, upper.w) <= Hi(lower.pos.x, lower.w) &&
    Lo(lower.pos.z, lower.d) <= Lo(upper.pos.z, upper.d) &&
    Hi(upper.pos.z, upper.d) <= Hi(lower.pos.z, lower.d)
  }

  /** A tower: each block rests inside the footprint of the one below, and
    * every block keeps the base's y (the placement copies it). */
  predicate Tower(s: seq<Block>)
  {
    |s| >= 1 && s[0] == Base() &&
    (forall i :: 0 <= i < |s| ==> s[i].pos.y == 0.0) &&
    (forall i :: 1 <= i < |s| ==> Within(s[i], s[i - 1]))
  }

  /** A successful placement on a block of positive size rests inside it. */
  lemma PlacedWithin(prev: Block, active: Point, axis: Axis, hue: int)
    requires prev.w > 0.0 && prev.d > 0.0
    requires Cut(prev, active, axis, hue).Placed?
    ensures Within(Cut(prev, active, axis, hue).block, prev)
  {
  }

  lemma WithinTransitive(a: Block, b: Block, c: Block)
    requires Within(a, b) && Within(b, c)
    ensures Within(a, c)
  {
  }

  /** Every block of a tower lies inside the base, so all sizes stay in (0, 3]. */
  lemma {:induction false} TowerInsideBase(s: seq<Block>, i: nat)
    requires Tower(s) && 1 <= i < |s|
    ensures Within(s[i], s[0])
    ensures 0.0 < s[i].w <= InitialSize && 0.0 < s[i].d <= InitialSize
    decreases i
  {
    if i > 1 {
      TowerInsideBase(s, i - 1);
      WithinTransitive(s[i], s[i - 1], s[0]);
    }
  }

  /** A tower grows only by a successful placement on its top block. */
  lemma {:induction false} TowerGrows(s: seq<Block>, active: Point, axis: Axis)
    requires Tower(s)
    requires Cut(s[|s| - 1], active, axis, Hue(|s|)).Placed?
    ensures Tower(s + [Cut(s[|s| - 1], active, axis, Hue(|s|)).block])
  {
    var top := s[|s| - 1];
    if |s| > 1 {
      TowerInsideBase(s, |s| - 1);
    }
    PlacedWithin(top, active, axis, Hue(|s|));
    var t := s + [Cut(top, active, axis, Hue(|s|)).block];
    assert forall i :: 0 <= i < |s| ==> t[i] == s[i];
  }

  class StackScene {
    var stack: seq<Block>
    var debris: seq<Block>
    var axis: Axis
    var speed: real

    ghost predicate Valid()
      reads this
    {
      Tower(stack)
    }

    constructor ()
      ensures Valid()
      ensures stack == [Base()] && debris == []
      ensures axis == X && speed == InitialSwingSpeed
    {
      stack := [Base()];
      debris := [];
      axis := X;
      speed := InitialSwingSpeed;
    }

    /** The place action (space, click or touch). Ignored unless a game is in
      * progress and the swinging block is mounted; a miss ends the game and
      * changes nothing else; a hit scores 1, appends the kept block and the
      * debris, flips the axis and speeds up the swing. */
    method HandlePlace(store: GameState, active: Option<Point>) returns (store': GameState)
      requires Valid()
      modifies this
      ensures Valid()
      ensures store.phase != Playing || active.None? ==> store' == store && unchanged(this)
      ensures store.phase == Playing && active.Some? ==>
        var c := Cut(old(stack)[|old(stack)| - 1], active.value, old(axis), Hue(|old(stack)|));
        (c.Miss? ==> store' == EndGame(store) && unchanged(this)) &&
        (c.Placed? ==>
          store' == AddScore(store, 1.0) &&
          stack == old(stack) + [c.block] && debris == old(debris) + [c.debris] &&
          axis == Flip(old(axis)) && speed == old(speed) + SwingSpeedStep)
    {
      if store.phase != Playing || active.None? {
        return store;
      }
      var c := Cut(stack[|stack| - 1], active.value, axis, Hue(|stack|));
      if c.Miss? {
        return EndGame(store);
      }
      TowerGrows(stack, active.value, axis);
      store' := AddScore(store, 1.0);
      stack := stack + [c.block];
      debris := debris + [c.debris];
      axis := Flip(axis);
      speed := speed + SwingSpeedStep;
    }
  }

  /** The worked example: a block offset by 1 on a 3-wide top keeps 2 and
    * drops 1; offset by 3.5 it misses. */
  lemma PlacementExamples()
    ensures Cut(Base(), Point(1.0, 1.0, 0.0), X, 15).Placed?
    ensures Cut(Base(), Point(1.0, 1.0, 0.0), X, 15).block.w == 2.0
    ensures Cut(Base(), Point(1.0, 1.0, 0.0), X, 15).debris.w == 1.0
    ensures Cut(Base(), Point(3.5, 1.0, 0.0), X, 15).Miss?
  {
  }
}
