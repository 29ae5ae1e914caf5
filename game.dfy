/**
 * The recycling pool of obstacles and bonuses of the runner game (game.js).
 *
 * A fixed set of children hangs off a group that scrolls towards the
 * player. Every frame the group's z offset becomes `speedZ * time`, and any
 * child that has scrolled past the player (relative z > 0) is set up again,
 * in place, 100 to 200 units ahead and lined up with the ship.
 *
 * Math.random() is replaced by explicit draws in [0, 1); the clock's delta is
 * a parameter of Update.
 */
module Runner {

  /** Number of obstacles and of bonuses created when the scene is set up. */
  const ObstacleCount: nat := 10
  const BonusCount: nat := 10

  /** A position or a scale: three real components. */
  datatype Vec3 = Vec3(x: real, y: real, z: real)

  /** The `type` kept in a child's user data. */
  datatype Tag = Obstacle | Bonus

  /**
   * One child of the scrolling group. `hue` is the hue of the child's own
   * material; only a bonus sets it (obstacles share one fixed colour).
   */
  datatype Entity = Entity(tag: Tag, position: Vec3, scale: Vec3, hue: real)

  /** A value Math.random() can return. */
  predicate IsDraw(r: real) {
    0.0 <= r < 1.0
  }

  /** The five draws setupObstacle consumes: three scales, then x and z. */
  datatype ObstacleDraws = ObstacleDraws(sx: real, sy: real, sz: real, x: real, z: real) {
    predicate Valid() {
      IsDraw(sx) && IsDraw(sy) && IsDraw(sz) && IsDraw(x) && IsDraw(z)
    }
  }

  /** The three draws setupBonus consumes: the price, then x and z. */
  datatype BonusDraws = BonusDraws(price: real, x: real, z: real) {
    predicate Valid() {
      IsDraw(price) && IsDraw(x) && IsDraw(z)
    }
  }

  /** The draws a child would consume if it is recycled on this frame. */
  datatype Draws = Draws(obstacle: ObstacleDraws, bonus: BonusDraws) {
    predicate Valid() {
      obstacle.Valid() && bonus.Valid()
    }
  }

  function Floor(x: real): (n: int)
    ensures n as real <= x < n as real + 1.0
  {
    x.Floor
  }

  function Ceil(x: real): (n: int)
    ensures x <= n as real < x + 1.0
  {
    -((-x).Floor)
  }

  /** A draw scales a width w to a point of the half-open interval from 0 towards w. */
  lemma ScaledDraw(r: real, w: real)
    requires IsDraw(r)
    ensures w >= 0.0 ==> 0.0 <= r * w <= w
    ensures w > 0.0 ==> r * w < w
    ensures w < 0.0 ==> w < r * w <= 0.0
  {
    assert w - r * w == (1.0 - r) * w;
    if w > 0.0 {
      assert (1.0 - r) * w > 0.0;
    } else if w < 0.0 {
      assert (1.0 - r) * w < 0.0;
    }
  }

  /** randomFloat(min, max) for the draw r: uniform over [min, max). */
  function RandomFloat(r: real, min: real, max: real): (v: real)
    requires IsDraw(r)
    ensures min <= max ==> min <= v <= max
    ensures min < max ==> v < max
    ensures max < min ==> max < v <= min
  {
    var width := max - min;
    ScaledDraw(r, width);
    r * width + min
  }

  /**
   * randomInt(min, max) for the draw r. The bounds are rounded inwards but the
   * result is not rounded, so it is a real in [ceil(min), floor(max)). When no
   * integer lies between min and max, it falls in (floor(max), ceil(min)].
   */
  function RandomInt(r: real, min: real, max: real): (v: real)
    requires IsDraw(r)
    ensures Ceil(min) <= Floor(max) ==> Ceil(min) as real <= v <= Floor(max) as real
    ensures Ceil(min) < Floor(max) ==> v < Floor(max) as real
    ensures Floor(max) < Ceil(min) ==> Floor(max) as real < v <= Ceil(min) as real
  {
    var lo := Ceil(min) as real;
    var hi := Floor(max) as real;
    var width := hi - lo;
    ScaledDraw(r, width);
    r * width + lo
  }

  /** The price setupBonus draws with randomInt(5, 20). */
  function Price(d: BonusDraws): (p: real)
    requires d.Valid()
    ensures 5.0 <= p < 20.0
  {
    RandomInt(d.price, 5.0, 20.0)
  }

  /** Obstacle shape: each scale component in [0.5, 2), resting on the ground. */
  predicate ObstacleShaped(e: Entity) {
    && 0.5 <= e.scale.x < 2.0
    && 0.5 <= e.scale.y < 2.0
    && 0.5 <= e.scale.z < 2.0
    && e.position.y == e.scale.y * 0.5
  }

  /**
   * Bonus shape: a uniform scale in [0.125, 0.5), resting on the ground, with
   * hue 0.5 above its size, hence in [0.625, 1).
   */
  predicate BonusShaped(e: Entity) {
    && e.scale.x == e.scale.y == e.scale.z
    && 0.125 <= e.scale.x < 0.5
    && e.hue == 0.5 + e.scale.x
    && e.position.y == e.scale.y * 0.5
  }

  /** The shape the setup function for its tag gives a child. */
  predicate Shaped(e: Entity) {
    if e.tag == Obstacle then ObstacleShaped(e) else BonusShaped(e)
  }

  /** x within [refX - 30, refX + 30) and z 100 to 200 units ahead of refZ. */
  predicate PlacedNear(e: Entity, refX: real, refZ: real) {
    && refX - 30.0 <= e.position.x < refX + 30.0
    && refZ - 200.0 < e.position.z <= refZ - 100.0
  }

  /** setupObstacle(obj, refX, refZ): new random scales and a new position; nothing else of obj changes. */
  function SetupObstacle(obj: Entity, refX: real, refZ: real, d: ObstacleDraws): (r: Entity)
    requires d.Valid()
    ensures r.tag == obj.tag && r.hue == obj.hue
    ensures ObstacleShaped(r)
    ensures PlacedNear(r, refX, refZ)
  {
    var scale := Vec3(RandomFloat(d.sx, 0.5, 2.0), RandomFloat(d.sy, 0.5, 2.0), RandomFloat(d.sz, 0.5, 2.0));
    obj.(scale := scale,
         position := Vec3(refX + RandomFloat(d.x, -30.0, 30.0),
                          scale.y * 0.5,
                          refZ - 100.0 - RandomFloat(d.z, 0.0, 100.0)))
  }

  /** setupBonus(obj, refX, refZ): a new price sets size and hue, then a new position; the tag is kept. */
  function SetupBonus(obj: Entity, refX: real, refZ: real, d: BonusDraws): (r: Entity)
    requires d.Valid()
    ensures r.tag == obj.tag
    ensures r.scale.x == Price(d) / 40.0
    ensures BonusShaped(r)
    ensures PlacedNear(r, refX, refZ)
  {
    var price := Price(d);
    var ratio := price / 20.0;
    var size := ratio * 0.5;
    var hue := 0.5 + 0.5 * ratio;
    obj.(scale := Vec3(size, size, size),
         hue := hue,
         position := Vec3(refX + RandomFloat(d.x, -30.0, 30.0),
                          size * 0.5,
                          refZ - 100.0 - RandomFloat(d.z, 0.0, 100.0)))
  }

  /** A larger price gives a strictly larger hue, and only a larger price does. */
  lemma BonusHueIncreasesWithPrice(a: Entity, b: Entity, refX: real, refZ: real, da: BonusDraws, db: BonusDraws)
    requires da.Valid() && db.Valid()
    ensures Price(da) < Price(db) <==> SetupBonus(a, refX, refZ, da).hue < SetupBonus(b, refX, refZ, db).hue
  {
  }

  /** The price is not always a whole number: the draw 0.5 gives 12.5. */
  lemma PriceNeedNotBeWhole()
    ensures Price(BonusDraws(0.5, 0.0, 0.0)) == 12.5
  {
  }

  /** A child as spawnObstacle/spawnBonus create it, before setup: at the origin, unit scale, black. */
  function Spawned(tag: Tag): Entity {
    Entity(tag, Vec3(0.0, 0.0, 0.0), Vec3(1.0, 1.0, 1.0), 0.0)
  }

  /**
   * What one updateGrid pass does to one child, given the group offset and the
   * ship's x: a child whose relative z is past 0 is set up again by the setup
   * of its tag, ahead of the ship; any other child is left as it is.
   */
  function Recycle(child: Entity, offset: real, shipX: real, d: Draws): (r: Entity)
    requires d.Valid()
    ensures r.tag == child.tag
    ensures child.tag == Obstacle ==> r.hue == child.hue
    ensures child.position.z + offset <= 0.0 ==> r == child
    ensures child.position.z + offset > 0.0 ==> Shaped(r) && PlacedNear(r, shipX, -offset)
    ensures -200.0 < child.position.z + offset ==> -200.0 < r.position.z + offset
    ensures r.position.z + offset <= 0.0
  {
    if child.position.z + offset > 0.0 then
      if child.tag == Obstacle then SetupObstacle(child, shipX, -offset, d.obstacle)
      else SetupBonus(child, shipX, -offset, d.bonus)
    else
      child
  }

  /**
   * A child at rest in the pool: shaped by its setup, within 30 of the ship's
   * x, and between 200 units ahead of the player and the player's plane.
   */
  predicate Settled(e: Entity, shipX: real, offset: real) {
    && Shaped(e)
    && shipX - 30.0 <= e.position.x < shipX + 30.0
    && -200.0 < e.position.z + offset <= 0.0
  }

  /** When the offset does not go back, a settled child is still settled after a recycling pass. */
  lemma RecycleKeepsSettled(child: Entity, before: real, after: real, shipX: real, d: Draws)
    requires d.Valid()
    requires Settled(child, shipX, before) && before <= after
    ensures Settled(Recycle(child, after, shipX, d), shipX, after)
  {
  }

  /** The tag layout of the pool: obstacles first, then bonuses. */
  function TagAt(i: nat): Tag {
    if i < ObstacleCount then Obstacle else Bonus
  }

  /** The game: the clock time, the group's z offset and its fixed array of children. */
  class Game {
    const speedZ: real
    /** ship.position.x; nothing in the game moves the ship. */
    const shipX: real
    /** The children of the scrolling group; the array itself is never replaced. */
    const children: array<Entity>
    var time: real
    /** objectsParent.position.z */
    var offset: real

    ghost predicate Valid()
      reads this, children
    {
      && speedZ == 15.0
      && children.Length == ObstacleCount + BonusCount
      && offset == speedZ * time
      && (forall i :: 0 <= i < children.Length ==> children[i].tag == TagAt(i))
      && (forall i :: 0 <= i < children.Length ==> Settled(children[i], shipX, offset))
    }

    /** initializeScene: ten obstacles, then ten bonuses, each set up around the origin. */
    constructor (obstacleDraws: seq<ObstacleDraws>, bonusDraws: seq<BonusDraws>)
      requires |obstacleDraws| == ObstacleCount && |bonusDraws| == BonusCount
      requires forall i :: 0 <= i < |obstacleDraws| ==> obstacleDraws[i].Valid()
      requires forall i :: 0 <= i < |bonusDraws| ==> bonusDraws[i].Valid()
      ensures Valid() && fresh(children)
      ensures time == 0.0 && offset == 0.0 && shipX == 0.0
      ensures forall i :: 0 <= i < ObstacleCount ==>
        children[i] == SetupObstacle(Spawned(Obstacle), 0.0, 0.0, obstacleDraws[i])
      ensures forall i :: 0 <= i < BonusCount ==>
        children[ObstacleCount + i] == SetupBonus(Spawned(Bonus), 0.0, 0.0, bonusDraws[i])
    {
      speedZ := 15.0;
      shipX := 0.0;
      time := 0.0;
      offset := 0.0;
      var pool := new Entity[ObstacleCount + BonusCount];
      for i := 0 to ObstacleCount
        invariant forall k :: 0 <= k < i ==>
          pool[k] == SetupObstacle(Spawned(Obstacle), 0.0, 0.0, obstacleDraws[k])
      {
        pool[i] := SetupObstacle(Spawned(Obstacle), 0.0, 0.0, obstacleDraws[i]);
      }
      for i := 0 to BonusCount
        invariant forall k :: 0 <= k < ObstacleCount ==>
          pool[k] == SetupObstacle(Spawned(Obstacle), 0.0, 0.0, obstacleDraws[k])
        invariant forall k :: 0 <= k < i ==>
          pool[ObstacleCount + k] == SetupBonus(Spawned(Bonus), 0.0, 0.0, bonusDraws[k])
      {
        pool[ObstacleCount + i] := SetupBonus(Spawned(Bonus), 0.0, 0.0, bonusDraws[i]);
      }
      forall i | 0 <= i < pool.Length
        ensures pool[i].tag == TagAt(i) && Settled(pool[i], 0.0, 0.0)
      {
        if i >= ObstacleCount {
          var k := i - ObstacleCount;
          assert pool[ObstacleCount + k] == SetupBonus(Spawned(Bonus), 0.0, 0.0, bonusDraws[k]);
        }
      }
      children := pool;
    }

    /**
     * updateGrid: the offset becomes speedZ * time, then every child is passed
     * through Recycle in place, child i consuming draws[i] if it is recycled.
     */
    method UpdateGrid(draws: seq<Draws>)
      requires |draws| == children.Length
      requires forall i :: 0 <= i < |draws| ==> draws[i].Valid()
      modifies this`offset, children
      ensures offset == speedZ * time
      ensures forall i :: 0 <= i < children.Length ==>
        children[i] == Recycle(old(children[i]), offset, shipX, draws[i])
    {
      offset := speedZ * time;
      var i := 0;
      while i < children.Length
        invariant 0 <= i <= children.Length
        invariant offset == speedZ * time
        invariant forall k :: 0 <= k < i ==>
          children[k] == Recycle(old(children[k]), offset, shipX, draws[k])
        invariant forall k :: i <= k < children.Length ==> children[k] == old(children[k])
      {
        var child := children[i];
        if child.position.z + offset > 0.0 {
          if child.tag == Obstacle {
            children[i] := SetupObstacle(child, shipX, -offset, draws[i].obstacle);
          } else {
            children[i] := SetupBonus(child, shipX, -offset, draws[i].bonus);
          }
        }
        i := i + 1;
      }
    }

    /**
     * update: advance the time by the clock's delta, then run updateGrid.
     * The offset never goes back, and every child stays settled.
     */
    method Update(delta: real, draws: seq<Draws>)
      requires Valid()
      requires delta >= 0.0
      requires |draws| == children.Length
      requires forall i :: 0 <= i < |draws| ==> draws[i].Valid()
      modifies this`time, this`offset, children
      ensures Valid()
      ensures time == old(time) + delta
      ensures old(offset) <= offset
      ensures forall i :: 0 <= i < children.Length ==>
        children[i] == Recycle(old(children[i]), offset, shipX, draws[i])
    {
      assert offset == 15.0 * time;
      time := time + delta;
      UpdateGrid(draws);
      assert offset == 15.0 * old(time) + 15.0 * delta;
      forall i | 0 <= i < children.Length
        ensures Settled(children[i], shipX, offset)
      {
        RecycleKeepsSettled(old(children[i]), old(offset), offset, shipX, draws[i]);
      }
    }
  }
}
