/** generatePlatform and generateItem: the weighted type pick and the shape of
    what they create, as functions of the Math.random draws they consume. */
module Generator {
  import opened Entities

  /** The two parallel tables of generatePlatform, in declaration order. */
  const PlatformTypes: seq<PlatformType> := [Green, Blue, Green, Green, Spring, Moving, Breakable]
  const Weights: seq<real> := [0.3, 0.2, 0.3, 0.1, 0.05, 0.03, 0.02]

  /** The 6-slot table of generateItem. */
  const ItemTypes: seq<ItemType> := [Coin, Coin, Coin, Coin, Shield, Magnet]

  /** Reference definition of the pick: cumulative upper bounds
      0.3 / 0.5 / 0.8 / 0.9 / 0.95 / 0.98 / 1.0, falling back to green. */
  function TypeByBounds(r: real): PlatformType {
    if r < 0.3 then Green
    else if r < 0.5 then Blue
    else if r < 0.8 then Green
    else if r < 0.9 then Green
    else if r < 0.95 then Spring
    else if r < 0.98 then Moving
    else if r < 1.0 then Breakable
    else Green
  }

  /** Partial sums of Weights: the cumulative bound reached before slot n. */
  ghost function Cumulative(n: nat): real
    requires n <= |Weights|
  {
    if n == 0 then 0.0 else Cumulative(n - 1) + Weights[n - 1]
  }

  /** The loop of generatePlatform: subtract each weight from the draw until the
      remainder falls below the current weight. */
  method PickPlatformType(r: real) returns (kind: PlatformType)
    ensures kind == TypeByBounds(r)
  {
    var value := r;
    kind := Green;
    var i := 0;
    while i < |PlatformTypes|
      invariant 0 <= i <= |PlatformTypes|
      invariant value == r - Cumulative(i)
      invariant i > 0 ==> r >= Cumulative(i)
      invariant kind == Green
    {
      if value < Weights[i] {
        kind := PlatformTypes[i];
        break;
      }
      value := value - Weights[i];
      i := i + 1;
    }
    BoundsOfSlots();
  }

  /** The partial sums are exactly the cumulative bounds of TypeByBounds. */
  lemma BoundsOfSlots()
    ensures Cumulative(0) == 0.0 && Cumulative(1) == 0.3 && Cumulative(2) == 0.5
    ensures Cumulative(3) == 0.8 && Cumulative(4) == 0.9 && Cumulative(5) == 0.95
    ensures Cumulative(6) == 0.98 && Cumulative(7) == 1.0
  {
  }

  /** No draw yields a rocket or a broken platform, and for draws in [0, 1) the
      fallback is never taken: breakable is exactly the top 2 percent. */
  lemma TypeByBoundsRange(r: real)
    ensures TypeByBounds(r) != Rocket && TypeByBounds(r) != Broken
    ensures TypeByBounds(r) == Blue <==> 0.3 <= r < 0.5
    ensures TypeByBounds(r) == Spring <==> 0.9 <= r < 0.95
    ensures TypeByBounds(r) == Moving <==> 0.95 <= r < 0.98
    ensures TypeByBounds(r) == Breakable <==> 0.98 <= r < 1.0
    ensures 0.0 <= r < 1.0 ==> (TypeByBounds(r) == Green <==> r < 0.3 || 0.5 <= r < 0.9)
  {
  }

  /** The platform generatePlatform(offsetY) pushes, from its draws: the type draw,
      the x draw and, for a moving platform only, the speed draw. */
  function MakePlatform(offsetY: real, rType: real, rX: real, rSpeed: real): (q: Platform)
    ensures q.kind == TypeByBounds(rType) && q.kind != Rocket && q.kind != Broken
    ensures q.health == 3 <==> q.kind == Breakable
    ensures q.kind != Breakable ==> q.health == 1
    ensures q.y == CanvasHeight - 50.0 - offsetY
    ensures q.kind != Moving ==> q.vx == 0.0
    ensures 0.0 <= rX < 1.0 ==> 0.0 <= q.x < CanvasWidth - PlatformWidth
    ensures q.kind == Moving && 0.0 <= rSpeed < 1.0 ==> -1.5 <= q.vx < 1.5
  {
    var kind := TypeByBounds(rType);
    // 330 is the canvas width less the platform width
    Platform(rX * 330.0, CanvasHeight - 50.0 - offsetY, kind,
             if kind == Breakable then 3 else 1,
             if kind == Moving then (rSpeed - 0.5) * 3.0 else 0.0)
  }

  /** The number of draws generatePlatform consumes for the platform it made. */
  function PlatformDraws(q: Platform): nat { if q.kind == Moving then 3 else 2 }

  /** Math.floor(r * 6) as an index into the item table. */
  function ItemSlot(r: real): (slot: int)
    requires 0.0 <= r < 1.0
    ensures 0 <= slot < |ItemTypes|
    ensures slot as real <= r * 6.0 < slot as real + 1.0
  {
    (r * 6.0).Floor
  }

  /** Slots 0-3 are coins, slot 4 a shield, slot 5 a magnet. */
  lemma ItemSlots(r: real)
    requires 0.0 <= r < 1.0
    ensures ItemTypes[ItemSlot(r)] == Coin <==> r * 6.0 < 4.0
    ensures ItemTypes[ItemSlot(r)] == Shield <==> 4.0 <= r * 6.0 < 5.0
    ensures ItemTypes[ItemSlot(r)] == Magnet <==> 5.0 <= r * 6.0
  {
  }

  /** The item generateItem pushes, from its type, x and y draws (its fourth draw,
      the animation phase, is consumed but not kept). */
  function MakeItem(cameraY: real, rType: real, rX: real, rY: real): (it: Item)
    requires 0.0 <= rType < 1.0
    ensures it.kind == ItemTypes[ItemSlot(rType)] && !it.collected
    ensures 0.0 <= rY < 1.0 ==> cameraY - 300.0 < it.y <= cameraY - 100.0
    ensures 0.0 <= rX < 1.0 ==> 0.0 <= it.x < CanvasWidth - ItemSize
  {
    // 380 is the canvas width less the item size
    Item(rX * 380.0, cameraY - 100.0 - rY * 200.0,
         ItemTypes[ItemSlot(rType)], false)
  }

  /** The draws one generateItem consumes. */
  const ItemDraws: nat := 4
}
