/** The per-element rules of one tick: moving platforms, the magnet pull, the
    power-up timers, item pickup and the item sweep, the pruning filters, and the
    initial world. */
module World {
  import opened Entities
  import opened Generator
  import opened Collision

  // ---------------------------------------------------------------- platforms

  /** The right end of the track of a moving platform. */
  const TrackEnd: real := CanvasWidth - PlatformWidth

  /** A moving platform is never more than one step of its speed outside its track,
      and outside the track it is already heading back. */
  predicate OnTrack(q: Platform) {
    -1.5 <= q.vx <= 1.5 &&
    -Abs(q.vx) <= q.x <= TrackEnd + Abs(q.vx) &&
    (q.x < 0.0 ==> q.vx > 0.0) &&
    (q.x > TrackEnd ==> q.vx < 0.0)
  }

  /** The invariant every platform in the list keeps: health 1..3 while breakable,
      0 once broken, 1 for every other type; moving platforms stay on their track. */
  predicate PlatformOk(q: Platform) {
    (q.kind == Breakable ==> 1 <= q.health <= 3) &&
    (q.kind == Broken ==> q.health == 0) &&
    (q.kind != Breakable && q.kind != Broken ==> q.health == 1) &&
    (q.kind == Moving ==> OnTrack(q))
  }

  /** updateSpecialPlatforms for one platform: a moving platform advances by its
      speed and turns round when it reaches either end of the track. */
  function MovePlatform(q: Platform): (r: Platform)
    ensures q.kind != Moving ==> r == q
    ensures r.kind == q.kind && r.health == q.health && r.y == q.y
    ensures q.kind == Moving ==> r.x == q.x + q.vx && Abs(r.vx) == Abs(q.vx)
    ensures q.kind == Moving && (r.x <= 0.0 || r.x >= TrackEnd) ==> r.vx == -q.vx
    ensures q.kind == Moving && 0.0 < r.x < TrackEnd ==> r.vx == q.vx
  {
    if q.kind == Moving then
      var x := q.x + q.vx;
      if x <= 0.0 || x >= TrackEnd then q.(x := x, vx := -q.vx) else q.(x := x)
    else q
  }

  /** Moving a platform keeps the platform invariant. */
  lemma MovePlatformKeepsOk(q: Platform)
    requires PlatformOk(q)
    ensures PlatformOk(MovePlatform(q))
  {
  }

  /** Hitting a platform keeps the platform invariant. */
  lemma HitKeepsOk(q: Platform)
    requires PlatformOk(q)
    ensures PlatformOk(Hit(q))
  {
  }

  /** What generatePlatform makes satisfies the platform invariant. */
  lemma MadePlatformOk(offsetY: real, rType: real, rX: real, rSpeed: real)
    requires 0.0 <= rX < 1.0 && 0.0 <= rSpeed < 1.0
    ensures PlatformOk(MakePlatform(offsetY, rType, rX, rSpeed))
  {
  }

  /** A landing keeps the platform invariant of the platform, the run-state invariant,
      and the player's rocket and shield flags in step with the run state. */
  lemma CollideKeepsOk(p: Player, ls: LocalState, cameraY: real, q: Platform)
    requires PlatformOk(q) && LocalOk(ls)
    requires p.isRocket == ls.rocketActive && p.hasShield == ls.shieldActive
    ensures var l := Collide(p, ls, cameraY, q);
      PlatformOk(l.platform) && LocalOk(l.local) &&
      l.player.isRocket == l.local.rocketActive && l.player.hasShield == l.local.shieldActive
  {
    var first := Respond(p, ls, q);
    RespondKeepsOk(p, ls, q);
    if first.platform.kind != Broken {
      SnapKeepsOk(first, cameraY);
    }
  }

  /** The whole landing pass keeps the same invariants, for every platform of the list. */
  lemma {:induction false} PassKeepsOk(p: Player, ls: LocalState, cameraY: real, ps: seq<Platform>)
    requires LocalOk(ls) && p.isRocket == ls.rocketActive && p.hasShield == ls.shieldActive
    requires forall k :: 0 <= k < |ps| ==> PlatformOk(ps[k])
    ensures var r := LandingPass(p, ls, cameraY, ps);
      LocalOk(r.local) && r.player.isRocket == r.local.rocketActive &&
      r.player.hasShield == r.local.shieldActive &&
      forall k :: 0 <= k < |r.platforms| ==> PlatformOk(r.platforms[k])
  {
    if ps != [] {
      var n := |ps| - 1;
      PassKeepsOk(p, ls, cameraY, ps[..n]);
      var prev := LandingPass(p, ls, cameraY, ps[..n]);
      var r := LandingPass(p, ls, cameraY, ps);
      if Lands(prev.player, ps[n]) {
        CollideKeepsOk(prev.player, prev.local, cameraY, ps[n]);
      }
      assert r.platforms[..n] == prev.platforms;
      forall k | 0 <= k < |r.platforms| ensures PlatformOk(r.platforms[k]) {
        if k < n {
          assert r.platforms[k] == prev.platforms[k];
        }
      }
    }
  }

  lemma RespondKeepsOk(p: Player, ls: LocalState, q: Platform)
    requires PlatformOk(q) && LocalOk(ls)
    requires p.isRocket == ls.rocketActive && p.hasShield == ls.shieldActive
    ensures var l := Respond(p, ls, q);
      PlatformOk(l.platform) && LocalOk(l.local) &&
      l.player.isRocket == l.local.rocketActive && l.player.hasShield == l.local.shieldActive
  {
    HitKeepsOk(q);
  }

  lemma SnapKeepsOk(l: Landing, cameraY: real)
    requires LocalOk(l.local)
    requires l.player.isRocket == l.local.rocketActive && l.player.hasShield == l.local.shieldActive
    ensures var r := Snap(l, cameraY);
      r.platform == l.platform && LocalOk(r.local) &&
      r.player.isRocket == r.local.rocketActive && r.player.hasShield == r.local.shieldActive
  {
  }

  // ---------------------------------------------------------------- magnet

  /** activateMagnet for one item: an uncollected coin whose centre is closer than 150
      to the player's centre moves a tenth of the way towards it. */
  function Attract(p: Player, it: Item): Item {
    if it.kind == Coin && !it.collected then
      var dx := (p.x + PlayerWidth / 2.0) - (it.x + ItemSize / 2.0);
      var dy := (p.y + PlayerHeight / 2.0) - (it.y + ItemSize / 2.0);
      if dx * dx + dy * dy < 22500.0 then it.(x := it.x + dx * 0.1, y := it.y + dy * 0.1) else it
    else it
  }

  /** The offset from an item's centre to the player's centre. */
  function GapX(p: Player, it: Item): real { (p.x + PlayerWidth / 2.0) - (it.x + ItemSize / 2.0) }
  function GapY(p: Player, it: Item): real { (p.y + PlayerHeight / 2.0) - (it.y + ItemSize / 2.0) }

  /** A pulled coin closes 10 percent of the gap on both axes; nothing else moves. */
  lemma MagnetClosesGap(p: Player, it: Item)
    ensures var r := Attract(p, it);
      var pulled := it.kind == Coin && !it.collected &&
                    GapX(p, it) * GapX(p, it) + GapY(p, it) * GapY(p, it) < 22500.0;
      (pulled ==> GapX(p, r) == 0.9 * GapX(p, it) && GapY(p, r) == 0.9 * GapY(p, it) &&
                  r == it.(x := r.x, y := r.y)) &&
      (!pulled ==> r == it)
  {
  }

  // ---------------------------------------------------------------- timers

  /** One power-up: its flag and its remaining ticks. */
  datatype Timer = Timer(active: bool, time: int)

  function RocketTimer(ls: LocalState): Timer { Timer(ls.rocketActive, ls.rocketTime) }
  function ShieldTimer(ls: LocalState): Timer { Timer(ls.shieldActive, ls.shieldTime) }
  function MagnetTimer(ls: LocalState): Timer { Timer(ls.magnetActive, ls.magnetTime) }

  /** The countdown updatePowerUps runs for each power-up. */
  function Countdown(t: Timer): (r: Timer)
    ensures !t.active ==> r == t
    ensures t.active ==> r.time == t.time - 1 && (r.active <==> r.time > 0)
  {
    if t.active then
      var time := t.time - 1;
      if time <= 0 then Timer(false, time) else Timer(true, time)
    else t
  }

  /** A timer never below 0, and at least 1 while its flag is on. */
  predicate TimerOk(t: Timer) { t.time >= 0 && (t.active ==> t.time >= 1) }

  lemma CountdownKeepsTimerOk(t: Timer)
    requires TimerOk(t)
    ensures TimerOk(Countdown(t))
  {
  }

  function CountdownN(t: Timer, n: nat): Timer {
    if n == 0 then t else Countdown(CountdownN(t, n - 1))
  }

  /** A power-up started with d ticks is on for exactly d ticks, its timer falls by one per
      tick and stops at 0: it never goes below 0. */
  lemma {:induction false} TimerRunsOut(d: int, n: nat)
    requires d >= 1
    ensures CountdownN(Timer(true, d), n) == if n < d then Timer(true, d - n) else Timer(false, 0)
  {
    if n > 0 {
      TimerRunsOut(d, n - 1);
    }
  }

  /** The run-state invariant: counters never negative, all three timers well formed. */
  predicate LocalOk(ls: LocalState) {
    ls.score >= 0 && ls.coins >= 0 && ls.combo >= 0 &&
    TimerOk(RocketTimer(ls)) && TimerOk(ShieldTimer(ls)) && TimerOk(MagnetTimer(ls))
  }

  // ---------------------------------------------------------------- items

  /** The result of collectItem: new player, run state and item, and its particles. */
  datatype Collection = Collection(player: Player, local: LocalState, item: Item, effects: seq<Effect>)

  /** collectItem: mark the item collected, then apply its effect. A power-up's timer is
      set afresh, whatever was left of it. */
  function Pickup(p: Player, ls: LocalState, it: Item): Collection {
    var done := it.(collected := true);
    var cx := it.x + ItemSize / 2.0;
    var cy := it.y + ItemSize / 2.0;
    match it.kind
    case Coin =>
      Collection(p, ls.(coins := ls.coins + 1, score := ls.score + 100), done, [Burst(cx, cy, 5, "#FFD700")])
    case Shield =>
      Collection(p.(hasShield := true),
                 ls.(shieldActive := true, shieldTime := 300, achievements := ls.achievements + [ShieldOn]),
                 done, [Burst(cx, cy, 8, "#4FC3F7")])
    case Magnet =>
      Collection(p, ls.(magnetActive := true, magnetTime := 600, achievements := ls.achievements + [MagnetOn]),
                 done, [Burst(cx, cy, 8, "#E91E63")])
  }

  /** What each item type gives: a coin is one coin and 100 points; a shield or a magnet
      switches its power-up on with a full 300 or 600 ticks, not added to what was left. */
  lemma PickupEffect(p: Player, ls: LocalState, it: Item)
    ensures var c := Pickup(p, ls, it);
      c.item == it.(collected := true) &&
      c.player == p.(hasShield := c.player.hasShield) &&
      c.local.rocketActive == ls.rocketActive && c.local.rocketTime == ls.rocketTime &&
      c.local.combo == ls.combo && c.local.gameOver == ls.gameOver &&
      (it.kind == Coin ==> c.local == ls.(coins := ls.coins + 1, score := ls.score + 100) && c.player == p) &&
      (it.kind == Shield ==> c.local.shieldActive && c.local.shieldTime == 300 && c.player.hasShield &&
                             c.local.score == ls.score && c.local.coins == ls.coins &&
                             MagnetTimer(c.local) == MagnetTimer(ls)) &&
      (it.kind == Magnet ==> c.local.magnetActive && c.local.magnetTime == 600 && c.player == p &&
                             c.local.score == ls.score && c.local.coins == ls.coins &&
                             ShieldTimer(c.local) == ShieldTimer(ls))
  {
    var c := Pickup(p, ls, it);
    match it.kind
    case Coin => assert c.local == ls.(coins := ls.coins + 1, score := ls.score + 100);
    case Shield => assert c.player == p.(hasShield := true);
    case Magnet => assert c.player == p;
  }

  /** Collecting keeps the run-state invariant. */
  lemma PickupKeepsOk(p: Player, ls: LocalState, it: Item)
    requires LocalOk(ls) && p.hasShield == ls.shieldActive
    ensures var c := Pickup(p, ls, it);
      LocalOk(c.local) && c.player.hasShield == c.local.shieldActive && c.local.score >= ls.score
  {
    var c := Pickup(p, ls, it);
    match it.kind
    case Coin => assert c.player == p;
    case Shield => assert ShieldTimer(c.local) == Timer(true, 300);
    case Magnet => assert MagnetTimer(c.local) == Timer(true, 600);
  }

  /** The vertical bob of one item (the source adds 0.5 * sin(animation)). */
  function Bobbed(it: Item, dy: real): Item { it.(y := it.y + dy) }

  /** One item of the forEach of updateItems: bobbed by its delta, then collected when it
      is uncollected and overlaps the player. */
  function ItemStep(p: Player, ls: LocalState, it: Item, dy: real): Collection {
    var b := Bobbed(it, dy);
    if !b.collected && CheckCollision(PlayerBox(p), ItemBox(b)) then Pickup(p, ls, b)
    else Collection(p, ls, b, [])
  }

  /** The state that updateItems carries through its forEach. */
  datatype Sweep = Sweep(player: Player, local: LocalState, items: seq<Item>, effects: seq<Effect>)

  /** The forEach of updateItems: bob every item, and collect every uncollected item
      that overlaps the player. */
  function SweepItems(p: Player, ls: LocalState, its: seq<Item>, bob: seq<real>): (r: Sweep)
    requires |bob| == |its|
    ensures |r.items| == |its|
    decreases |its|
  {
    if its == [] then Sweep(p, ls, [], [])
    else
      var n := |its| - 1;
      var prev := SweepItems(p, ls, its[..n], bob[..n]);
      var c := ItemStep(prev.player, prev.local, its[n], bob[n]);
      Sweep(c.player, c.local, prev.items + [c.item], prev.effects + c.effects)
  }

  /** One more item of the list is one more step of the sweep. */
  lemma SweepSnoc(p: Player, ls: LocalState, its: seq<Item>, bob: seq<real>, i: nat)
    requires |bob| == |its| && i < |its|
    ensures var s := SweepItems(p, ls, its[..i], bob[..i]);
      var c := ItemStep(s.player, s.local, its[i], bob[i]);
      SweepItems(p, ls, its[..i + 1], bob[..i + 1])
        == Sweep(c.player, c.local, s.items + [c.item], s.effects + c.effects)
  {
    assert its[..i + 1][..i] == its[..i] && bob[..i + 1][..i] == bob[..i];
  }

  /** After the sweep an item is collected exactly when it was already collected or,
      at its bobbed position, it overlaps the player; the player does not move; the
      collected flag is never cleared; score, coins and rocket are only added to. */
  lemma {:induction false} SweepCollects(p: Player, ls: LocalState, its: seq<Item>, bob: seq<real>)
    requires |bob| == |its|
    ensures var r := SweepItems(p, ls, its, bob);
      r.player == p.(hasShield := r.player.hasShield) &&
      r.local.score >= ls.score && r.local.coins >= ls.coins && r.local.combo == ls.combo &&
      r.local.gameOver == ls.gameOver &&
      r.local.rocketActive == ls.rocketActive && r.local.rocketTime == ls.rocketTime &&
      forall k :: 0 <= k < |its| ==>
        r.items[k] == Bobbed(its[k], bob[k]).(collected := its[k].collected ||
                        CheckCollision(PlayerBox(p), ItemBox(Bobbed(its[k], bob[k]))))
  {
    if its != [] {
      var n := |its| - 1;
      SweepCollects(p, ls, its[..n], bob[..n]);
      var prev := SweepItems(p, ls, its[..n], bob[..n]);
      var r := SweepItems(p, ls, its, bob);
      assert PlayerBox(prev.player) == PlayerBox(p);
      PickupEffect(prev.player, prev.local, Bobbed(its[n], bob[n]));
      assert r.items[..n] == prev.items;
      forall k | 0 <= k < |its|
        ensures r.items[k] == Bobbed(its[k], bob[k]).(collected := its[k].collected ||
                                CheckCollision(PlayerBox(p), ItemBox(Bobbed(its[k], bob[k]))))
      {
        if k < n {
          assert r.items[k] == prev.items[k];
          assert its[..n][k] == its[k] && bob[..n][k] == bob[k];
        }
      }
    }
  }

  /** The sweep keeps the run-state invariant and the shield flag in step. */
  lemma {:induction false} SweepKeepsOk(p: Player, ls: LocalState, its: seq<Item>, bob: seq<real>)
    requires |bob| == |its| && LocalOk(ls) && p.hasShield == ls.shieldActive
    ensures var r := SweepItems(p, ls, its, bob);
      LocalOk(r.local) && r.player.hasShield == r.local.shieldActive
  {
    if its != [] {
      var n := |its| - 1;
      SweepKeepsOk(p, ls, its[..n], bob[..n]);
      var prev := SweepItems(p, ls, its[..n], bob[..n]);
      PickupKeepsOk(prev.player, prev.local, Bobbed(its[n], bob[n]));
    }
  }

  /** The filter of updateItems. */
  function PruneItems(its: seq<Item>, cameraY: real): seq<Item> {
    if its == [] then []
    else if !its[0].collected && its[0].y < cameraY + CanvasHeight + 100.0 then
      [its[0]] + PruneItems(its[1..], cameraY)
    else PruneItems(its[1..], cameraY)
  }

  /** The filter keeps exactly the uncollected items above the line 100 below the
      bottom of the view. */
  lemma {:induction false} PruneItemsSpec(its: seq<Item>, cameraY: real)
    ensures forall it :: it in PruneItems(its, cameraY) <==>
      it in its && !it.collected && it.y < cameraY + CanvasHeight + 100.0
    ensures |PruneItems(its, cameraY)| <= |its|
  {
    if its != [] {
      PruneItemsSpec(its[1..], cameraY);
      assert its == [its[0]] + its[1..];
    }
  }

  /** The filter keeps the order of the list: filtering a concatenation is
      concatenating the filtered parts. */
  lemma {:induction false} PruneItemsAppend(a: seq<Item>, b: seq<Item>, cameraY: real)
    ensures PruneItems(a + b, cameraY) == PruneItems(a, cameraY) + PruneItems(b, cameraY)
  {
    if a == [] {
      assert a + b == b;
    } else {
      assert (a + b)[0] == a[0] && (a + b)[1..] == a[1..] + b;
      PruneItemsAppend(a[1..], b, cameraY);
    }
  }

  /** The platform filter of the camera step. */
  function PrunePlatforms(ps: seq<Platform>, cameraY: real): seq<Platform> {
    if ps == [] then []
    else if ps[0].y < cameraY + CanvasHeight + 100.0 && (ps[0].kind != Broken || ps[0].health > 0) then
      [ps[0]] + PrunePlatforms(ps[1..], cameraY)
    else PrunePlatforms(ps[1..], cameraY)
  }

  /** The filter keeps exactly the platforms above the line 100 below the bottom of the
      view that are not broken with no health. */
  lemma {:induction false} PrunePlatformsSpec(ps: seq<Platform>, cameraY: real)
    ensures forall q :: q in PrunePlatforms(ps, cameraY) <==>
      q in ps && q.y < cameraY + CanvasHeight + 100.0 && (q.kind != Broken || q.health > 0)
    ensures |PrunePlatforms(ps, cameraY)| <= |ps|
  {
    if ps != [] {
      PrunePlatformsSpec(ps[1..], cameraY);
      assert ps == [ps[0]] + ps[1..];
    }
  }

  /** The platform filter keeps the order of the list, so the last platform kept is
      the last one of the list that passes. */
  lemma {:induction false} PrunePlatformsAppend(a: seq<Platform>, b: seq<Platform>, cameraY: real)
    ensures PrunePlatforms(a + b, cameraY) == PrunePlatforms(a, cameraY) + PrunePlatforms(b, cameraY)
  {
    if a == [] {
      assert a + b == b;
    } else {
      assert (a + b)[0] == a[0] && (a + b)[1..] == a[1..] + b;
      PrunePlatformsAppend(a[1..], b, cameraY);
    }
  }

  // ---------------------------------------------------------------- initial world

  /** The safe platform generateInitialPlatforms puts under the spawn point. */
  const SafePlatform: Platform :=
    Platform(CanvasWidth / 2.0 - PlatformWidth / 2.0, CanvasHeight - 50.0, Green, 1, 0.0)

  /** Platforms and the stream position after them. */
  datatype Built = Built(platforms: seq<Platform>, next: nat)

  /** One generatePlatform(offsetY) call on a layout: the platform made from the next
      draws is appended, and the draw counter moves past the draws it consumed. */
  function PlatformStep(random: nat -> real, b: Built, offsetY: real): Built {
    var q := MakePlatform(offsetY, Draw(random, b.next), Draw(random, b.next + 1), Draw(random, b.next + 2));
    Built(b.platforms + [q], b.next + PlatformDraws(q))
  }

  /** The safe platform, then generatePlatform(70), generatePlatform(140), ...,
      generatePlatform(70 n), drawing from stream position `from` on. */
  function InitialLayout(random: nat -> real, from: nat, n: nat): (b: Built)
    ensures |b.platforms| == n + 1
  {
    if n == 0 then Built([SafePlatform], from)
    else PlatformStep(random, InitialLayout(random, from, n - 1), (70 * n) as real)
  }

  /** One more generatePlatform call is one more platform of the layout. */
  lemma InitialLayoutSnoc(random: nat -> real, from: nat, n: nat)
    ensures InitialLayout(random, from, n + 1) == PlatformStep(random, InitialLayout(random, from, n), (70 * (n + 1)) as real)
  {
  }

  /** The layout starts with the safe platform; its k-th platform after that sits 70 k
      above the safe one, is never a rocket or broken, and keeps the platform invariant. */
  lemma {:induction false} InitialLayoutShape(random: nat -> real, from: nat, n: nat)
    requires UnitDraws(random)
    ensures var ps := InitialLayout(random, from, n).platforms;
      ps[0] == SafePlatform &&
      forall k :: 0 < k <= n ==>
        ps[k].y == CanvasHeight - 50.0 - (70 * k) as real &&
        ps[k].kind != Rocket && ps[k].kind != Broken && PlatformOk(ps[k])
    ensures InitialLayout(random, from, n).next >= from + 2 * n
  {
    if n > 0 {
      InitialLayoutShape(random, from, n - 1);
      var prev := InitialLayout(random, from, n - 1);
      MadePlatformOk((70 * n) as real, Draw(random, prev.next), Draw(random, prev.next + 1), Draw(random, prev.next + 2));
      var ps := InitialLayout(random, from, n).platforms;
      assert ps[..n] == prev.platforms;
      forall k | 0 <= k < n
        ensures ps[k] == prev.platforms[k]
      {
        assert ps[..n][k] == ps[k];
      }
    }
  }

  /** The item one generateItem call makes from stream position d on. */
  function SpawnedItem(random: nat -> real, cameraY: real, d: nat): Item
    requires UnitDraws(random)
  {
    MakeItem(cameraY, Draw(random, d), Draw(random, d + 1), Draw(random, d + 2))
  }

  /** generateItem called n times from stream position `from`. */
  function InitialItems(random: nat -> real, from: nat, cameraY: real, n: nat): (its: seq<Item>)
    requires UnitDraws(random)
    ensures |its| == n
  {
    seq(n, k requires 0 <= k < n => SpawnedItem(random, cameraY, from + 4 * k))
  }

  lemma InitialItemsSnoc(random: nat -> real, from: nat, cameraY: real, n: nat)
    requires UnitDraws(random)
    ensures InitialItems(random, from, cameraY, n + 1)
         == InitialItems(random, from, cameraY, n)
            + [SpawnedItem(random, cameraY, from + 4 * n)]
  {
  }

  /** Every platform of the initial layout keeps the platform invariant and none is a
      rocket. */
  lemma InitialWorldOk(random: nat -> real, from: nat, n: nat)
    requires UnitDraws(random)
    ensures var ps := InitialLayout(random, from, n).platforms;
      forall k :: 0 <= k < |ps| ==> PlatformOk(ps[k]) && ps[k].kind != Rocket
  {
    InitialLayoutShape(random, from, n);
  }

  /** Every initial item is uncollected and 100 to 300 above the camera. */
  lemma InitialItemsShape(random: nat -> real, from: nat, cameraY: real, n: nat)
    requires UnitDraws(random)
    ensures forall it :: it in InitialItems(random, from, cameraY, n) ==>
      !it.collected && cameraY - 300.0 < it.y <= cameraY - 100.0
  {
  }

  // ---------------------------------------------------------------- sweeps of the tick

  /** updateSpecialPlatforms over the whole list. */
  function MoveAll(ps: seq<Platform>): (rs: seq<Platform>)
    ensures |rs| == |ps| && forall k :: 0 <= k < |ps| ==> rs[k] == MovePlatform(ps[k])
  {
    seq(|ps|, k requires 0 <= k < |ps| => MovePlatform(ps[k]))
  }

  /** activateMagnet over the whole list, with the player where it was. */
  function AttractAll(p: Player, its: seq<Item>): (rs: seq<Item>)
    ensures |rs| == |its| && forall k :: 0 <= k < |its| ==> rs[k] == Attract(p, its[k])
  {
    seq(|its|, k requires 0 <= k < |its| => Attract(p, its[k]))
  }

  /** updatePowerUps without the magnet pull: the three countdowns, and the player's
      rocket and shield flags cleared when their power-up runs out. */
  function PowerTick(p: Player, ls: LocalState): (Player, LocalState) {
    var r := Countdown(RocketTimer(ls));
    var s := Countdown(ShieldTimer(ls));
    var m := Countdown(MagnetTimer(ls));
    (p.(isRocket := if ls.rocketActive && !r.active then false else p.isRocket,
        hasShield := if ls.shieldActive && !s.active then false else p.hasShield),
     ls.(rocketActive := r.active, rocketTime := r.time,
         shieldActive := s.active, shieldTime := s.time,
         magnetActive := m.active, magnetTime := m.time))
  }

  /** The power-up tick runs each timer's countdown and touches nothing else; it keeps the
      run-state invariant and the player's flags in step with the run state; the magnet is
      still on afterwards only if it was on before. */
  lemma PowerTickRules(p: Player, ls: LocalState)
    ensures var (p', ls') := PowerTick(p, ls);
      RocketTimer(ls') == Countdown(RocketTimer(ls)) &&
      ShieldTimer(ls') == Countdown(ShieldTimer(ls)) &&
      MagnetTimer(ls') == Countdown(MagnetTimer(ls)) &&
      ls' == ls.(rocketActive := ls'.rocketActive, rocketTime := ls'.rocketTime,
                 shieldActive := ls'.shieldActive, shieldTime := ls'.shieldTime,
                 magnetActive := ls'.magnetActive, magnetTime := ls'.magnetTime) &&
      p' == p.(isRocket := p'.isRocket, hasShield := p'.hasShield) &&
      (ls'.magnetActive ==> ls.magnetActive)
    ensures var (p', ls') := PowerTick(p, ls);
      LocalOk(ls) && p.isRocket == ls.rocketActive && p.hasShield == ls.shieldActive ==>
        LocalOk(ls') && p'.isRocket == ls'.rocketActive && p'.hasShield == ls'.shieldActive
  {
    if LocalOk(ls) {
      CountdownKeepsTimerOk(RocketTimer(ls));
      CountdownKeepsTimerOk(ShieldTimer(ls));
      CountdownKeepsTimerOk(MagnetTimer(ls));
    }
  }

  // ---------------------------------------------------------------- player motion

  /** The input step of update: left wins over right; with no key the speed decays by 0.9. */
  function Steer(p: Player, left: bool, right: bool): Player {
    if left then p.(vx := -5.0, direction := -1)
    else if right then p.(vx := 5.0, direction := 1)
    else p.(vx := p.vx * 0.9)
  }

  /** Left wins over right and sets speed -5 facing left; right alone sets speed 5 facing
      right; without input the speed decays by the factor 0.9, so it never grows, and the
      direction stays. Nothing else of the player changes. */
  lemma SteerBounds(p: Player, left: bool, right: bool)
    ensures var r := Steer(p, left, right);
      r == p.(vx := r.vx, direction := r.direction) &&
      (left ==> r.vx == -5.0 && r.direction == -1) &&
      (!left && right ==> r.vx == 5.0 && r.direction == 1) &&
      (!left && !right ==> r.vx == p.vx * 0.9 && Abs(r.vx) <= Abs(p.vx) && r.direction == p.direction)
  {
  }

  /** Gravity 0.5, or the fixed climb speed 10 while the rocket is on; then one step of
      both speeds. */
  function Fly(p: Player): Player {
    var vy := if p.isRocket then -10.0 else p.vy + 0.5;
    p.(vy := vy, y := p.y + vy, x := p.x + p.vx)
  }

  /** While the rocket is on the player climbs exactly 10 per tick whatever it was doing;
      otherwise it gains 0.5 of downward speed. */
  lemma FlyRule(p: Player)
    ensures p.isRocket ==> Fly(p).vy == -10.0 && Fly(p).y == p.y - 10.0
    ensures !p.isRocket ==> Fly(p).vy == p.vy + 0.5 && Fly(p).y == p.y + p.vy + 0.5
    ensures Fly(p).x == p.x + p.vx
  {
  }

  /** The edge wrap: leaving on one side teleports the player to the other side. */
  function Wrap(p: Player): (r: Player)
    ensures -PlayerWidth <= r.x <= CanvasWidth
    ensures r == p.(x := r.x)
    ensures p.x < -PlayerWidth ==> r.x == CanvasWidth
    ensures p.x > CanvasWidth ==> r.x == -PlayerWidth
    ensures -PlayerWidth <= p.x <= CanvasWidth ==> r == p
  {
    if p.x < -PlayerWidth then p.(x := CanvasWidth)
    else if p.x > CanvasWidth then p.(x := -PlayerWidth)
    else p
  }

  /** Input, physics, integration and the wrap, in the order update runs them. */
  function Move(p: Player, left: bool, right: bool): Player {
    Wrap(Fly(Steer(p, left, right)))
  }

  /** The rocket and shield flags never affect where the input step and the wrap put the
      player sideways. */
  lemma MoveSidewaysIgnoresFlags(p: Player, rocket: bool, shield: bool, left: bool, right: bool)
    ensures var a, b := Move(p, left, right), Move(p.(isRocket := rocket, hasShield := shield), left, right);
      a.x == b.x && a.vx == b.vx && a.direction == b.direction
  {
  }

  // ---------------------------------------------------------------- camera step

  /** The backfill of the camera step: one generatePlatform(0) when the last platform is
      within a screen height of the camera. */
  function Backfilled(random: nat -> real, ps: seq<Platform>, d: nat, cameraY: real): Built
    requires ps != []
  {
    if ps[|ps| - 1].y > cameraY - CanvasHeight then PlatformStep(random, Built(ps, d), 0.0)
    else Built(ps, d)
  }

  /** The camera step adds an item with chance 0.02 while fewer than 8 live. */
  const ItemCap: nat := 8
  const ItemChance: real := 0.02

  /** The item spawn of the camera step, from stream position d: below the cap of 8 one
      draw decides, with chance 0.02, whether generateItem runs. */
  function Spawn(random: nat -> real, its: seq<Item>, d: nat, cameraY: real): (seq<Item>, nat)
    requires UnitDraws(random)
  {
    if |its| >= ItemCap then (its, d)
    else if Draw(random, d) < ItemChance then (its + [SpawnedItem(random, cameraY, d + 1)], d + 1 + ItemDraws)
    else (its, d + 1)
  }

  /** At the cap nothing is drawn; below it one draw is taken, and a spawn adds exactly one
      fresh item 100 to 300 above the camera, so the cap is never passed. */
  lemma SpawnRules(random: nat -> real, its: seq<Item>, d: nat, cameraY: real)
    requires UnitDraws(random)
    ensures var (its', d') := Spawn(random, its, d, cameraY);
      (|its| >= ItemCap ==> its' == its && d' == d) &&
      (|its| < ItemCap ==> d' > d && its'[..|its|] == its && |its| <= |its'| <= |its| + 1) &&
      (|its'| == |its| + 1 <==> |its| < ItemCap && Draw(random, d) < ItemChance) &&
      (|its'| == |its| + 1 ==> !its'[|its|].collected &&
                               cameraY - 300.0 < its'[|its|].y <= cameraY - 100.0) &&
      (|its| <= ItemCap ==> |its'| <= ItemCap)
  {
  }

  /** The platform the camera step adds is placed at a fixed height 550, whatever the
      camera: once the camera is 150 or more above its start the filter that follows
      drops it at once, so from then on the backfill adds nothing. */
  lemma {:induction false} BackfillDroppedHighUp(ps: seq<Platform>, q: Platform, cameraY: real)
    requires q.y == CanvasHeight - 50.0 && cameraY <= -150.0
    ensures PrunePlatforms(ps + [q], cameraY) == PrunePlatforms(ps, cameraY)
  {
    if ps == [] {
      assert [q][1..] == [];
    } else {
      assert (ps + [q])[1..] == ps[1..] + [q];
      BackfillDroppedHighUp(ps[1..], q, cameraY);
    }
  }

  // ---------------------------------------------------------------- game over

  /** The results achievements gameOver awards. */
  function Awards(ls: LocalState): (a: seq<Achievement>)
    ensures ThousandPoints in a <==> ls.score >= 1000
    ensures TenCoins in a <==> ls.coins >= 10
    ensures |a| <= 2
  {
    (if ls.score >= 1000 then [ThousandPoints] else []) + (if ls.coins >= 10 then [TenCoins] else [])
  }
}
