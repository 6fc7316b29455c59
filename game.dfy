/** The DoodleJumpGame object: the state that one tick of update reads and changes, and
    the methods that change it, each proved against the functions of the other modules.
    Math.random is the stream `random`, of which `drawn` values have been consumed. */
module Game {
  import opened Entities
  import opened Effects
  import opened Scoring
  import opened Generator
  import opened Collision
  import opened World

  /** generateInitialPlatforms adds 14 platforms above the safe one; generateInitialItems
      adds 5 items. */
  const InitialPlatforms: nat := 14
  const InitialItemCount: nat := 5

  /** The spawn point and the run state of a fresh game. */
  const SpawnX: real := CanvasWidth / 2.0 - PlayerWidth / 2.0
  const SpawnY: real := CanvasHeight - 100.0
  const FreshLocal: LocalState := LocalState(0, 0, false, 0, false, 0, false, 0, false, 0, 0, [])

  /** A fall this far below the camera ends the run or spends the shield. */
  const FallMargin: real := CanvasHeight + 200.0

  /** The fields of a game that one tick of update reads and changes. */
  datatype GameState = GameState(player: Player, local: LocalState, cameraY: real,
                                 platforms: seq<Platform>, items: seq<Item>,
                                 particles: seq<Particle>, drawn: nat)

  /** updatePowerUps and updateSpecialPlatforms: the three countdowns, the magnet pull while
      the magnet is still on, and every moving platform one step along its track. */
  function PowerAndPlatformsTick(g: GameState): (r: GameState)
    ensures |r.items| == |g.items|
  {
    var (p, ls) := PowerTick(g.player, g.local);
    g.(player := p, local := ls, platforms := MoveAll(g.platforms),
       items := if ls.magnetActive then AttractAll(p, g.items) else g.items)
  }

  /** updateItems and updateParticles: the item sweep, its particles, the item filter, and
      one tick of every particle. */
  function ItemsAndParticlesTick(random: nat -> real, g: GameState, bob: seq<real>): GameState
    requires |bob| == |g.items|
  {
    var s := SweepItems(g.player, g.local, g.items, bob);
    g.(player := s.player, local := s.local, items := PruneItems(s.items, g.cameraY),
       particles := LiveParticles(DecayAll(g.particles + Emitted(s.effects, random, g.drawn))),
       drawn := g.drawn + Draws(s.effects))
  }

  /** The landing step: the pass over the platforms, then the combo reset. */
  function LandingTick(random: nat -> real, g: GameState): GameState {
    var r := AfterLanding(g.player, g.local, g.cameraY, g.platforms);
    g.(player := r.player, local := r.local, platforms := r.platforms,
       particles := g.particles + Emitted(r.effects, random, g.drawn),
       drawn := g.drawn + Draws(r.effects))
  }

  /** The camera step, and whether the read of the last platform of an empty list threw. */
  function CameraTick(random: nat -> real, g: GameState): (GameState, bool)
    requires UnitDraws(random)
  {
    if !(g.player.y < g.cameraY) then (g, false)
    else if g.platforms == [] then (g.(cameraY := g.player.y), true)
    else
      var c := g.player.y;
      var b := Backfilled(random, g.platforms, g.drawn, c);
      var (its, d) := Spawn(random, g.items, b.next, c);
      (g.(cameraY := c, platforms := PrunePlatforms(b.platforms, c), items := its, drawn := d), false)
  }

  /** The fall check: a shield rescue, a game over, or nothing. */
  function FallTick(random: nat -> real, g: GameState): GameState {
    if !(g.player.y > g.cameraY + FallMargin) then g
    else if g.local.shieldActive then
      var p := g.player.(y := g.cameraY + CanvasHeight - 100.0, vy := -15.0, hasShield := false);
      g.(player := p,
         local := g.local.(shieldActive := false, achievements := g.local.achievements + [ShieldSaved]),
         particles := g.particles + Sparks(p.x + PlayerWidth / 2.0, p.y + PlayerHeight / 2.0,
                                           15, "#4FC3F7", random, g.drawn),
         drawn := g.drawn + 45)
    else
      g.(local := g.local.(gameOver := true, combo := 0,
                           achievements := g.local.achievements + Awards(g.local)))
  }

  /** The part of update before the camera step: the world, the player's move, the landings. */
  function PlayTick(random: nat -> real, g: GameState, left: bool, right: bool, bob: seq<real>): GameState
    requires |bob| == |g.items|
  {
    var w := ItemsAndParticlesTick(random, PowerAndPlatformsTick(g), bob);
    LandingTick(random, w.(player := Move(w.player, left, right)))
  }

  /** One more platform handled by the landing loop keeps the loop's account of the state
      against the pass over the prefix: the handled platforms are the pass's, the rest are
      as they were, and the particles and draws are the pass's effects emitted in order. */
  lemma PassStep(random: nat -> real, p0: Player, ls0: LocalState, cameraY: real, ps0: seq<Platform>,
                 pt0: seq<Particle>, d0: nat, i: nat,
                 p: Player, ls: LocalState, ps: seq<Platform>, pt: seq<Particle>, d: nat,
                 p': Player, ls': LocalState, ps': seq<Platform>, pt': seq<Particle>, d': nat)
    requires i < |ps0| == |ps|
    requires var s := LandingPass(p0, ls0, cameraY, ps0[..i]);
      p == s.player && ls == s.local &&
      (forall k :: 0 <= k < i ==> ps[k] == s.platforms[k]) &&
      (forall k :: i <= k < |ps0| ==> ps[k] == ps0[k]) &&
      pt == pt0 + Emitted(s.effects, random, d0) && d == d0 + Draws(s.effects)
    requires var l := Visit(p, ls, cameraY, ps[i]);
      p' == l.player && ls' == l.local && ps' == ps[i := l.platform] &&
      pt' == pt + Emitted(l.effects, random, d) && d' == d + Draws(l.effects)
    ensures var s := LandingPass(p0, ls0, cameraY, ps0[..i + 1]);
      p' == s.player && ls' == s.local &&
      (forall k :: 0 <= k < i + 1 ==> ps'[k] == s.platforms[k]) &&
      (forall k :: i + 1 <= k < |ps0| ==> ps'[k] == ps0[k]) &&
      pt' == pt0 + Emitted(s.effects, random, d0) && d' == d0 + Draws(s.effects) &&
      s.landed == (LandingPass(p0, ls0, cameraY, ps0[..i]).landed || Lands(p, ps[i]))
  {
    var s := LandingPass(p0, ls0, cameraY, ps0[..i]);
    var l := Visit(s.player, s.local, cameraY, ps0[i]);
    PassSnoc(p0, ls0, cameraY, ps0, i);
    forall k | 0 <= k < i + 1
      ensures ps'[k] == (s.platforms + [l.platform])[k]
    {
    }
    EmittedExtend(pt0, s.effects, l.effects, random, d0, pt, d, pt');
  }

  /** The camera step, then the fall check unless the camera step threw for want of
      platforms; the flag says whether it threw. */
  function CameraAndFallTick(random: nat -> real, g: GameState): (GameState, bool)
    requires UnitDraws(random)
  {
    var (h, thrown) := CameraTick(random, g);
    if thrown then (h, true) else (FallTick(random, h), false)
  }

  /** One tick of update past its guard, and whether it threw. */
  function Tick(random: nat -> real, g: GameState, left: bool, right: bool, bob: seq<real>): (GameState, bool)
    requires UnitDraws(random) && |bob| == |g.items|
  {
    CameraAndFallTick(random, PlayTick(random, g, left, right, bob))
  }

  class DoodleJumpGame {
    const random: nat -> real
    var drawn: nat
    var player: Player
    var local: LocalState
    var cameraY: real
    var platforms: seq<Platform>
    var items: seq<Item>
    var particles: seq<Particle>

    /** What every method keeps: draws in [0, 1), the run-state invariant, the player's
        rocket and shield flags in step with the run state, and every platform well formed. */
    ghost predicate Consistent()
      reads this
    {
      UnitDraws(random) && LocalOk(local) &&
      player.isRocket == local.rocketActive && player.hasShield == local.shieldActive &&
      forall k :: 0 <= k < |platforms| ==> PlatformOk(platforms[k])
    }

    /** The invariant of every state a game reaches: besides Consistent, the camera is
        never below its start, so no landing ever scores and the combo stays 0, and at
        most 8 items are live. */
    ghost predicate Valid()
      reads this
    {
      cameraY <= 0.0 && local.combo == 0 && |items| <= ItemCap && Consistent()
    }

    /** The fields one tick of update reads and changes. */
    function State(): GameState
      reads this
    {
      GameState(player, local, cameraY, platforms, items, particles, drawn)
    }

    /** No platform of the list is a rocket platform. */
    ghost predicate RocketFree()
      reads this
    {
      forall k :: 0 <= k < |platforms| ==> platforms[k].kind != Rocket
    }

    /** The constructor without its DOM, socket and sprite work: the fresh run state, the
        player at the spawn point, then the initial platforms and items. `start` is the
        number of values of the stream used before (by the page, and by the colour pick of
        the constructor, which the model leaves out). */
    constructor (random: nat -> real, start: nat)
      requires UnitDraws(random)
      ensures Valid() && RocketFree() && this.random == random
      ensures local == FreshLocal && player == Player(SpawnX, SpawnY, 0.0, 0.0, false, 1, false, false)
      ensures cameraY == 0.0 && particles == []
      ensures var b := InitialLayout(random, start, InitialPlatforms);
        platforms == b.platforms &&
        items == InitialItems(random, b.next, cameraY, InitialItemCount) &&
        drawn == b.next + 4 * InitialItemCount
    {
      this.random := random;
      drawn := start;
      local := FreshLocal;
      player := Player(SpawnX, SpawnY, 0.0, 0.0, false, 1, false, false);
      cameraY := 0.0;
      platforms := [];
      items := [];
      particles := [];
      new;
      GenerateInitialPlatforms();
      GenerateInitialItems();
      InitialWorldOk(random, start, InitialPlatforms);
    }

    /** One Math.random() call. */
    method Random() returns (r: real)
      modifies this`drawn
      ensures r == Draw(random, old(drawn)) && drawn == old(drawn) + 1
      ensures UnitDraws(random) ==> 0.0 <= r < 1.0
    {
      r := Draw(random, drawn);
      drawn := drawn + 1;
    }

    // ------------------------------------------------------------ particles

    /** createParticles: `count` sparks, three draws each. */
    method CreateParticles(x: real, y: real, count: nat, color: string)
      modifies this`particles, this`drawn
      ensures particles == old(particles) + Sparks(x, y, count, color, random, old(drawn))
      ensures drawn == old(drawn) + EffectDraws(Burst(x, y, count, color))
    {
      var i := 0;
      while i < count
        invariant 0 <= i <= count
        invariant particles == old(particles) + Sparks(x, y, i, color, random, old(drawn))
        invariant drawn == old(drawn) + 3 * i
      {
        var vx := Random();
        var vy := Random();
        var size := Random();
        SparksSnoc(x, y, i, color, random, old(drawn));
        particles := particles + [Spark(x, y, (vx - 0.5) * 4.0, (vy - 0.5) * 4.0, 30, color, size * 3.0 + 1.0)];
        i := i + 1;
      }
    }

    /** showScorePopup: one rising text particle. */
    method ShowScorePopup(x: real, y: real, points: int)
      modifies this`particles
      ensures particles == old(particles) + EffectParticles(ScoreText(x, y, points), random, drawn)
    {
      particles := particles + [Popup(x, y, 0.0, -2.0, 60, points)];
    }

    /** showAchievement without its DOM work: the entry pushed onto the achievements. */
    method ShowAchievement(a: Achievement)
      modifies this`local
      ensures local == old(local).(achievements := old(local).achievements + [a])
    {
      local := local.(achievements := local.achievements + [a]);
    }

    /** updateParticles: move and age every particle, then keep those with life left. */
    method UpdateParticles()
      modifies this`particles
      ensures particles == LiveParticles(DecayAll(old(particles)))
    {
      var i := 0;
      while i < |particles|
        invariant 0 <= i <= |particles| == |old(particles)|
        invariant forall k :: 0 <= k < i ==> particles[k] == Decay(old(particles)[k])
        invariant forall k :: i <= k < |particles| ==> particles[k] == old(particles)[k]
      {
        particles := particles[i := Decay(particles[i])];
        i := i + 1;
      }
      assert particles == DecayAll(old(particles));
      particles := LiveParticles(particles);
    }

    // ------------------------------------------------------------ generators

    /** generatePlatform(offsetY): the type draw through the weight loop, the x draw and,
        for a moving platform, the speed draw. */
    method GeneratePlatform(offsetY: real) returns (ghost q: Platform)
      modifies this`platforms, this`drawn
      ensures q == MakePlatform(offsetY, Draw(random, old(drawn)), Draw(random, old(drawn) + 1), Draw(random, old(drawn) + 2))
      ensures platforms == old(platforms) + [q] && drawn == old(drawn) + PlatformDraws(q)
      ensures Built(platforms, drawn) == PlatformStep(random, Built(old(platforms), old(drawn)), offsetY)
    {
      var rType := Random();
      var kind := PickPlatformType(rType);
      var rX := Random();
      var vx := 0.0;
      if kind == Moving {
        var rSpeed := Random();
        vx := (rSpeed - 0.5) * 3.0;
      }
      var made := Platform(rX * 330.0, CanvasHeight - 50.0 - offsetY,
                           kind, if kind == Breakable then 3 else 1, vx);
      platforms := platforms + [made];
      q := made;
    }

    /** generateInitialPlatforms: the safe platform, then generatePlatform(70 n) for n in 1..14. */
    method GenerateInitialPlatforms()
      modifies this`platforms, this`drawn
      ensures var b := InitialLayout(random, old(drawn), InitialPlatforms);
        platforms == b.platforms && drawn == b.next
    {
      platforms := [SafePlatform];
      var n := 0;
      while n < InitialPlatforms
        invariant 0 <= n <= InitialPlatforms
        invariant Built(platforms, drawn) == InitialLayout(random, old(drawn), n)
      {
        InitialLayoutSnoc(random, old(drawn), n);
        ghost var q := GeneratePlatform((70 * (n + 1)) as real);
        n := n + 1;
      }
    }

    /** generateItem: the type draw, the x and y draws, and the animation draw, which only
        the bob uses. */
    method GenerateItem()
      requires UnitDraws(random)
      modifies this`items, this`drawn
      ensures var d := old(drawn);
        items == old(items) + [SpawnedItem(random, cameraY, d)] && drawn == d + ItemDraws
    {
      var rType := Random();
      var kind := ItemTypes[ItemSlot(rType)];
      var rX := Random();
      var rY := Random();
      var phase := Random();
      items := items + [Item(rX * 380.0, cameraY - 100.0 - rY * 200.0, kind, false)];
    }

    /** generateInitialItems: five items. */
    method GenerateInitialItems()
      requires UnitDraws(random)
      modifies this`items, this`drawn
      ensures items == InitialItems(random, old(drawn), cameraY, InitialItemCount)
      ensures drawn == old(drawn) + 4 * InitialItemCount
    {
      items := [];
      var i := 0;
      while i < InitialItemCount
        invariant 0 <= i <= InitialItemCount
        invariant items == InitialItems(random, old(drawn), cameraY, i)
        invariant drawn == old(drawn) + 4 * i
      {
        InitialItemsSnoc(random, old(drawn), cameraY, i);
        GenerateItem();
        i := i + 1;
      }
    }

    // ------------------------------------------------------------ power-ups

    /** activateRocket. */
    method ActivateRocket()
      modifies this`player, this`local
      ensures (player, local) == StartRocket(old(player), old(local))
    {
      local := local.(rocketActive := true, rocketTime := 180);
      player := player.(isRocket := true);
      ShowAchievement(RocketOn);
    }

    /** activateMagnet: pull every uncollected coin within 150 of the player. */
    method ActivateMagnet()
      modifies this`items
      ensures items == AttractAll(player, old(items))
    {
      var i := 0;
      while i < |items|
        invariant 0 <= i <= |items| == |old(items)|
        invariant forall k :: 0 <= k < i ==> items[k] == Attract(player, old(items)[k])
        invariant forall k :: i <= k < |items| ==> items[k] == old(items)[k]
      {
        var it := items[i];
        if it.kind == Coin && !it.collected {
          var dx := player.x + PlayerWidth / 2.0 - (it.x + ItemSize / 2.0);
          var dy := player.y + PlayerHeight / 2.0 - (it.y + ItemSize / 2.0);
          if dx * dx + dy * dy < 22500.0 {
            items := items[i := it.(x := it.x + dx * 0.1, y := it.y + dy * 0.1)];
          }
        }
        i := i + 1;
      }
    }

    /** updatePowerUps: the three countdowns; the magnet pulls only while it is still on
        after its decrement. */
    method UpdatePowerUps()
      modifies this`local, this`player, this`items
      ensures (player, local) == PowerTick(old(player), old(local))
      ensures items == if local.magnetActive then AttractAll(player, old(items)) else old(items)
    {
      if local.rocketActive {
        local := local.(rocketTime := local.rocketTime - 1);
        if local.rocketTime <= 0 {
          local := local.(rocketActive := false);
          player := player.(isRocket := false);
        }
      }
      if local.shieldActive {
        local := local.(shieldTime := local.shieldTime - 1);
        if local.shieldTime <= 0 {
          local := local.(shieldActive := false);
          player := player.(hasShield := false);
        }
      }
      if local.magnetActive {
        local := local.(magnetTime := local.magnetTime - 1);
        if local.magnetTime <= 0 {
          local := local.(magnetActive := false);
        } else {
          ActivateMagnet();
        }
      }
    }

    /** updateSpecialPlatforms: every moving platform takes one step along its track. */
    method UpdateSpecialPlatforms()
      modifies this`platforms
      ensures platforms == MoveAll(old(platforms))
    {
      var i := 0;
      while i < |platforms|
        invariant 0 <= i <= |platforms| == |old(platforms)|
        invariant forall k :: 0 <= k < i ==> platforms[k] == MovePlatform(old(platforms)[k])
        invariant forall k :: i <= k < |platforms| ==> platforms[k] == old(platforms)[k]
      {
        var q := platforms[i];
        if q.kind == Moving {
          q := q.(x := q.x + q.vx);
          if q.x <= 0.0 || q.x >= CanvasWidth - PlatformWidth {
            q := q.(vx := -q.vx);
          }
          platforms := platforms[i := q];
        }
        i := i + 1;
      }
    }

    // ------------------------------------------------------------ items

    /** collectItem, without its call to updateUI. */
    method CollectItem(i: nat)
      requires i < |items|
      modifies this`items, this`local, this`player, this`particles, this`drawn
      ensures var c := Pickup(old(player), old(local), old(items[i]));
        items == old(items)[i := c.item] && player == c.player && local == c.local &&
        particles == old(particles) + Emitted(c.effects, random, old(drawn)) &&
        drawn == old(drawn) + Draws(c.effects)
    {
      var it := items[i].(collected := true);
      items := items[i := it];
      var cx := it.x + ItemSize / 2.0;
      var cy := it.y + ItemSize / 2.0;
      match it.kind {
        case Coin =>
          local := local.(coins := local.coins + 1);
          local := local.(score := local.score + 100);
          CreateParticles(cx, cy, 5, "#FFD700");
          EmittedOne(Burst(cx, cy, 5, "#FFD700"), random, old(drawn));
        case Shield =>
          local := local.(shieldActive := true, shieldTime := 300);
          player := player.(hasShield := true);
          CreateParticles(cx, cy, 8, "#4FC3F7");
          ShowAchievement(ShieldOn);
          EmittedOne(Burst(cx, cy, 8, "#4FC3F7"), random, old(drawn));
        case Magnet =>
          local := local.(magnetActive := true, magnetTime := 600);
          CreateParticles(cx, cy, 8, "#E91E63");
          ShowAchievement(MagnetOn);
          EmittedOne(Burst(cx, cy, 8, "#E91E63"), random, old(drawn));
      }
    }

    /** The body of the forEach of updateItems for the i-th item: the bob, then
        collectItem when the item is uncollected and overlaps the player. */
    method UpdateItem(i: nat, dy: real)
      requires i < |items|
      modifies this`items, this`local, this`player, this`particles, this`drawn
      ensures var c := ItemStep(old(player), old(local), old(items[i]), dy);
        items == old(items)[i := c.item] && player == c.player && local == c.local &&
        particles == old(particles) + Emitted(c.effects, random, old(drawn)) &&
        drawn == old(drawn) + Draws(c.effects)
    {
      items := items[i := Bobbed(items[i], dy)];
      if !items[i].collected && CheckCollision(PlayerBox(player), ItemBox(items[i])) {
        CollectItem(i);
        assert items == old(items)[i := items[i]];
      }
    }

    /** updateItems: bob every item by its delta, collect the uncollected ones that overlap
        the player, then keep the uncollected items above the pruning line. */
    method UpdateItems(bob: seq<real>)
      requires |bob| == |items|
      modifies this`items, this`local, this`player, this`particles, this`drawn
      ensures var s := SweepItems(old(player), old(local), old(items), bob);
        items == PruneItems(s.items, cameraY) && player == s.player && local == s.local &&
        particles == old(particles) + Emitted(s.effects, random, old(drawn)) &&
        drawn == old(drawn) + Draws(s.effects)
    {
      ghost var p0, ls0, its0, pt0, d0 := player, local, items, particles, drawn;
      var i := 0;
      while i < |items|
        invariant 0 <= i <= |items| == |its0|
        invariant var s := SweepItems(p0, ls0, its0[..i], bob[..i]);
          items == s.items + its0[i..] && player == s.player && local == s.local &&
          particles == pt0 + Emitted(s.effects, random, d0) && drawn == d0 + Draws(s.effects)
      {
        ghost var s := SweepItems(p0, ls0, its0[..i], bob[..i]);
        ghost var c := ItemStep(s.player, s.local, its0[i], bob[i]);
        SweepSnoc(p0, ls0, its0, bob, i);
        ReplaceNext(s.items, its0[i..], c.item);
        assert its0[i..][1..] == its0[i + 1..];
        assert items[i] == its0[i];
        ghost var before, from := particles, drawn;
        UpdateItem(i, bob[i]);
        EmittedExtend(pt0, s.effects, c.effects, random, d0, before, from, particles);
        i := i + 1;
      }
      assert its0[..i] == its0 && bob[..i] == bob && its0[i..] == [];
      assert items == SweepItems(p0, ls0, its0, bob).items;
      items := PruneItems(items, cameraY);
    }

    // ------------------------------------------------------------ landing

    /** The switch of handlePlatformCollision for the i-th platform of the list. */
    method RespondTo(i: nat)
      requires i < |platforms|
      modifies this`player, this`local, this`platforms, this`particles, this`drawn
      ensures var l := Respond(old(player), old(local), old(platforms[i]));
        player == l.player && local == l.local && platforms == old(platforms)[i := l.platform] &&
        particles == old(particles) + Emitted(l.effects, random, old(drawn)) &&
        drawn == old(drawn) + Draws(l.effects)
    {
      var q := platforms[i];
      var cx := q.x + PlatformWidth / 2.0;
      match q.kind {
        case Breakable =>
          q := q.(health := q.health - 1);
          if q.health <= 0 {
            q := q.(kind := Broken);
            CreateParticles(cx, q.y, 10, "#8B4513");
            EmittedOne(Burst(cx, q.y, 10, "#8B4513"), random, old(drawn));
            assert Respond(old(player), old(local), old(platforms[i])).effects == [Burst(cx, q.y, 10, "#8B4513")];
          } else {
            CreateParticles(cx, q.y, 3, "#FF9800");
            EmittedOne(Burst(cx, q.y, 3, "#FF9800"), random, old(drawn));
            assert Respond(old(player), old(local), old(platforms[i])).effects == [Burst(cx, q.y, 3, "#FF9800")];
          }
          platforms := platforms[i := q];
        case Spring =>
          player := player.(vy := -20.0);
          CreateParticles(cx, q.y, 5, "#FFC107");
          EmittedOne(Burst(cx, q.y, 5, "#FFC107"), random, old(drawn));
          assert Respond(old(player), old(local), old(platforms[i])).effects == [Burst(cx, q.y, 5, "#FFC107")];
        case Rocket =>
          ActivateRocket();
          CreateParticles(cx, q.y, 8, "#FF5722");
          EmittedOne(Burst(cx, q.y, 8, "#FF5722"), random, old(drawn));
          assert Respond(old(player), old(local), old(platforms[i])).effects == [Burst(cx, q.y, 8, "#FF5722")];
        case Green | Blue | Moving =>
          player := player.(vy := if q.kind == Moving then -13.0 else -15.0);
          assert Respond(old(player), old(local), old(platforms[i])).effects == [];
        case Broken =>
          // the default branch leaves a broken platform alone
          assert Respond(old(player), old(local), old(platforms[i])).effects == [];
      }
    }

    /** The scoring block of handlePlatformCollision for the platform q: the points, the
        combo step, the score popup and the combo achievements. */
    method ScoreLanding(q: Platform)
      modifies this`local, this`particles
      ensures var points := CalculatePoints(q.kind, old(local).combo);
        local == ComboMilestone(old(local).(score := old(local).score + points, combo := old(local).combo + 1)) &&
        particles == old(particles) + [Popup(q.x + PlatformWidth / 2.0, q.y, 0.0, -2.0, 60, points)]
    {
      var points := CalculatePoints(q.kind, local.combo);
      local := local.(score := local.score + points, combo := local.combo + 1);
      ShowScorePopup(q.x + PlatformWidth / 2.0, q.y, points);
      if local.combo == 5 {
        ShowAchievement(ComboFive);
      } else if local.combo == 10 {
        ShowAchievement(ComboTen);
      }
    }

    /** The snap onto the i-th platform: the player stands on it and jumps, and the
        landing scores when the platform is above the player's screen position. */
    method SnapOnto(i: nat)
      requires i < |platforms|
      modifies this`player, this`local, this`particles
      ensures var l := Snap(Landing(old(player), old(local), platforms[i], []), cameraY);
        player == l.player && local == l.local &&
        particles == old(particles) + Emitted(l.effects, random, drawn)
    {
      var q := platforms[i];
      player := player.(y := q.y - PlayerHeight, jumping := true);
      if q.y < player.y + cameraY {
        ghost var points := CalculatePoints(q.kind, local.combo);
        ScoreLanding(q);
        EmittedOne(ScoreText(q.x + PlatformWidth / 2.0, q.y, points), random, drawn);
      }
    }

    /** handlePlatformCollision for the i-th platform of the list: the switch, then, unless
        the platform is broken now, the snap onto it and the scoring test. */
    method HandlePlatformCollision(i: nat)
      requires i < |platforms|
      modifies this`player, this`local, this`platforms, this`particles, this`drawn
      ensures var l := Collide(old(player), old(local), cameraY, old(platforms[i]));
        player == l.player && local == l.local && platforms == old(platforms)[i := l.platform] &&
        particles == old(particles) + Emitted(l.effects, random, old(drawn)) &&
        drawn == old(drawn) + Draws(l.effects)
    {
      ghost var first := Respond(player, local, platforms[i]);
      RespondTo(i);
      if platforms[i].kind != Broken {
        ghost var mid := Snap(first.(effects := []), cameraY);
        ghost var before, from := particles, drawn;
        SnapOnto(i);
        SnapAppends(first, cameraY);
        EmittedExtend(old(particles), first.effects, mid.effects, random, old(drawn), before, from, particles);
      }
    }

    /** The body of the forEach of update for the i-th platform: the landing test, and
        handlePlatformCollision when it passes. */
    method VisitPlatform(i: nat) returns (landed: bool)
      requires i < |platforms|
      modifies this`player, this`local, this`platforms, this`particles, this`drawn
      ensures landed == Lands(old(player), old(platforms[i]))
      ensures var l := Visit(old(player), old(local), cameraY, old(platforms[i]));
        player == l.player && local == l.local && platforms == old(platforms)[i := l.platform] &&
        particles == old(particles) + Emitted(l.effects, random, old(drawn)) &&
        drawn == old(drawn) + Draws(l.effects)
    {
      landed := Lands(player, platforms[i]);
      if landed {
        HandlePlatformCollision(i);
      } else {
        assert platforms == old(platforms)[i := platforms[i]];
      }
    }

    /** The forEach of update over the platforms: test every platform in list order and
        handle each one that matches; the result is the onPlatform flag. */
    method LandingLoop() returns (onPlatform: bool)
      modifies this`player, this`local, this`platforms, this`particles, this`drawn
      ensures var s := LandingPass(old(player), old(local), cameraY, old(platforms));
        player == s.player && local == s.local && platforms == s.platforms &&
        particles == old(particles) + Emitted(s.effects, random, old(drawn)) &&
        drawn == old(drawn) + Draws(s.effects) && onPlatform == s.landed
    {
      ghost var p0, ls0, ps0, pt0, d0 := player, local, platforms, particles, drawn;
      onPlatform := false;
      var i := 0;
      while i < |platforms|
        invariant 0 <= i <= |platforms| == |ps0|
        invariant var s := LandingPass(p0, ls0, cameraY, ps0[..i]);
          player == s.player && local == s.local &&
          (forall k :: 0 <= k < i ==> platforms[k] == s.platforms[k]) &&
          (forall k :: i <= k < |ps0| ==> platforms[k] == ps0[k]) &&
          particles == pt0 + Emitted(s.effects, random, d0) && drawn == d0 + Draws(s.effects) &&
          onPlatform == s.landed
      {
        ghost var p1, ls1, ps1, pt1, d1 := player, local, platforms, particles, drawn;
        var landed := VisitPlatform(i);
        onPlatform := onPlatform || landed;
        PassStep(random, p0, ls0, cameraY, ps0, pt0, d0, i, p1, ls1, ps1, pt1, d1,
                 player, local, platforms, particles, drawn);
        i := i + 1;
      }
      assert ps0[..i] == ps0;
      assert platforms == LandingPass(p0, ls0, cameraY, ps0).platforms;
    }

    /** The landing part of update: the forEach over the platforms, then the combo reset
        when the player is still falling and no platform matched. */
    method LandOnPlatforms()
      requires Consistent()
      modifies this`player, this`local, this`platforms, this`particles, this`drawn
      ensures var r := AfterLanding(old(player), old(local), cameraY, old(platforms));
        player == r.player && local == r.local && platforms == r.platforms &&
        particles == old(particles) + Emitted(r.effects, random, old(drawn)) &&
        drawn == old(drawn) + Draws(r.effects)
      ensures Consistent()
    {
      ghost var s := LandingPass(player, local, cameraY, platforms);
      PassKeepsOk(player, local, cameraY, platforms);
      var onPlatform := LandingLoop();
      if !onPlatform && player.vy > 0.0 {
        local := local.(combo := 0);
        assert AfterLanding(old(player), old(local), cameraY, old(platforms))
            == Pass(s.player, s.local.(combo := 0), s.platforms, s.effects, s.landed);
      } else {
        assert AfterLanding(old(player), old(local), cameraY, old(platforms)) == s;
      }
    }

    // ------------------------------------------------------------ camera and fall

    /** The backfill of the camera step: generatePlatform(0) when the last platform is
        within a screen height of the camera. */
    method Backfill()
      requires Consistent() && platforms != []
      modifies this`platforms, this`drawn
      ensures Consistent()
      ensures old(RocketFree()) ==> RocketFree()
      ensures Built(platforms, drawn) == Backfilled(random, old(platforms), old(drawn), cameraY)
    {
      if platforms[|platforms| - 1].y > cameraY - CanvasHeight {
        ghost var d := drawn;
        ghost var q := GeneratePlatform(0.0);
        MadePlatformOk(0.0, Draw(random, d), Draw(random, d + 1), Draw(random, d + 2));
      }
    }

    /** The platform filter of the camera step: keep the platforms above the line 100 below
        the view, less the breakables worn down to nothing. */
    method PruneBehind()
      requires Consistent()
      modifies this`platforms
      ensures Consistent()
      ensures platforms == PrunePlatforms(old(platforms), cameraY)
      ensures old(RocketFree()) ==> RocketFree()
    {
      platforms := PrunePlatforms(platforms, cameraY);
      PrunePlatformsSpec(old(platforms), cameraY);
      forall k | 0 <= k < |platforms|
        ensures PlatformOk(platforms[k]) && (old(RocketFree()) ==> platforms[k].kind != Rocket)
      {
        assert platforms[k] in old(platforms);
      }
    }

    /** The item spawn of the camera step: below the cap of 8 one draw decides, with
        chance 0.02, whether generateItem runs. */
    method SpawnItem()
      requires UnitDraws(random)
      modifies this`items, this`drawn
      ensures (items, drawn) == Spawn(random, old(items), old(drawn), cameraY)
    {
      if |items| < ItemCap {
        var r := Random();
        if r < ItemChance {
          GenerateItem();
        }
      }
    }

    /** The camera step of update: follow the player up, backfill one platform at offset 0
        while the last platform is within a screen of the camera, prune the platforms, and
        maybe add an item. With no platform left the source's read of the last platform
        throws; `thrown` reports that, and the step stops there. */
    method FollowCamera() returns (thrown: bool)
      requires Consistent()
      modifies this`cameraY, this`platforms, this`items, this`drawn
      ensures (State(), thrown) == CameraTick(random, old(State()))
      ensures Consistent()
      ensures cameraY == if player.y < old(cameraY) then player.y else old(cameraY)
      ensures thrown <==> player.y < old(cameraY) && old(platforms) == []
      ensures !(player.y < old(cameraY)) || thrown ==>
        platforms == old(platforms) && items == old(items) && drawn == old(drawn)
      ensures player.y < old(cameraY) && old(platforms) != [] ==>
        var b := Backfilled(random, old(platforms), old(drawn), cameraY);
        platforms == PrunePlatforms(b.platforms, cameraY) &&
        (items, drawn) == Spawn(random, old(items), b.next, cameraY)
      ensures |old(items)| <= ItemCap ==> |items| <= ItemCap
      ensures old(RocketFree()) ==> RocketFree()
    {
      ghost var g0 := State();
      thrown := false;
      if player.y < cameraY {
        cameraY := player.y;
        if |platforms| == 0 {
          thrown := true;
          return;
        }
        Backfill();
        ghost var b := Backfilled(random, g0.platforms, g0.drawn, cameraY);
        PruneBehind();
        SpawnItem();
        assert (State(), thrown) == CameraTick(random, g0) by {
          assert platforms == PrunePlatforms(b.platforms, cameraY);
          assert (items, drawn) == Spawn(random, g0.items, b.next, cameraY);
        }
      }
    }

    /** gameOver without its DOM and socket work: the run ends, the combo is cleared, and
        the results achievements are awarded. */
    method GameOver()
      modifies this`local
      ensures local == old(local).(gameOver := true, combo := 0,
                                   achievements := old(local).achievements + Awards(old(local)))
    {
      local := local.(gameOver := true);
      local := local.(combo := 0);
      if local.score >= 1000 {
        ShowAchievement(ThousandPoints);
      }
      if local.coins >= 10 {
        ShowAchievement(TenCoins);
      }
    }

    /** The shield's rescue in the fall check of update: the player is put back a little
        above the bottom of the screen with an upward kick, the shield is spent, 15 blue
        sparks burst from the player's centre and ShieldSaved is awarded. */
    method ShieldRescue()
      modifies this`player, this`local, this`particles, this`drawn
      ensures player == old(player).(y := cameraY + CanvasHeight - 100.0, vy := -15.0, hasShield := false)
      ensures local == old(local).(shieldActive := false, achievements := old(local).achievements + [ShieldSaved])
      ensures particles == old(particles) + Sparks(player.x + PlayerWidth / 2.0, player.y + PlayerHeight / 2.0,
                                                   15, "#4FC3F7", random, old(drawn))
      ensures drawn == old(drawn) + 45
    {
      player := player.(y := cameraY + CanvasHeight - 100.0, vy := -15.0);
      local := local.(shieldActive := false);
      player := player.(hasShield := false);
      CreateParticles(player.x + PlayerWidth / 2.0, player.y + PlayerHeight / 2.0, 15, "#4FC3F7");
      ShowAchievement(ShieldSaved);
    }

    /** The fall check of update: a fall past the margin is rescued by an active shield,
        which puts the player back on screen with an upward kick, and ends the run otherwise. */
    method CheckFall()
      requires Consistent()
      modifies this`player, this`local, this`particles, this`drawn
      ensures State() == FallTick(random, old(State()))
      ensures Consistent()
      ensures !(old(player.y) > cameraY + FallMargin) ==>
        player == old(player) && local == old(local) && particles == old(particles) && drawn == old(drawn)
      ensures old(player.y) > cameraY + FallMargin && old(local.shieldActive) ==>
        player == old(player).(y := cameraY + CanvasHeight - 100.0, vy := -15.0, hasShield := false) &&
        local == old(local).(shieldActive := false, achievements := old(local).achievements + [ShieldSaved]) &&
        particles == old(particles) + Sparks(player.x + PlayerWidth / 2.0, player.y + PlayerHeight / 2.0,
                                             15, "#4FC3F7", random, old(drawn)) &&
        drawn == old(drawn) + 45
      ensures old(player.y) > cameraY + FallMargin && !old(local.shieldActive) ==>
        player == old(player) && particles == old(particles) && drawn == old(drawn) &&
        local == old(local).(gameOver := true, combo := 0,
                             achievements := old(local).achievements + Awards(old(local)))
    {
      if player.y > cameraY + FallMargin {
        if local.shieldActive {
          ShieldRescue();
        } else {
          GameOver();
        }
      }
    }

    /** The resets of restartGame before it regenerates the world. */
    method ResetRun()
      requires Consistent()
      modifies this`player, this`local, this`cameraY, this`platforms, this`items, this`particles
      ensures LocalOk(local) && local.combo == 0
      ensures local == old(local).(score := 0, coins := 0, gameOver := false, highestPoint := 0, combo := 0,
                                   rocketActive := false, shieldActive := false, magnetActive := false)
      ensures player == old(player).(x := SpawnX, y := SpawnY, vy := 0.0, jumping := false,
                                     isRocket := false, hasShield := false)
      ensures cameraY == 0.0 && platforms == [] && items == [] && particles == []
    {
      local := local.(score := 0, coins := 0, gameOver := false, highestPoint := 0, combo := 0);
      local := local.(rocketActive := false, shieldActive := false, magnetActive := false);
      player := player.(x := SpawnX, y := SpawnY, vy := 0.0, jumping := false);
      player := player.(isRocket := false, hasShield := false);
      cameraY := 0.0;
      platforms := [];
      items := [];
      particles := [];
    }

    /** restartGame without its DOM and socket work. The three timers, the horizontal speed
        and the direction are not reset, and neither are the achievements. */
    method RestartGame()
      requires Consistent()
      modifies this`player, this`local, this`cameraY, this`platforms, this`items, this`particles, this`drawn
      ensures Valid() && RocketFree()
      ensures local == old(local).(score := 0, coins := 0, gameOver := false, highestPoint := 0, combo := 0,
                                   rocketActive := false, shieldActive := false, magnetActive := false)
      ensures player == old(player).(x := SpawnX, y := SpawnY, vy := 0.0, jumping := false,
                                     isRocket := false, hasShield := false)
      ensures cameraY == 0.0 && particles == []
      ensures var b := InitialLayout(random, old(drawn), InitialPlatforms);
        platforms == b.platforms &&
        items == InitialItems(random, b.next, cameraY, InitialItemCount) &&
        drawn == b.next + 4 * InitialItemCount
    {
      ResetRun();
      GenerateInitialPlatforms();
      GenerateInitialItems();
      InitialWorldOk(random, old(drawn), InitialPlatforms);
    }

    // ------------------------------------------------------------ the tick

    /** The power-up tick and the moving platforms of update. */
    method TickPowerUpsAndPlatforms()
      requires Valid()
      modifies this`player, this`local, this`platforms, this`items
      ensures State() == PowerAndPlatformsTick(old(State()))
      ensures Valid() && |items| == old(|items|) && local.gameOver == old(local.gameOver)
      ensures player == old(player).(isRocket := player.isRocket, hasShield := player.hasShield)
      ensures local.score == old(local.score)
      ensures old(RocketFree()) ==> RocketFree()
      ensures !old(local.rocketActive) ==> !local.rocketActive
    {
      ghost var p0, ls0 := player, local;
      UpdatePowerUps();
      PowerTickRules(p0, ls0);
      UpdateSpecialPlatforms();
      forall k | 0 <= k < |platforms|
        ensures PlatformOk(platforms[k]) && (old(RocketFree()) ==> platforms[k].kind != Rocket)
      {
        MovePlatformKeepsOk(old(platforms)[k]);
      }
    }

    /** The items and the particles of update. */
    method TickItemsAndParticles(bob: seq<real>)
      requires Valid() && |bob| == |items|
      modifies this`player, this`local, this`items, this`particles, this`drawn
      ensures State() == ItemsAndParticlesTick(random, old(State()), bob)
      ensures Valid() && local.gameOver == old(local.gameOver)
      ensures player == old(player).(hasShield := player.hasShield)
      ensures local.score >= old(local.score)
      ensures local.rocketActive == old(local.rocketActive)
    {
      ghost var p1, ls1, its1 := player, local, items;
      UpdateItems(bob);
      SweepCollects(p1, ls1, its1, bob);
      PruneItemsSpec(SweepItems(p1, ls1, its1, bob).items, cameraY);
      SweepKeepsOk(p1, ls1, its1, bob);
      UpdateParticles();
    }

    /** The world part of update: the power-up tick, the moving platforms, the items and
        the particles. None of it moves the player, ends the run or starts the rocket. */
    method TickWorld(bob: seq<real>)
      requires Valid() && |bob| == |items|
      modifies this`player, this`local, this`platforms, this`items, this`particles, this`drawn
      ensures State() == ItemsAndParticlesTick(random, PowerAndPlatformsTick(old(State())), bob)
      ensures Valid() && local.gameOver == old(local.gameOver)
      ensures player == old(player).(isRocket := player.isRocket, hasShield := player.hasShield)
      ensures local.score >= old(local.score)
      ensures old(RocketFree()) ==> RocketFree()
      ensures !old(local.rocketActive) ==> !local.rocketActive
    {
      TickPowerUpsAndPlatforms();
      TickItemsAndParticles(bob);
    }

    /** The player part of update: the input, gravity or the rocket's climb, the step of
        both speeds, and the edge wrap. */
    method MovePlayer(left: bool, right: bool)
      modifies this`player
      ensures player == Move(old(player), left, right)
    {
      if left {
        player := player.(vx := -5.0, direction := -1);
      } else if right {
        player := player.(vx := 5.0, direction := 1);
      } else {
        player := player.(vx := player.vx * 0.9);
      }
      if !player.isRocket {
        player := player.(vy := player.vy + 0.5);
      } else {
        player := player.(vy := -10.0);
      }
      player := player.(y := player.y + player.vy);
      player := player.(x := player.x + player.vx);
      if player.x < -PlayerWidth {
        player := player.(x := CanvasWidth);
      } else if player.x > CanvasWidth {
        player := player.(x := -PlayerWidth);
      }
    }

    /** The landing step inside update: with the camera never below its start no landing
        scores, so the score and the zero combo stand; the player moves only vertically;
        and without a rocket platform the rocket stays as it was. */
    method LandingStep()
      requires Valid()
      modifies this`player, this`local, this`platforms, this`particles, this`drawn
      ensures State() == LandingTick(random, old(State()))
      ensures Valid()
      ensures local.score == old(local.score) && local.gameOver == old(local.gameOver)
      ensures player.x == old(player.x) && player.vx == old(player.vx) &&
              player.direction == old(player.direction)
      ensures old(RocketFree()) ==> RocketFree() && local.rocketActive == old(local.rocketActive)
    {
      ghost var p0, ls0, ps0 := player, local, platforms;
      ghost var g0 := State();
      LandOnPlatforms();
      assert State() == LandingTick(random, g0);
      PassNeverScores(p0, ls0, cameraY, ps0);
      PassKeepsX(p0, ls0, cameraY, ps0);
      PassKeepsPowerUps(p0, ls0, cameraY, ps0);
      if old(RocketFree()) {
        PassWithoutRocket(p0, ls0, cameraY, ps0);
        PassHandlesEveryMatch(p0, ls0, cameraY, ps0);
        forall k | 0 <= k < |platforms| ensures platforms[k].kind != Rocket {
          assert ps0[k].kind != Rocket;
        }
      }
    }

    /** The part of update before the camera step: the world, the player's move and the
        landings. The run does not end here and the camera stays put. */
    method Play(left: bool, right: bool, bob: seq<real>)
      requires Valid() && |bob| == |items| && !local.gameOver
      modifies this`player, this`local, this`platforms, this`items, this`particles, this`drawn
      ensures State() == PlayTick(random, old(State()), left, right, bob)
      ensures Valid() && !local.gameOver
      ensures local.score >= old(local.score)
      ensures var m := Move(old(player), left, right);
        player.x == m.x && player.vx == m.vx && player.direction == m.direction
      ensures old(RocketFree()) ==> RocketFree()
      ensures old(RocketFree()) && !old(local.rocketActive) ==> !local.rocketActive
    {
      TickWorld(bob);
      MoveSidewaysIgnoresFlags(old(player), player.isRocket, player.hasShield, left, right);
      MovePlayer(left, right);
      LandingStep();
    }

    /** The end of update: the camera follows the player up, and unless that threw, the
        fall check runs. Neither moves the player sideways or changes the score. */
    method CameraAndFall() returns (thrown: bool)
      requires Valid() && !local.gameOver
      modifies this`player, this`local, this`cameraY, this`platforms, this`items, this`particles, this`drawn
      ensures (State(), thrown) == CameraAndFallTick(random, old(State()))
      ensures Valid()
      ensures cameraY <= old(cameraY)
      ensures local.score == old(local.score) && local.rocketActive == old(local.rocketActive)
      ensures thrown ==> platforms == [] && cameraY < old(cameraY)
      ensures player.x == old(player.x) && player.vx == old(player.vx) &&
              player.direction == old(player.direction)
      ensures local.gameOver ==> !local.shieldActive && !thrown
      ensures old(RocketFree()) ==> RocketFree()
    {
      thrown := FollowCamera();
      if thrown {
        return;
      }
      CheckFall();
    }

    /** One call of update past its guard: the world, the player, the landings, the
        camera and the fall check. `bob` holds each item's vertical bob for this tick. */
    method Advance(left: bool, right: bool, bob: seq<real>) returns (thrown: bool)
      requires Valid() && |bob| == |items| && !local.gameOver
      modifies this`player, this`local, this`cameraY, this`platforms, this`items, this`particles, this`drawn
      ensures (State(), thrown) == Tick(random, old(State()), left, right, bob)
      ensures Valid()
      ensures cameraY <= old(cameraY)
      ensures local.score >= old(local.score)
      ensures thrown ==> platforms == [] && cameraY < old(cameraY)
      ensures var m := Move(old(player), left, right);
        player.x == m.x && player.vx == m.vx && player.direction == m.direction
      ensures local.gameOver ==> !local.shieldActive && !thrown
      ensures old(RocketFree()) ==> RocketFree()
      ensures old(RocketFree()) && !old(local.rocketActive) ==> !local.rocketActive
    {
      Play(left, right, bob);
      thrown := CameraAndFall();
    }

    /** One call of update, without the socket emit. `ready` is the guard
        `localState.connected && spritesLoaded`; `left` and `right` are the arrow keys;
        `bob` holds each item's vertical bob for this tick. */
    method Update(ready: bool, left: bool, right: bool, bob: seq<real>) returns (thrown: bool)
      requires Valid() && |bob| == |items|
      modifies this`player, this`local, this`cameraY, this`platforms, this`items, this`particles, this`drawn
      ensures (State(), thrown) ==
        if old(local.gameOver) || !ready then (old(State()), false)
        else Tick(random, old(State()), left, right, bob)
      ensures Valid()
      ensures old(local.gameOver) || !ready ==> !thrown && unchanged(this)
      ensures cameraY <= old(cameraY)
      ensures local.score >= old(local.score)
      ensures thrown ==> platforms == [] && cameraY < old(cameraY)
      ensures ready && !old(local.gameOver) ==>
        var m := Move(old(player), left, right);
        player.x == m.x && player.vx == m.vx && player.direction == m.direction
      ensures local.gameOver && !old(local.gameOver) ==> !local.shieldActive && !thrown
      ensures old(RocketFree()) ==> RocketFree()
      ensures old(RocketFree()) && !old(local.rocketActive) ==> !local.rocketActive
    {
      thrown := false;
      if local.gameOver || !ready {
        return;
      }
      thrown := Advance(left, right, bob);
    }
  }
}
