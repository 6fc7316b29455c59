/** Collision: checkCollision, the swept landing test of update, the response of
    handlePlatformCollision, and the pass of update over the whole platform list. */
module Collision {
  import opened Entities
  import opened Scoring

  /** checkCollision: strict overlap of two rectangles on both axes. */
  predicate CheckCollision(a: Box, b: Box) {
    a.x < b.x + b.width && a.x + a.width > b.x &&
    a.y < b.y + b.height && a.y + a.height > b.y
  }

  /** The point (px, py) lies strictly inside the box. */
  predicate Inside(px: real, py: real, b: Box) {
    b.x < px < b.x + b.width && b.y < py < b.y + b.height
  }

  function Max(a: real, b: real): real { if a < b then b else a }
  function Min(a: real, b: real): real { if a < b then a else b }

  /** Reference reading of checkCollision: two rectangles with positive sides collide
      exactly when some point lies strictly inside both; touching edges do not collide. */
  lemma CollisionIsSharedInterior(a: Box, b: Box)
    requires a.width > 0.0 && a.height > 0.0 && b.width > 0.0 && b.height > 0.0
    ensures CheckCollision(a, b) <==> exists px, py :: Inside(px, py, a) && Inside(px, py, b)
  {
    if CheckCollision(a, b) {
      var px := (Max(a.x, b.x) + Min(a.x + a.width, b.x + b.width)) / 2.0;
      var py := (Max(a.y, b.y) + Min(a.y + a.height, b.y + b.height)) / 2.0;
      assert Inside(px, py, a) && Inside(px, py, b);
    }
  }

  /** checkCollision does not depend on the order of its arguments. */
  lemma CollisionSymmetric(a: Box, b: Box)
    ensures CheckCollision(a, b) == CheckCollision(b, a)
  {
  }

  /** The landing test of update: falling, strict horizontal overlap, feet above the
      platform top plus the one-sided tolerance 10, and feet below the top after one
      more step of the current vertical speed. */
  predicate Lands(p: Player, q: Platform) {
    p.vy > 0.0 &&
    p.x < q.x + PlatformWidth &&
    p.x + PlayerWidth > q.x &&
    p.y + PlayerHeight < q.y + 10.0 &&
    p.y + PlayerHeight + p.vy > q.y
  }

  /** The health rule for one contact with a platform: a breakable platform loses one
      unit of health and becomes broken at health <= 0; every other platform is untouched. */
  function Hit(q: Platform): (r: Platform)
    ensures q.kind == Breakable ==>
      r.health == q.health - 1 && (r.kind == Broken <==> q.health - 1 <= 0) &&
      (r.kind != Broken ==> r.kind == Breakable)
    ensures q.kind != Breakable ==> r == q
    ensures r.x == q.x && r.y == q.y && r.vx == q.vx
  {
    if q.kind == Breakable then
      var health := q.health - 1;
      if health <= 0 then q.(health := health, kind := Broken) else q.(health := health)
    else q
  }

  /** The platform after n contacts. */
  function Contacts(q: Platform, n: nat): Platform {
    if n == 0 then q else Hit(Contacts(q, n - 1))
  }

  /** A fresh breakable platform has health max(0, 3 - n) after n contacts, and is
      broken from the third contact on. */
  lemma {:induction false} BreakableWear(q: Platform, n: nat)
    requires q.kind == Breakable && q.health == 3
    ensures Contacts(q, n).health == if n >= 3 then 0 else 3 - n
    ensures Contacts(q, n).kind == if n >= 3 then Broken else Breakable
  {
    if n > 0 {
      BreakableWear(q, n - 1);
    }
  }

  /** The result of handlePlatformCollision: the new player, run state and platform,
      and the particles it asked for, in order. */
  datatype Landing = Landing(player: Player, local: LocalState, platform: Platform, effects: seq<Effect>)

  /** activateRocket: rocket on for 180 ticks, and its achievement. */
  function StartRocket(p: Player, ls: LocalState): (Player, LocalState) {
    (p.(isRocket := true),
     ls.(rocketActive := true, rocketTime := 180, achievements := ls.achievements + [RocketOn]))
  }

  /** The combo achievements, checked after the combo increment. */
  function ComboMilestone(ls: LocalState): (r: LocalState) {
    if ls.combo == 5 then ls.(achievements := ls.achievements + [ComboFive])
    else if ls.combo == 10 then ls.(achievements := ls.achievements + [ComboTen])
    else ls
  }

  /** The switch of handlePlatformCollision: the response by platform type. */
  function Respond(p: Player, ls: LocalState, q: Platform): Landing {
    var cx := q.x + PlatformWidth / 2.0;
    match q.kind
    case Breakable =>
      var r := Hit(q);
      if r.kind == Broken then Landing(p, ls, r, [Burst(cx, q.y, 10, "#8B4513")])
      else Landing(p, ls, r, [Burst(cx, q.y, 3, "#FF9800")])
    case Spring => Landing(p.(vy := -20.0), ls, q, [Burst(cx, q.y, 5, "#FFC107")])
    case Rocket =>
      var (p', ls') := StartRocket(p, ls);
      Landing(p', ls', q, [Burst(cx, q.y, 8, "#FF5722")])
    case _ =>
      if q.kind != Broken then Landing(p.(vy := if q.kind == Moving then -13.0 else -15.0), ls, q, [])
      else Landing(p, ls, q, [])
  }

  /** handlePlatformCollision: the response by platform type, then, unless the platform
      is broken now, the snap onto the platform and the scoring test. */
  function Collide(p: Player, ls: LocalState, cameraY: real, q: Platform): Landing {
    var first := Respond(p, ls, q);
    if first.platform.kind != Broken then Snap(first, cameraY) else first
  }

  /** The part of handlePlatformCollision after the switch, for a platform that is not broken. */
  function Snap(l: Landing, cameraY: real): Landing {
    var q := l.platform;
    var p := l.player.(y := q.y - PlayerHeight, jumping := true);
    if q.y < p.y + cameraY then
      var points := CalculatePoints(q.kind, l.local.combo);
      var ls := l.local.(score := l.local.score + points, combo := l.local.combo + 1);
      Landing(p, ComboMilestone(ls), q, l.effects + [ScoreText(q.x + PlatformWidth / 2.0, q.y, points)])
    else Landing(p, l.local, q, l.effects)
  }

  /** The snap adds at most the score text to the effects it is given: the rest of its
      result does not depend on them. */
  lemma SnapAppends(l: Landing, cameraY: real)
    ensures var bare := Snap(l.(effects := []), cameraY);
      var r := Snap(l, cameraY);
      r.player == bare.player && r.local == bare.local && r.platform == l.platform &&
      r.effects == l.effects + bare.effects && |bare.effects| <= 1
  {
  }

  /** A contact with a breakable platform takes exactly one unit of health and never
      changes the vertical speed; once broken, the snap and the scoring are skipped. */
  lemma BreakableContact(p: Player, ls: LocalState, cameraY: real, q: Platform)
    requires q.kind == Breakable
    ensures var l := Collide(p, ls, cameraY, q);
      l.platform == Hit(q) && l.platform.health == q.health - 1 && l.player.vy == p.vy &&
      (q.health - 1 <= 0 ==> l.platform.kind == Broken && l.player == p && l.local == ls) &&
      (q.health - 1 > 0 ==> l.platform.kind == Breakable && l.player.y == q.y - PlayerHeight)
  {
  }

  /** A broken platform is inert: no movement, no score, no particles. */
  lemma BrokenIsInert(p: Player, ls: LocalState, cameraY: real, q: Platform)
    requires q.kind == Broken
    ensures Collide(p, ls, cameraY, q) == Landing(p, ls, q, [])
  {
  }

  /** The bounce of every live platform type, and the snap onto its top. */
  lemma BounceImpulse(p: Player, ls: LocalState, cameraY: real, q: Platform)
    requires q.kind != Broken && (q.kind != Breakable || q.health > 1)
    ensures var l := Collide(p, ls, cameraY, q);
      l.player.y == q.y - PlayerHeight && l.player.jumping && l.player.x == p.x &&
      l.player.vy == (match q.kind
                      case Spring => -20.0
                      case Moving => -13.0
                      case Green => -15.0
                      case Blue => -15.0
                      case _ => p.vy)
  {
  }

  /** Only a rocket platform starts the rocket. */
  lemma RocketOnlyFromRocketPlatform(p: Player, ls: LocalState, cameraY: real, q: Platform)
    ensures var l := Collide(p, ls, cameraY, q);
      q.kind != Rocket ==> l.local.rocketActive == ls.rocketActive &&
                           l.local.rocketTime == ls.rocketTime &&
                           l.player.isRocket == p.isRocket
    ensures q.kind == Rocket ==> Collide(p, ls, cameraY, q).local.rocketActive &&
                                 Collide(p, ls, cameraY, q).local.rocketTime == 180
  {
  }

  /** The scoring test runs after the snap, so it is the test cameraY > PlayerHeight:
      a landing adds to score and combo exactly when the camera is that far below 0. */
  lemma ScoringNeedsLowCamera(p: Player, ls: LocalState, cameraY: real, q: Platform)
    requires ls.combo >= 0
    ensures var l := Collide(p, ls, cameraY, q);
      (l.local.score > ls.score <==> l.platform.kind != Broken && cameraY > PlayerHeight) &&
      (l.local.combo == (if l.platform.kind != Broken && cameraY > PlayerHeight then ls.combo + 1 else ls.combo)) &&
      l.local.score >= ls.score
  {
    var first := Respond(p, ls, q);
    assert first.local.score == ls.score && first.local.combo == ls.combo;
    if first.platform.kind != Broken {
      SnapScores(first, cameraY);
    }
  }

  /** The snap's scoring test, reduced to the camera alone. */
  lemma SnapScores(l: Landing, cameraY: real)
    requires l.local.combo >= 0
    ensures var r := Snap(l, cameraY).local;
      (r.score > l.local.score <==> cameraY > PlayerHeight) &&
      r.combo == (if cameraY > PlayerHeight then l.local.combo + 1 else l.local.combo) &&
      r.score >= l.local.score
  {
  }

  /** The state that update carries through its forEach over the platform list. */
  datatype Pass = Pass(player: Player, local: LocalState, platforms: seq<Platform>,
                       effects: seq<Effect>, landed: bool)

  /** One platform of the forEach of update: handled when it passes the landing test,
      left alone otherwise. */
  function Visit(p: Player, ls: LocalState, cameraY: real, q: Platform): Landing {
    if Lands(p, q) then Collide(p, ls, cameraY, q) else Landing(p, ls, q, [])
  }

  /** The forEach of update over the platforms, in list order: every platform that
      passes the landing test against the player as the earlier handlers left it is
      handled; `landed` is the onPlatform flag. */
  function LandingPass(p: Player, ls: LocalState, cameraY: real, ps: seq<Platform>): (r: Pass)
    ensures |r.platforms| == |ps|
    decreases |ps|
  {
    if ps == [] then Pass(p, ls, [], [], false)
    else
      var prev := LandingPass(p, ls, cameraY, ps[..|ps| - 1]);
      var q := ps[|ps| - 1];
      var l := Visit(prev.player, prev.local, cameraY, q);
      Pass(l.player, l.local, prev.platforms + [l.platform], prev.effects + l.effects,
           prev.landed || Lands(prev.player, q))
  }

  /** One more platform of the list is one more step of the pass. */
  lemma PassSnoc(p: Player, ls: LocalState, cameraY: real, ps: seq<Platform>, i: nat)
    requires i < |ps|
    ensures var s := LandingPass(p, ls, cameraY, ps[..i]);
      var l := Visit(s.player, s.local, cameraY, ps[i]);
      LandingPass(p, ls, cameraY, ps[..i + 1])
        == Pass(l.player, l.local, s.platforms + [l.platform], s.effects + l.effects,
                s.landed || Lands(s.player, ps[i]))
  {
    assert ps[..i + 1][..i] == ps[..i];
  }

  /** The player the k-th platform is tested against. */
  function Before(p: Player, ls: LocalState, cameraY: real, ps: seq<Platform>, k: nat): Player
    requires k <= |ps|
  {
    LandingPass(p, ls, cameraY, ps[..k]).player
  }

  /** Before agrees on a list and on any of its prefixes. */
  lemma BeforeOnPrefix(p: Player, ls: LocalState, cameraY: real, ps: seq<Platform>, n: nat, k: nat)
    requires k <= n <= |ps|
    ensures Before(p, ls, cameraY, ps, k) == Before(p, ls, cameraY, ps[..n], k)
  {
    assert ps[..k] == ps[..n][..k];
  }

  /** Every platform is handled exactly when it passes the landing test at its turn. */
  lemma {:induction false} PassHandlesEveryMatch(p: Player, ls: LocalState, cameraY: real, ps: seq<Platform>)
    ensures forall k :: 0 <= k < |ps| ==>
      LandingPass(p, ls, cameraY, ps).platforms[k]
        == if Lands(Before(p, ls, cameraY, ps, k), ps[k]) then Hit(ps[k]) else ps[k]
  {
    if ps != [] {
      var n := |ps| - 1;
      var init := ps[..n];
      PassHandlesEveryMatch(p, ls, cameraY, init);
      var prev := LandingPass(p, ls, cameraY, init);
      var r := LandingPass(p, ls, cameraY, ps);
      BreakableRule(prev.player, prev.local, cameraY, ps[n]);
      assert r.platforms[..n] == prev.platforms;
      forall k | 0 <= k < |ps|
        ensures r.platforms[k] == if Lands(Before(p, ls, cameraY, ps, k), ps[k]) then Hit(ps[k]) else ps[k]
      {
        if k < n {
          BeforeOnPrefix(p, ls, cameraY, ps, n, k);
          assert r.platforms[k] == prev.platforms[k];
          assert init[k] == ps[k];
        } else {
          assert ps[..k] == init;
        }
      }
    }
  }

  /** The onPlatform flag is set exactly when at least one platform passed the test. */
  lemma {:induction false} PassLandedIffSomeMatch(p: Player, ls: LocalState, cameraY: real, ps: seq<Platform>)
    ensures LandingPass(p, ls, cameraY, ps).landed
        <==> exists k :: 0 <= k < |ps| && Lands(Before(p, ls, cameraY, ps, k), ps[k])
  {
    if ps != [] {
      var n := |ps| - 1;
      var init := ps[..n];
      var prev := LandingPass(p, ls, cameraY, init);
      PassLandedIffSomeMatch(p, ls, cameraY, init);
      assert LandingPass(p, ls, cameraY, ps).landed == (prev.landed || Lands(prev.player, ps[n]));
      assert Before(p, ls, cameraY, ps, n) == prev.player;
      if exists k :: 0 <= k < |ps| && Lands(Before(p, ls, cameraY, ps, k), ps[k]) {
        var k :| 0 <= k < |ps| && Lands(Before(p, ls, cameraY, ps, k), ps[k]);
        if k < n {
          BeforeOnPrefix(p, ls, cameraY, ps, n, k);
          assert init[k] == ps[k];
        }
      }
      if exists k :: 0 <= k < |init| && Lands(Before(p, ls, cameraY, init, k), init[k]) {
        var k :| 0 <= k < |init| && Lands(Before(p, ls, cameraY, init, k), init[k]);
        BeforeOnPrefix(p, ls, cameraY, ps, n, k);
        assert init[k] == ps[k];
      }
    }
  }

  /** The platform handlePlatformCollision leaves behind is Hit of the one it got. */
  lemma BreakableRule(p: Player, ls: LocalState, cameraY: real, q: Platform)
    ensures Collide(p, ls, cameraY, q).platform == Hit(q)
  {
  }

  /** With the camera at or above 0 no landing of the pass scores: score and combo are
      what they were before the pass. */
  lemma {:induction false} PassNeverScores(p: Player, ls: LocalState, cameraY: real, ps: seq<Platform>)
    requires cameraY <= 0.0 && ls.combo >= 0
    ensures LandingPass(p, ls, cameraY, ps).local.score == ls.score
    ensures LandingPass(p, ls, cameraY, ps).local.combo == ls.combo
  {
    if ps != [] {
      PassNeverScores(p, ls, cameraY, ps[..|ps| - 1]);
      var prev := LandingPass(p, ls, cameraY, ps[..|ps| - 1]);
      ScoringNeedsLowCamera(prev.player, prev.local, cameraY, ps[|ps| - 1]);
    }
  }

  /** The landing step of update: the pass, then the combo reset when the player is
      still falling and no platform was handled. */
  function AfterLanding(p: Player, ls: LocalState, cameraY: real, ps: seq<Platform>): Pass {
    var r := LandingPass(p, ls, cameraY, ps);
    if !r.landed && r.player.vy > 0.0 then
      Pass(r.player, r.local.(combo := 0), r.platforms, r.effects, r.landed)
    else r
  }

  /** The combo is reset exactly when no platform passed the landing test and the
      player is falling after the handlers; otherwise the pass's combo stands. */
  lemma ComboResetRule(p: Player, ls: LocalState, cameraY: real, ps: seq<Platform>)
    ensures var pass := LandingPass(p, ls, cameraY, ps);
      var missed := forall k :: 0 <= k < |ps| ==> !Lands(Before(p, ls, cameraY, ps, k), ps[k]);
      var r := AfterLanding(p, ls, cameraY, ps);
      r.local == (if missed && pass.player.vy > 0.0 then pass.local.(combo := 0) else pass.local) &&
      r.player == pass.player && r.platforms == pass.platforms && r.effects == pass.effects
  {
    PassLandedIffSomeMatch(p, ls, cameraY, ps);
  }

  /** A landing moves the player only vertically: x, vx and the direction stay. */
  lemma CollideKeepsX(p: Player, ls: LocalState, cameraY: real, q: Platform)
    ensures var l := Collide(p, ls, cameraY, q);
      l.player.x == p.x && l.player.vx == p.vx && l.player.direction == p.direction &&
      l.player.hasShield == p.hasShield
  {
    var first := Respond(p, ls, q);
    assert first.player == p.(vy := first.player.vy, isRocket := first.player.isRocket);
  }

  lemma {:induction false} PassKeepsX(p: Player, ls: LocalState, cameraY: real, ps: seq<Platform>)
    ensures var r := LandingPass(p, ls, cameraY, ps).player;
      r.x == p.x && r.vx == p.vx && r.direction == p.direction && r.hasShield == p.hasShield
  {
    if ps != [] {
      PassKeepsX(p, ls, cameraY, ps[..|ps| - 1]);
      var prev := LandingPass(p, ls, cameraY, ps[..|ps| - 1]);
      CollideKeepsX(prev.player, prev.local, cameraY, ps[|ps| - 1]);
    }
  }

  /** A landing never touches the shield, the magnet, the coins or the game-over flag. */
  lemma CollideKeepsPowerUps(p: Player, ls: LocalState, cameraY: real, q: Platform)
    ensures var l := Collide(p, ls, cameraY, q);
      l.local.shieldActive == ls.shieldActive && l.local.shieldTime == ls.shieldTime &&
      l.local.magnetActive == ls.magnetActive && l.local.magnetTime == ls.magnetTime &&
      l.local.coins == ls.coins && l.local.gameOver == ls.gameOver
  {
    SnapKeepsPowerUps(Respond(p, ls, q), cameraY);
  }

  lemma SnapKeepsPowerUps(l: Landing, cameraY: real)
    ensures var r := Snap(l, cameraY).local;
      r.shieldActive == l.local.shieldActive && r.shieldTime == l.local.shieldTime &&
      r.magnetActive == l.local.magnetActive && r.magnetTime == l.local.magnetTime &&
      r.coins == l.local.coins && r.gameOver == l.local.gameOver
  {
  }

  lemma {:induction false} PassKeepsPowerUps(p: Player, ls: LocalState, cameraY: real, ps: seq<Platform>)
    ensures var r := LandingPass(p, ls, cameraY, ps);
      r.local.shieldActive == ls.shieldActive && r.local.shieldTime == ls.shieldTime &&
      r.local.magnetActive == ls.magnetActive && r.local.magnetTime == ls.magnetTime &&
      r.local.coins == ls.coins && r.local.gameOver == ls.gameOver
  {
    if ps != [] {
      PassKeepsPowerUps(p, ls, cameraY, ps[..|ps| - 1]);
      var prev := LandingPass(p, ls, cameraY, ps[..|ps| - 1]);
      CollideKeepsPowerUps(prev.player, prev.local, cameraY, ps[|ps| - 1]);
    }
  }

  /** Without a rocket platform in the list, the pass leaves the rocket alone. */
  lemma {:induction false} PassWithoutRocket(p: Player, ls: LocalState, cameraY: real, ps: seq<Platform>)
    requires forall k :: 0 <= k < |ps| ==> ps[k].kind != Rocket
    ensures var r := LandingPass(p, ls, cameraY, ps);
      r.local.rocketActive == ls.rocketActive && r.local.rocketTime == ls.rocketTime &&
      r.player.isRocket == p.isRocket
  {
    if ps != [] {
      var n := |ps| - 1;
      forall k | 0 <= k < n ensures ps[..n][k].kind != Rocket {
        assert ps[..n][k] == ps[k];
      }
      PassWithoutRocket(p, ls, cameraY, ps[..n]);
      var prev := LandingPass(p, ls, cameraY, ps[..n]);
      RocketOnlyFromRocketPlatform(prev.player, prev.local, cameraY, ps[n]);
    }
  }
}
