/** Particles: how createParticles and showScorePopup extend the particle list,
    how many Math.random draws they consume, and how updateParticles ages the list. */
module Effects {
  import opened Entities

  /** The `count` particles createParticles(x, y, count, color) appends when the
      random stream is at position `from`: each takes three draws, in the order
      velocityX, velocityY, size. */
  function Sparks(x: real, y: real, count: nat, color: string, random: nat -> real, from: nat): (ps: seq<Particle>)
    ensures |ps| == count
    ensures forall k :: 0 <= k < count ==>
      ps[k].Spark? && ps[k].x == x && ps[k].y == y && ps[k].life == 30 && ps[k].color == color
    ensures UnitDraws(random) ==> forall k :: 0 <= k < count ==>
      -2.0 <= ps[k].vx < 2.0 && -2.0 <= ps[k].vy < 2.0 && 1.0 <= ps[k].size < 4.0
  {
    seq(count, k requires 0 <= k < count =>
      Spark(x, y, (Draw(random, from + 3 * k) - 0.5) * 4.0, (Draw(random, from + 3 * k + 1) - 0.5) * 4.0,
            30, color, Draw(random, from + 3 * k + 2) * 3.0 + 1.0))
  }

  lemma SparksSnoc(x: real, y: real, count: nat, color: string, random: nat -> real, from: nat)
    ensures Sparks(x, y, count + 1, color, random, from)
         == Sparks(x, y, count, color, random, from)
            + [Spark(x, y, (Draw(random, from + 3 * count) - 0.5) * 4.0,
                     (Draw(random, from + 3 * count + 1) - 0.5) * 4.0,
                     30, color, Draw(random, from + 3 * count + 2) * 3.0 + 1.0)]
  {
  }

  /** The number of Math.random draws one effect consumes. */
  function EffectDraws(e: Effect): nat {
    match e
    case Burst(_, _, count, _) => 3 * count
    case ScoreText(_, _, _) => 0
  }

  function Draws(fx: seq<Effect>): nat {
    if fx == [] then 0 else EffectDraws(fx[0]) + Draws(fx[1..])
  }

  /** The particles one effect appends; a score text floats up with speed 2 for 60 ticks. */
  function EffectParticles(e: Effect, random: nat -> real, from: nat): seq<Particle> {
    match e
    case Burst(x, y, count, color) => Sparks(x, y, count, color, random, from)
    case ScoreText(x, y, points) => [Popup(x, y, 0.0, -2.0, 60, points)]
  }

  /** The particles a sequence of effects appends, in order, starting at stream position `from`. */
  function Emitted(fx: seq<Effect>, random: nat -> real, from: nat): seq<Particle> {
    if fx == [] then []
    else EffectParticles(fx[0], random, from) + Emitted(fx[1..], random, from + EffectDraws(fx[0]))
  }

  lemma EmittedOne(e: Effect, random: nat -> real, from: nat)
    ensures Emitted([e], random, from) == EffectParticles(e, random, from)
    ensures Draws([e]) == EffectDraws(e)
  {
    assert [e][1..] == [];
  }

  /** Appending two batches to a list of particles one after the other is appending
      what their concatenation emits: `mid` is the list after the first batch, drawn
      from `from`, and `post` the list after the second, drawn from `at`. */
  lemma EmittedExtend(pre: seq<Particle>, a: seq<Effect>, b: seq<Effect>, random: nat -> real,
                      from: nat, mid: seq<Particle>, at: nat, post: seq<Particle>)
    requires mid == pre + Emitted(a, random, from) && at == from + Draws(a)
    requires post == mid + Emitted(b, random, at)
    ensures post == pre + Emitted(a + b, random, from)
    ensures at + Draws(b) == from + Draws(a + b)
  {
    var x, y := Emitted(a, random, from), Emitted(b, random, at);
    assert Emitted(a + b, random, from) == x + y && Draws(a + b) == Draws(a) + Draws(b) by {
      EmittedAppend(a, b, random, from);
    }
    ConcatAssoc(pre, x, y);
  }

  /** A non-empty batch emits its first effect, then the rest from past its draws. */
  lemma EmittedCons(fx: seq<Effect>, random: nat -> real, from: nat)
    requires fx != []
    ensures Emitted(fx, random, from)
         == EffectParticles(fx[0], random, from) + Emitted(fx[1..], random, from + EffectDraws(fx[0]))
    ensures Draws(fx) == EffectDraws(fx[0]) + Draws(fx[1..])
  {
  }

  /** Emitting two batches one after the other is emitting their concatenation. */
  lemma {:induction false} EmittedAppend(a: seq<Effect>, b: seq<Effect>, random: nat -> real, from: nat)
    ensures Emitted(a + b, random, from) == Emitted(a, random, from) + Emitted(b, random, from + Draws(a))
    ensures Draws(a + b) == Draws(a) + Draws(b)
  {
    if a == [] {
      assert a + b == b;
    } else {
      var e, rest := a[0], a[1..];
      var d := from + EffectDraws(e);
      assert (a + b)[0] == e && (a + b)[1..] == rest + b;
      EmittedCons(a, random, from);
      EmittedCons(a + b, random, from);
      EmittedAppend(rest, b, random, d);
      ConcatAssoc(EffectParticles(e, random, from), Emitted(rest, random, d), Emitted(b, random, d + Draws(rest)));
    }
  }

  /** One tick of updateParticles for one particle: move by the old velocity, lose one
      unit of life, fall with gravity 0.1, and for a score text damp the vertical speed. */
  function Decay(q: Particle): (r: Particle)
    ensures r.life == q.life - 1 && r.x == q.x + q.vx && r.y == q.y + q.vy && r.vx == q.vx
    ensures r.Spark? == q.Spark?
    ensures r.vy == if q.Popup? then (q.vy + 0.1) * 0.95 else q.vy + 0.1
  {
    match q
    case Spark(x, y, vx, vy, life, color, size) =>
      Spark(x + vx, y + vy, vx, vy + 0.1, life - 1, color, size)
    case Popup(x, y, vx, vy, life, points) =>
      Popup(x + vx, y + vy, vx, (vy + 0.1) * 0.95, life - 1, points)
  }

  function DecayAll(ps: seq<Particle>): (rs: seq<Particle>)
    ensures |rs| == |ps| && forall k :: 0 <= k < |ps| ==> rs[k] == Decay(ps[k])
  {
    seq(|ps|, k requires 0 <= k < |ps| => Decay(ps[k]))
  }

  /** The filter `particle.life > 0`. */
  function LiveParticles(ps: seq<Particle>): seq<Particle> {
    if ps == [] then []
    else if ps[0].life > 0 then [ps[0]] + LiveParticles(ps[1..])
    else LiveParticles(ps[1..])
  }

  /** The filter keeps exactly the particles with life left, and no more of them. */
  lemma {:induction false} LiveParticlesSpec(ps: seq<Particle>)
    ensures forall q :: q in LiveParticles(ps) <==> q in ps && q.life > 0
    ensures |LiveParticles(ps)| <= |ps|
  {
    if ps != [] {
      LiveParticlesSpec(ps[1..]);
      assert ps == [ps[0]] + ps[1..];
    }
  }

  /** The filter keeps the order of the list. */
  lemma {:induction false} LiveParticlesAppend(a: seq<Particle>, b: seq<Particle>)
    ensures LiveParticles(a + b) == LiveParticles(a) + LiveParticles(b)
  {
    if a == [] {
      assert a + b == b;
    } else {
      assert (a + b)[0] == a[0] && (a + b)[1..] == a[1..] + b;
      LiveParticlesAppend(a[1..], b);
    }
  }

  lemma DecayAllAppend(a: seq<Particle>, b: seq<Particle>)
    ensures DecayAll(a + b) == DecayAll(a) + DecayAll(b)
  {
    assert forall k :: 0 <= k < |a + b| ==> DecayAll(a + b)[k] == (DecayAll(a) + DecayAll(b))[k];
  }

  /** A particle after k ticks of updateParticles: it has lost exactly k units of life. */
  function DecayN(q: Particle, k: nat): (r: Particle)
    ensures r.life == q.life - k && r.Spark? == q.Spark?
  {
    if k == 0 then q else Decay(DecayN(q, k - 1))
  }

  /** The particle list after k calls of updateParticles with no particles added. */
  function Aged(ps: seq<Particle>, k: nat): seq<Particle> {
    if k == 0 then ps else LiveParticles(DecayAll(Aged(ps, k - 1)))
  }

  /** Reference definition of aging: the particles that had more than k life left, in
      their order, each aged by k ticks. */
  function Survivors(ps: seq<Particle>, k: nat): seq<Particle> {
    if ps == [] then []
    else (if ps[0].life > k then [DecayN(ps[0], k)] else []) + Survivors(ps[1..], k)
  }

  /** One more tick of the survivors after k ticks is the survivors after k + 1. */
  lemma {:induction false} SurvivorsTick(ps: seq<Particle>, k: nat)
    ensures LiveParticles(DecayAll(Survivors(ps, k))) == Survivors(ps, k + 1)
  {
    if ps != [] {
      var head: seq<Particle> := if ps[0].life > k then [DecayN(ps[0], k)] else [];
      var tail := Survivors(ps[1..], k);
      DecayAllAppend(head, tail);
      LiveParticlesAppend(DecayAll(head), DecayAll(tail));
      SurvivorsTick(ps[1..], k);
      if ps[0].life > k {
        assert DecayAll(head) == [DecayN(ps[0], k + 1)];
        assert LiveParticles(DecayAll(head)) == (if ps[0].life > k + 1 then [DecayN(ps[0], k + 1)] else []) by {
          assert [DecayN(ps[0], k + 1)][1..] == [];
        }
      } else {
        assert DecayAll(head) == [];
      }
    }
  }

  lemma {:induction false} SurvivorsNone(ps: seq<Particle>)
    requires forall i :: 0 <= i < |ps| ==> ps[i].life > 0
    ensures Survivors(ps, 0) == ps
  {
    if ps != [] {
      SurvivorsNone(ps[1..]);
      assert ps == [ps[0]] + ps[1..];
    }
  }

  /** A list of live particles after k calls of updateParticles holds exactly the particles
      that had more than k life left, in order, each with k less life. */
  lemma {:induction false} AgedIsSurvivors(ps: seq<Particle>, k: nat)
    requires forall i :: 0 <= i < |ps| ==> ps[i].life > 0
    ensures Aged(ps, k) == Survivors(ps, k)
  {
    if k == 0 {
      SurvivorsNone(ps);
    } else {
      AgedIsSurvivors(ps, k - 1);
      SurvivorsTick(ps, k - 1);
    }
  }

  lemma {:induction false} SurvivorsExpire(ps: seq<Particle>, k: nat)
    requires forall i :: 0 <= i < |ps| ==> ps[i].life <= k
    ensures Survivors(ps, k) == []
  {
    if ps != [] {
      SurvivorsExpire(ps[1..], k);
    }
  }

  /** Every particle expires: when no particle of the list has more than m life, the list is
      empty after m calls of updateParticles and every call after. Sparks start with 30,
      score texts with 60. */
  lemma ParticlesExpire(ps: seq<Particle>, m: nat, k: nat)
    requires forall i :: 0 <= i < |ps| ==> 0 < ps[i].life <= m
    requires k >= m
    ensures Aged(ps, k) == []
  {
    AgedIsSurvivors(ps, k);
    SurvivorsExpire(ps, k);
  }
}
