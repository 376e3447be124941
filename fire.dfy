/**
 * `js/effects/FireEffect.js`: the flame on a target ring. A fixed pool of
 * particle slots is recycled: spawning takes the first free slot (and does
 * nothing when none is free), every frame ages the slots in flight and
 * retires those whose life has run out, and `disable` stops everything at
 * once. Particle motion and colour are left out; the life clock, the
 * active/visible flags, opacity and scale are kept.
 */
module Fire {
  import opened Wrappers
  import opened Utils
  import opened Vectors

  /** `maxParticles`: the size of the pool. */
  const MaxParticles: nat := 200

  /**
   * One slot of `particlePool`: its life clock, its life span, whether it
   * is in flight, and its mesh's visibility, opacity and scale.
   */
  datatype Particle = Particle(life: real, maxLife: real, active: bool, visible: bool, opacity: real, scale: real)

  /** A slot as the constructor creates it: idle and hidden, with life 0. */
  const Idle := Particle(0.0, 0.0, false, false, 1.0, 1.0)

  /** `0.8 + Math.random() * 0.7`: a particle's life span in seconds. */
  function MaxLifeOf(r: real): (m: real)
    requires IsRandom(r)
    ensures 0.8 <= m < 1.5
  {
    0.8 + r * 0.7
  }

  /** A freshly spawned particle. */
  function Fresh(r: real): Particle
    requires IsRandom(r)
  {
    Particle(0.0, MaxLifeOf(r), true, true, 1.0, 1.0)
  }

  /**
   * What every slot satisfies between calls: its mesh is shown exactly
   * while it is in flight, and a slot in flight has a life span in
   * `[0.8, 1.5)` and has not yet outlived it.
   */
  predicate WellFormed(p: Particle) {
    p.visible == p.active
    && (p.active ==> 0.0 <= p.life < p.maxLife && 0.8 <= p.maxLife < 1.5)
  }

  predicate AllWellFormed(pool: seq<Particle>) {
    forall i :: 0 <= i < |pool| ==> WellFormed(pool[i])
  }

  // ---------------------------------------------------------------------
  // spawnParticle
  // ---------------------------------------------------------------------

  /** `particlePool.find(p => !p.active)`, as an index. */
  function FirstInactive(pool: seq<Particle>): (r: Option<nat>)
    ensures r.None? <==> forall i :: 0 <= i < |pool| ==> pool[i].active
    ensures r.Some? ==> (r.value < |pool| && !pool[r.value].active
      && forall i :: 0 <= i < r.value ==> pool[i].active)
  {
    if pool == [] then None
    else if !pool[0].active then Some(0)
    else
      match FirstInactive(pool[1..])
      case None => None
      case Some(k) => Some(k + 1)
  }

  /** The pool after one `spawnParticle()` drawing `r`. */
  function Spawned(pool: seq<Particle>, r: real): (spawned: seq<Particle>)
    requires IsRandom(r)
    ensures |spawned| == |pool|
    ensures AllWellFormed(pool) ==> AllWellFormed(spawned)
  {
    match FirstInactive(pool)
    case None => pool
    case Some(k) => pool[k := Fresh(r)]
  }

  /** The number of slots in flight. */
  function ActiveCount(pool: seq<Particle>): (n: nat)
    ensures n <= |pool|
  {
    if pool == [] then 0
    else ActiveCount(pool[..|pool| - 1]) + (if pool[|pool| - 1].active then 1 else 0)
  }

  /** A full pool is exactly one whose every slot is in flight. */
  lemma {:induction false} ActiveCountFull(pool: seq<Particle>)
    ensures ActiveCount(pool) == |pool| <==> forall i :: 0 <= i < |pool| ==> pool[i].active
  {
    if pool != [] {
      var init := pool[..|pool| - 1];
      ActiveCountFull(init);
      assert forall i :: 0 <= i < |init| ==> init[i] == pool[i];
    }
  }

  /** No slot is in flight exactly when the count is zero. */
  lemma {:induction false} ActiveCountEmpty(pool: seq<Particle>)
    ensures ActiveCount(pool) == 0 <==> forall i :: 0 <= i < |pool| ==> !pool[i].active
  {
    if pool != [] {
      var init := pool[..|pool| - 1];
      ActiveCountEmpty(init);
      assert forall i :: 0 <= i < |init| ==> init[i] == pool[i];
    }
  }

  /** Turning one idle slot on adds one to the count. */
  lemma {:induction false} ActiveCountUpdate(pool: seq<Particle>, k: nat, p: Particle)
    requires k < |pool| && !pool[k].active && p.active
    ensures ActiveCount(pool[k := p]) == ActiveCount(pool) + 1
  {
    var init := pool[..|pool| - 1];
    var q := pool[k := p];
    assert q[..|q| - 1] == if k < |pool| - 1 then init[k := p] else init;
    if k < |pool| - 1 {
      ActiveCountUpdate(init, k, p);
    }
  }

  /**
   * `spawnParticle` turns on the first idle slot, with life 0 and a life
   * span in `[0.8, 1.5)`, and changes nothing when every slot is in
   * flight; one more slot is in flight when one was free.
   */
  lemma SpawnedSpec(pool: seq<Particle>, r: real)
    requires IsRandom(r)
    ensures ActiveCount(pool) == |pool| ==> Spawned(pool, r) == pool
    ensures ActiveCount(pool) < |pool| ==>
      exists k :: 0 <= k < |pool| && !pool[k].active && (forall i :: 0 <= i < k ==> pool[i].active)
        && Spawned(pool, r) == pool[k := Particle(0.0, MaxLifeOf(r), true, true, 1.0, 1.0)]
    ensures ActiveCount(Spawned(pool, r)) == if ActiveCount(pool) < |pool| then ActiveCount(pool) + 1 else ActiveCount(pool)
  {
    ActiveCountFull(pool);
    match FirstInactive(pool)
    case None =>
    case Some(k) =>
      ActiveCountUpdate(pool, k, Fresh(r));
  }

  /** The pool after `spawnRate` calls to `spawnParticle`, one draw each. */
  function SpawnedAll(pool: seq<Particle>, rands: seq<real>): (spawned: seq<Particle>)
    requires AllRandom(rands)
    ensures |spawned| == |pool|
    ensures AllWellFormed(pool) ==> AllWellFormed(spawned)
  {
    if rands == [] then pool
    else Spawned(SpawnedAll(pool, rands[..|rands| - 1]), rands[|rands| - 1])
  }

  function Min(a: int, b: int): int {
    if a <= b then a else b
  }

  /**
   * A burst of spawns fills as many idle slots as it has attempts, and
   * never more than the pool holds.
   */
  lemma {:induction false} SpawnedAllSpec(pool: seq<Particle>, rands: seq<real>)
    requires AllRandom(rands)
    ensures ActiveCount(SpawnedAll(pool, rands)) == Min(|pool|, ActiveCount(pool) + |rands|)
  {
    if rands != [] {
      var init := rands[..|rands| - 1];
      SpawnedAllSpec(pool, init);
      SpawnedSpec(SpawnedAll(pool, init), rands[|rands| - 1]);
    }
  }

  // ---------------------------------------------------------------------
  // update: ageing
  // ---------------------------------------------------------------------

  /**
   * One slot after a frame of `deltaTime` seconds: an idle slot is left
   * alone; a slot in flight ages, and is retired once its life reaches its
   * span, otherwise fades to `1 - p²` and shrinks to `1 - p/2` for
   * `p = life / maxLife`.
   */
  function Aged(p: Particle, deltaTime: real): Particle
    requires WellFormed(p)
  {
    if !p.active then p
    else
      var life := p.life + deltaTime;
      if life >= p.maxLife then p.(life := life, active := false, visible := false)
      else
        var progress := life / p.maxLife;
        p.(life := life, opacity := 1.0 - progress * progress, scale := 1.0 - progress * 0.5)
  }

  /** `0 <= a < b` gives a ratio in `[0, 1)`. */
  lemma RatioBelowOne(a: real, b: real)
    requires 0.0 <= a < b
    ensures 0.0 <= a / b < 1.0
  {
    var q := a / b;
    DivideBack(a / b, b);
    assert q * b == a;
    assert (1.0 - q) * b == b - a;
    FactorPositive(1.0 - q, b);
    FactorNonNegative(q, b);
  }

  /** For `p` in `[0, 1)`, `p²` is in `[0, 1)` too. */
  lemma SquareBelowOne(q: real)
    requires 0.0 <= q < 1.0
    ensures 0.0 <= q * q < 1.0
  {
    ProductNonNegative(q, q);
    ProductNonNegative(q, 1.0 - q);
    assert q * (1.0 - q) == q - q * q;
    assert q * q <= q;
  }

  /**
   * Ageing a well-formed slot by a non-negative time: an idle slot is
   * untouched; a slot stays in flight exactly when its new life is short
   * of its span; it stays well formed; and a slot still in flight has an
   * opacity in `(0, 1]` and a scale in `(0.5, 1]`.
   */
  lemma AgedSpec(p: Particle, deltaTime: real)
    requires WellFormed(p) && deltaTime >= 0.0
    ensures !p.active ==> Aged(p, deltaTime) == p
    ensures Aged(p, deltaTime).active <==> p.active && p.life + deltaTime < p.maxLife
    ensures p.active ==> Aged(p, deltaTime).life == p.life + deltaTime
    ensures WellFormed(Aged(p, deltaTime))
    ensures p.active && Aged(p, deltaTime).active ==>
      0.0 < Aged(p, deltaTime).opacity <= 1.0 && 0.5 < Aged(p, deltaTime).scale <= 1.0
  {
    if p.active && p.life + deltaTime < p.maxLife {
      var q := (p.life + deltaTime) / p.maxLife;
      RatioBelowOne(p.life + deltaTime, p.maxLife);
      SquareBelowOne(q);
    }
  }

  /** `spawnRate`: 8 spawn attempts per frame at night, 5 by day. */
  function SpawnRate(isNight: bool): nat {
    if isNight then 8 else 5
  }

  // ---------------------------------------------------------------------
  // The FireEffect object
  // ---------------------------------------------------------------------

  class FireEffect {
    var enabled: bool
    var pool: seq<Particle>

    ghost predicate Valid()
      reads this
    {
      AllWellFormed(pool)
    }

    /** `new FireEffect(hoop)`: disabled, with `maxParticles` idle slots. */
    constructor ()
      ensures !enabled && |pool| == MaxParticles
      ensures forall i :: 0 <= i < |pool| ==> pool[i] == Idle
      ensures Valid() && ActiveCount(pool) == 0
    {
      enabled := false;
      var slots: seq<Particle> := [];
      for i := 0 to MaxParticles
        invariant |slots| == i && forall j :: 0 <= j < i ==> slots[j] == Idle
        invariant ActiveCount(slots) == 0
      {
        ghost var prev := slots;
        slots := slots + [Idle];
        assert slots[..|slots| - 1] == prev;
      }
      pool := slots;
    }

    /** `enable()`: turns spawning on and touches nothing else. */
    method Enable()
      modifies this
      ensures enabled && pool == old(pool)
    {
      enabled := true;
    }

    /** `disable()`: turns spawning off and stops and hides every slot at once. */
    method Disable()
      modifies this
      ensures !enabled && |pool| == |old(pool)|
      ensures forall i :: 0 <= i < |pool| ==> pool[i] == old(pool[i]).(active := false, visible := false)
      ensures Valid() && ActiveCount(pool) == 0
    {
      enabled := false;
      for i := 0 to |pool|
        invariant !enabled && |pool| == |old(pool)|
        invariant forall j :: 0 <= j < i ==> pool[j] == old(pool[j]).(active := false, visible := false)
        invariant forall j :: i <= j < |pool| ==> pool[j] == old(pool[j])
      {
        pool := pool[i := pool[i].(active := false, visible := false)];
      }
      ActiveCountEmpty(pool);
      NoneActive(pool);
    }

    /** `spawnParticle()` drawing `r` for the particle's life span. */
    method SpawnParticle(r: real)
      requires IsRandom(r)
      modifies this
      ensures pool == Spawned(old(pool), r) && enabled == old(enabled)
    {
      var k := 0;
      while k < |pool| && pool[k].active
        invariant 0 <= k <= |pool|
        invariant forall i :: 0 <= i < k ==> pool[i].active
      {
        k := k + 1;
      }
      if k == |pool| {
        return;
      }
      pool := pool[k := Particle(0.0, 0.8 + r * 0.7, true, true, 1.0, 1.0)];
    }

    /**
     * `update(deltaTime)` with `CONFIG.isNight`: when enabled, `spawnRate`
     * spawn attempts drawing `rands`; then every slot in flight is aged,
     * even while disabled so that the flame fades out.
     */
    method Update(deltaTime: real, isNight: bool, rands: seq<real>)
      requires Valid() && deltaTime >= 0.0
      requires |rands| == SpawnRate(isNight) && AllRandom(rands)
      modifies this
      ensures enabled == old(enabled)
      ensures var spawned := if old(enabled) then SpawnedAll(old(pool), rands) else old(pool);
        |pool| == |spawned| && forall i :: 0 <= i < |pool| ==> pool[i] == Aged(spawned[i], deltaTime)
      ensures Valid() && |pool| == |old(pool)|
    {
      if enabled {
        var spawnRate := if isNight then 8 else 5;
        for i := 0 to spawnRate
          invariant pool == SpawnedAll(old(pool), rands[..i]) && enabled == old(enabled)
        {
          SpawnParticle(rands[i]);
          assert rands[..i + 1][..i] == rands[..i];
        }
        assert rands[..spawnRate] == rands;
      }
      AgeParticles(deltaTime);
    }

    /** The `particlePool.forEach` of `update`: ages every slot in flight by `deltaTime`. */
    method AgeParticles(deltaTime: real)
      requires Valid() && deltaTime >= 0.0
      modifies this
      ensures enabled == old(enabled) && |pool| == |old(pool)|
      ensures forall i :: 0 <= i < |pool| ==> pool[i] == Aged(old(pool[i]), deltaTime)
      ensures Valid()
    {
      for i := 0 to |pool|
        invariant enabled == old(enabled) && |pool| == |old(pool)|
        invariant forall j :: 0 <= j < i ==> pool[j] == Aged(old(pool[j]), deltaTime)
        invariant forall j :: i <= j < |pool| ==> pool[j] == old(pool[j])
      {
        var particle := pool[i];
        if particle.active {
          var life := particle.life + deltaTime;
          if life >= particle.maxLife {
            particle := particle.(life := life, active := false, visible := false);
          } else {
            var lifeProgress := life / particle.maxLife;
            particle := particle.(life := life, opacity := 1.0 - lifeProgress * lifeProgress,
                                  scale := 1.0 - lifeProgress * 0.5);
          }
          pool := pool[i := particle];
        }
      }
      forall i | 0 <= i < |pool| ensures WellFormed(pool[i]) {
        AgedSpec(old(pool[i]), deltaTime);
      }
    }

    /** `dispose()`: the pool is emptied. */
    method Dispose()
      modifies this
      ensures pool == [] && enabled == old(enabled)
    {
      pool := [];
    }
  }

  /** A pool with no slot in flight is well formed. */
  lemma NoneActive(pool: seq<Particle>)
    requires forall i :: 0 <= i < |pool| ==> !pool[i].active && !pool[i].visible
    ensures AllWellFormed(pool)
  {
  }
}
