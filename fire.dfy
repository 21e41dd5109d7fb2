/** The fire rule: fire burns down its health, tests its eight neighbours in turn
    (setting flammable ones alight, and going out on contact with water or acid,
    when it turns back into what it was burning), and now and then gives off smoke
    into an empty cell above or below. */
module Fire {
  import opened Particles
  import opened SimConfig
  import opened Grid
  import opened Reactions
  import opened Gases

  /** The neighbours update_fire tests, in the order of its `||` chain. */
  const FIRE_PROBES: seq<(int, int)> :=
    [(0, 1), (0, -1), (1, 0), (-1, 0), (1, 1), (1, -1), (-1, 1), (-1, -1)]

  /** The position of index k is (x, y) moved by one of the fire's offsets. */
  predicate FireProbed(k: int, x: int, y: int) {
    (k % WIDTH - x, k / WIDTH - y) in FIRE_PROBES
  }

  /** The short-circuit chain of flammability checks with steam from the j-th
      neighbour on: whether one put the fire out, the grid, and the roll count. */
  function FireChecks(s: seq<Particle>, x: int, y: int, j: nat, rolls: nat -> nat, n: nat)
    : (r: (bool, seq<Particle>, nat))
    requires |s| == SIZE && AllWellFormed(s) && j <= |FIRE_PROBES|
    ensures |r.1| == SIZE && AllWellFormed(r.1) && n <= r.2
    decreases |FIRE_PROBES| - j
  {
    if j == |FIRE_PROBES| then (false, s, n)
    else
      var c := FlammabilityProbe(s, x + FIRE_PROBES[j].0, y + FIRE_PROBES[j].1, true, rolls, n);
      if c.0 then c else FireChecks(c.1, x, y, j + 1, rolls, c.2)
  }

  /** Every cell in which t differs from s is a neighbour of (x, y) that was
      flammable and is now fire that remembers it. */
  ghost predicate IgnitedOnly(s: seq<Particle>, t: seq<Particle>, x: int, y: int)
    requires |s| == SIZE && |t| == SIZE && AllWellFormed(s)
  {
    forall k :: 0 <= k < SIZE && t[k] != s[k] ==>
      FireProbed(k, x, y) && Flammability(s[k].material) > 0 && t[k] == Ignited(s[k])
  }

  /** No neighbour of (x, y) is water or acid. */
  ghost predicate NoLiquidAround(s: seq<Particle>, x: int, y: int)
    requires |s| == SIZE
  {
    forall j :: 0 <= j < |FIRE_PROBES| ==>
      var px, py := x + FIRE_PROBES[j].0, y + FIRE_PROBES[j].1;
      InBounds(px, py) ==> !(s[Index(px, py)].material.Water? || s[Index(px, py)].material.Acid?)
  }

  /** Every cell in which t differs from s is a neighbour of (x, y) that was
      flammable and is now alight, or, when the fire was put out, water that is now
      steam. */
  ghost predicate BurntOrDoused(s: seq<Particle>, t: seq<Particle>, x: int, y: int, out: bool)
    requires |s| == SIZE && |t| == SIZE && AllWellFormed(s)
  {
    forall k :: 0 <= k < SIZE && t[k] != s[k] ==>
      FireProbed(k, x, y) &&
      ((Flammability(s[k].material) > 0 && t[k] == Ignited(s[k])) ||
       (out && s[k].material.Water? && t[k] == WithHealth(Steam, STEAM_BASE_HEALTH)))
  }

  /** One more probe of the chain, at the j-th neighbour: if it does not put the
      fire out it keeps IgnitedOnly; if it does, the neighbour was water or acid,
      and the grid is burnt or doused. */
  lemma FireProbeStep(s: seq<Particle>, t: seq<Particle>, x: int, y: int, j: nat, rolls: nat -> nat, n: nat)
    requires |s| == SIZE && |t| == SIZE && AllWellFormed(s) && AllWellFormed(t)
    requires j < |FIRE_PROBES| && IgnitedOnly(s, t, x, y)
    ensures var c := FlammabilityProbe(t, x + FIRE_PROBES[j].0, y + FIRE_PROBES[j].1, true, rolls, n);
      && (!c.0 ==> IgnitedOnly(s, c.1, x, y))
      && (c.0 ==> BurntOrDoused(s, c.1, x, y, true))
      && (c.0 ==> !NoLiquidAround(s, x, y))
  {
    var px, py := x + FIRE_PROBES[j].0, y + FIRE_PROBES[j].1;
    var c := FlammabilityProbe(t, px, py, true, rolls, n);
    if InBounds(px, py) {
      var i := Index(px, py);
      assert i % WIDTH == px && i / WIDTH == py;
      assert FireProbed(i, x, y) by {
        assert FIRE_PROBES[j] == (px - x, py - y);
      }
      FlammabilityCodes(t[i].material);
      FlammabilityCodes(s[i].material);
      if t[i] != s[i] {
        assert t[i].material == Fire;
        assert c.1[i] == t[i];
        assert !c.0;
      }
      forall k | 0 <= k < SIZE && c.1[k] != s[k]
        ensures FireProbed(k, x, y)
        ensures !c.0 ==> Flammability(s[k].material) > 0 && c.1[k] == Ignited(s[k])
        ensures c.0 ==>
          (Flammability(s[k].material) > 0 && c.1[k] == Ignited(s[k])) ||
          (s[k].material.Water? && c.1[k] == WithHealth(Steam, STEAM_BASE_HEALTH))
      {
      }
      if c.0 {
        assert s[i].material.Water? || s[i].material.Acid?;
      }
    }
  }

  /** What the chain does to the grid: it sets flammable neighbours alight and, when
      it puts the fire out by water, turns that water into steam; nothing else
      changes. It can put the fire out only if some neighbour is water or acid. */
  lemma {:induction false} FireChecksEffect(s: seq<Particle>, t: seq<Particle>, x: int, y: int, j: nat,
                                            rolls: nat -> nat, n: nat)
    requires |s| == SIZE && |t| == SIZE && AllWellFormed(s) && AllWellFormed(t)
    requires j <= |FIRE_PROBES| && IgnitedOnly(s, t, x, y)
    ensures var r := FireChecks(t, x, y, j, rolls, n);
      && BurntOrDoused(s, r.1, x, y, r.0)
      && (!r.0 ==> IgnitedOnly(s, r.1, x, y))
      && (r.0 ==> !NoLiquidAround(s, x, y))
    decreases |FIRE_PROBES| - j
  {
    if j < |FIRE_PROBES| {
      var c := FlammabilityProbe(t, x + FIRE_PROBES[j].0, y + FIRE_PROBES[j].1, true, rolls, n);
      FireProbeStep(s, t, x, y, j, rolls, n);
      if !c.0 {
        FireChecksEffect(s, c.1, x, y, j + 1, rolls, c.2);
      }
    }
  }

  /** A fire with no water or acid around cannot be put out, and only sets
      flammable neighbours alight. */
  lemma NothingDousesFire(s: seq<Particle>, x: int, y: int, rolls: nat -> nat, n: nat)
    requires |s| == SIZE && AllWellFormed(s) && NoLiquidAround(s, x, y)
    ensures var r := FireChecks(s, x, y, 0, rolls, n);
      && !r.0
      && IgnitedOnly(s, r.1, x, y)
  {
    FireChecksEffect(s, s, x, y, 0, rolls, n);
  }

  /** What a fire that goes out turns back into: the material, phase and colour it
      remembers, at rest; the rest of the record gets defaults. */
  function Reverted(p: Particle): (q: Particle)
    requires WellFormed(p) && p.payload.Transform?
    ensures WellFormed(q) && q.material == p.payload.oldType && q.flag == p.payload.oldFlag
    ensures q.color == p.payload.oldColor && q.xVel == 0 && q.yVel == 0
  {
    Particle(p.payload.oldType, p.payload.oldFlag, p.payload.oldColor, 0, 0, false,
             DefaultPayload(p.payload.oldType))
  }

  /** The cell smoke goes to: above if that is empty, else below if that is empty. */
  function SmokeCell(s: seq<Particle>, x: int, y: int): (c: (bool, int))
    requires |s| == SIZE
    ensures c.0 ==> InBounds(x, c.1) && s[Index(x, c.1)].flag == EmptyFlag && (c.1 == y - 1 || c.1 == y + 1)
    ensures c.0 && c.1 == y + 1 ==> !(InBounds(x, y - 1) && s[Index(x, y - 1)].flag == EmptyFlag)
    ensures !c.0 ==> !(InBounds(x, y - 1) && s[Index(x, y - 1)].flag == EmptyFlag)
    ensures !c.0 ==> !(InBounds(x, y + 1) && s[Index(x, y + 1)].flag == EmptyFlag)
  {
    if InBounds(x, y - 1) && s[Index(x, y - 1)].flag == EmptyFlag then (true, y - 1)
    else if InBounds(x, y + 1) && s[Index(x, y + 1)].flag == EmptyFlag then (true, y + 1)
    else (false, 0)
  }

  /** The smoke step on a roll: on 1 in SMOKE_CHANCE a fresh smoke record with
      SMOKE_BASE_HEALTH fills the smoke cell, if there is one. */
  function Smoked(s: seq<Particle>, x: int, y: int, roll: nat): (r: seq<Particle>)
    requires |s| == SIZE
    ensures |r| == SIZE
  {
    var c := SmokeCell(s, x, y);
    if roll % SMOKE_CHANCE == 1 && c.0 then s[Index(x, c.1) := WithHealth(Smoke, SMOKE_BASE_HEALTH)] else s
  }

  /** Smoke only ever fills one empty cell directly above or below the fire. */
  lemma SmokeOnlyFillsEmpty(s: seq<Particle>, x: int, y: int, roll: nat)
    requires |s| == SIZE
    ensures forall k :: 0 <= k < SIZE && Smoked(s, x, y, roll)[k] != s[k] ==>
      s[k].flag == EmptyFlag && k % WIDTH == x && (k / WIDTH == y - 1 || k / WIDTH == y + 1) &&
      Smoked(s, x, y, roll)[k] == WithHealth(Smoke, SMOKE_BASE_HEALTH)
    ensures roll % SMOKE_CHANCE != 1 ==> Smoked(s, x, y, roll) == s
  {
  }

  /** The first half of update_fire as a value, for a fire record at (x, y) with
      health left: the decayed fire, the chain of checks, and the fire turned back
      if put out. The result is the grid and the roll count. */
  function Burnt(s: seq<Particle>, x: int, y: int, rolls: nat -> nat, n: nat): (r: (seq<Particle>, nat))
    requires |s| == SIZE && AllWellFormed(s) && InBounds(x, y) && s[Index(x, y)].payload.Transform?
    ensures |r.0| == SIZE && n <= r.1
  {
    var p := Decayed(s[Index(x, y)]);
    var c := FireChecks(s[Index(x, y) := p], x, y, 0, rolls, n);
    (if c.0 then c.1[Index(x, y) := Reverted(p)] else c.1, c.2)
  }

  /** update_fire as a value, for a fire record at (x, y) with health left: the
      burnt grid, then the smoke roll. The result is the grid and the roll count. */
  function FireStep(s: seq<Particle>, x: int, y: int, rolls: nat -> nat, n: nat): (r: (seq<Particle>, nat))
    requires |s| == SIZE && AllWellFormed(s) && InBounds(x, y) && s[Index(x, y)].payload.Transform?
    ensures |r.0| == SIZE && n + 1 <= r.1
  {
    var b := Burnt(s, x, y, rolls, n);
    (Smoked(b.0, x, y, rolls(b.1)), b.1 + 1)
  }

  /** What one update of a burning fire does to the grid: its own cell becomes the
      fire one health lower, or, only if some neighbour is water or acid, what the
      fire had burnt; every other change is a flammable neighbour set alight, a
      water neighbour turned to steam, or smoke in an empty cell directly above or
      below. */
  lemma FireStepEffect(s: seq<Particle>, x: int, y: int, rolls: nat -> nat, n: nat)
    requires |s| == SIZE && AllWellFormed(s) && InBounds(x, y) && s[Index(x, y)].material == Fire
    ensures var r := FireStep(s, x, y, rolls, n);
      && (r.0[Index(x, y)] == Decayed(s[Index(x, y)]) ||
          (!NoLiquidAround(s, x, y) && r.0[Index(x, y)] == Reverted(s[Index(x, y)])))
      && (NoLiquidAround(s, x, y) ==> r.0[Index(x, y)] == Decayed(s[Index(x, y)]))
      && forall k :: 0 <= k < SIZE && k != Index(x, y) && r.0[k] != s[k] ==>
           (FireProbed(k, x, y) &&
            ((Flammability(s[k].material) > 0 && r.0[k] == Ignited(s[k])) ||
             (s[k].material.Water? && r.0[k] == WithHealth(Steam, STEAM_BASE_HEALTH)))) ||
           (s[k].flag == EmptyFlag && k % WIDTH == x && (k / WIDTH == y - 1 || k / WIDTH == y + 1) &&
            r.0[k] == WithHealth(Smoke, SMOKE_BASE_HEALTH))
  {
    var idx := Index(x, y);
    var p := Decayed(s[idx]);
    var s1 := s[idx := p];
    var c := FireChecks(s1, x, y, 0, rolls, n);
    var t := if c.0 then c.1[idx := Reverted(p)] else c.1;
    var u := Smoked(t, x, y, rolls(c.2));
    assert FireStep(s, x, y, rolls, n).0 == u;
    FireChecksEffect(s1, s1, x, y, 0, rolls, n);
    ChecksKeepFireCell(s1, x, y, rolls, n);
    SmokeOnlyFillsEmpty(t, x, y, rolls(c.2));
    assert idx % WIDTH == x && idx / WIDTH == y;
    assert Reverted(p) == Reverted(s[idx]);
    if c.0 {
      NeighboursOfOtherCell(s, s1, x, y);
    }
    forall k | 0 <= k < SIZE && k != idx && u[k] != s[k]
      ensures (FireProbed(k, x, y) &&
            ((Flammability(s[k].material) > 0 && u[k] == Ignited(s[k])) ||
             (s[k].material.Water? && u[k] == WithHealth(Steam, STEAM_BASE_HEALTH)))) ||
           (s[k].flag == EmptyFlag && k % WIDTH == x && (k / WIDTH == y - 1 || k / WIDTH == y + 1) &&
            u[k] == WithHealth(Smoke, SMOKE_BASE_HEALTH))
    {
      assert s1[k] == s[k] && t[k] == c.1[k];
      if u[k] != t[k] {
        assert t[k].flag == EmptyFlag;
      }
    }
  }

  /** Changing the fire's own cell does not change what its neighbours are. */
  lemma NeighboursOfOtherCell(s: seq<Particle>, s1: seq<Particle>, x: int, y: int)
    requires |s| == SIZE && |s1| == SIZE && InBounds(x, y) && s1 == s[Index(x, y) := s1[Index(x, y)]]
    ensures NoLiquidAround(s, x, y) ==> NoLiquidAround(s1, x, y)
  {
    if NoLiquidAround(s, x, y) {
      forall j | 0 <= j < |FIRE_PROBES|
        ensures var px, py := x + FIRE_PROBES[j].0, y + FIRE_PROBES[j].1;
          InBounds(px, py) ==> !(s1[Index(px, py)].material.Water? || s1[Index(px, py)].material.Acid?)
      {
        var px, py := x + FIRE_PROBES[j].0, y + FIRE_PROBES[j].1;
        if InBounds(px, py) {
          assert FIRE_PROBES[j] != (0, 0);
          assert Index(px, py) != Index(x, y) by {
            if Index(px, py) == Index(x, y) {
              IndexInjective(px, py, x, y);
            }
          }
        }
      }
    }
  }

  /** The checks never touch the fire's own cell. */
  lemma ChecksKeepFireCell(s: seq<Particle>, x: int, y: int, rolls: nat -> nat, n: nat)
    requires |s| == SIZE && AllWellFormed(s) && InBounds(x, y)
    ensures FireChecks(s, x, y, 0, rolls, n).1[Index(x, y)] == s[Index(x, y)]
  {
    FireChecksEffect(s, s, x, y, 0, rolls, n);
    var k := Index(x, y);
    assert k % WIDTH == x && k / WIDTH == y;
    assert !FireProbed(k, x, y);
  }

  /** The chain is at the j-th neighbour with the result r still to come: either
      the fire is already out and r is the state, or r is what the rest of the
      chain gives from here. */
  ghost predicate ChainAt(s: seq<Particle>, x: int, y: int, j: nat, rolls: nat -> nat, n: nat, out: bool,
                          r: (bool, seq<Particle>, nat))
    requires j <= |FIRE_PROBES|
  {
    |s| == SIZE && AllWellFormed(s) &&
    (if out then r == (true, s, n) else r == FireChecks(s, x, y, j, rolls, n))
  }

  /** One disjunct of the chain: unless the fire is already out, flammability_check
      with steam at the j-th neighbour. */
  method ChainStep(sim: Simulation, x: int, y: int, j: nat, out: bool, ghost r: (bool, seq<Particle>, nat))
    returns (out': bool)
    requires sim.Valid() && j < |FIRE_PROBES|
    requires ChainAt(sim.cells[..], x, y, j, sim.rng.rolls, sim.rng.draws, out, r)
    modifies sim.cells, sim.rng
    ensures sim.Valid()
    ensures ChainAt(sim.cells[..], x, y, j + 1, sim.rng.rolls, sim.rng.draws, out', r)
  {
    out' := out;
    if !out {
      out' := FlammabilityCheck(sim, x + FIRE_PROBES[j].0, y + FIRE_PROBES[j].1, true);
    }
  }

  /** The `||` chain of update_fire: flammability_check with steam on the eight
      neighbours in order, stopping at the first that puts the fire out. */
  method FireReact(sim: Simulation, x: int, y: int) returns (out: bool)
    requires sim.Valid()
    modifies sim.cells, sim.rng
    ensures sim.Valid()
    ensures (out, sim.cells[..], sim.rng.draws) ==
      FireChecks(old(sim.cells[..]), x, y, 0, sim.rng.rolls, old(sim.rng.draws))
  {
    ghost var r := FireChecks(sim.cells[..], x, y, 0, sim.rng.rolls, sim.rng.draws);
    out := ChainFour(sim, x, y, 0, false, r);
    out := ChainFour(sim, x, y, 4, out, r);
  }

  /** Four consecutive disjuncts of the chain, from the j-th neighbour on. */
  method ChainFour(sim: Simulation, x: int, y: int, j: nat, out: bool, ghost r: (bool, seq<Particle>, nat))
    returns (out': bool)
    requires sim.Valid() && j + 4 <= |FIRE_PROBES|
    requires ChainAt(sim.cells[..], x, y, j, sim.rng.rolls, sim.rng.draws, out, r)
    modifies sim.cells, sim.rng
    ensures sim.Valid()
    ensures ChainAt(sim.cells[..], x, y, j + 4, sim.rng.rolls, sim.rng.draws, out', r)
  {
    out' := ChainStep(sim, x, y, j, out, r);
    out' := ChainStep(sim, x, y, j + 1, out', r);
    out' := ChainStep(sim, x, y, j + 2, out', r);
    out' := ChainStep(sim, x, y, j + 3, out', r);
  }

  /** update_fire: a fire with no health left is emptied (no roll); otherwise it
      loses one health, runs the chain, turns back into what it burnt if put out,
      and draws the smoke roll. */
  method UpdateFire(sim: Simulation, x: int, y: int)
    requires sim.Valid() && InBounds(x, y) && sim.At(x, y).material == Fire
    modifies sim.cells, sim.rng
    ensures sim.Valid()
    ensures Health(old(sim.At(x, y))) <= 0 ==>
      && sim.cells[..] == old(sim.cells[..])[Index(x, y) := Emptied(old(sim.At(x, y)))]
      && sim.rng.draws == old(sim.rng.draws)
    ensures Health(old(sim.At(x, y))) > 0 ==>
      (sim.cells[..], sim.rng.draws) == FireStep(old(sim.cells[..]), x, y, sim.rng.rolls, old(sim.rng.draws))
  {
    var p := sim.At(x, y);
    if p.payload.health <= 0 {
      sim.SetEmpty(x, y);
      return;
    }
    Burn(sim, x, y);
    SpawnSmoke(sim, x, y);
  }

  /** The part of update_fire before the smoke roll: decay the fire, run the chain,
      and turn the fire back into what it burnt if the chain put it out. */
  method Burn(sim: Simulation, x: int, y: int)
    requires sim.Valid() && InBounds(x, y) && sim.At(x, y).material == Fire
    modifies sim.cells, sim.rng
    ensures sim.Valid()
    ensures (sim.cells[..], sim.rng.draws) == Burnt(old(sim.cells[..]), x, y, sim.rng.rolls, old(sim.rng.draws))
  {
    var q := Decayed(sim.At(x, y));
    sim.Write(x, y, q);
    ghost var c := FireChecks(sim.cells[..], x, y, 0, sim.rng.rolls, sim.rng.draws);
    var out := FireReact(sim, x, y);
    if out {
      sim.Write(x, y, Reverted(q));
    }
  }

  /** The smoke roll of update_fire and, on 1 in SMOKE_CHANCE, a fresh smoke
      record in the empty cell above, else in the empty cell below. */
  method SpawnSmoke(sim: Simulation, x: int, y: int)
    requires sim.Valid()
    modifies sim.cells, sim.rng
    ensures sim.Valid() && sim.rng.draws == old(sim.rng.draws) + 1
    ensures sim.cells[..] == Smoked(old(sim.cells[..]), x, y, sim.rng.rolls(old(sim.rng.draws)))
  {
    var roll := sim.rng.Next();
    if roll % SMOKE_CHANCE == 1 {
      var smoke := WithHealth(Smoke, SMOKE_BASE_HEALTH);
      if InBounds(x, y - 1) && sim.At(x, y - 1).flag == EmptyFlag {
        sim.Write(x, y - 1, smoke);
      } else if InBounds(x, y + 1) && sim.At(x, y + 1).flag == EmptyFlag {
        sim.Write(x, y + 1, smoke);
      }
    }
  }
}
