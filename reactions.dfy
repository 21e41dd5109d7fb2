/** The constant tables of the material rules and the reactions they drive: the
    density comparison used by liquids, lava petrifying on contact with water,
    acid corroding its neighbours, and the flammability test of fire and lava. */
module Reactions {
  import opened Particles
  import opened SimConfig
  import opened Grid

  const CORROSION_CONSTANTS: seq<int> := [0, 0, 0, 0, 50, 50, 30, 60, 0, 0, 0, 0, 0]
  const FLAMMABILITY_CONSTANTS: seq<int> := [10, -2, -1, 0, 0, 12, 60, 0, 12, 0, 0, 0, 0]
  const BASE_FIRE_HEALTH: seq<int> := [50, 0, 0, 0, 0, 20, 200, 0, 50, 0, 0, 0, 0]

  const STEAM_BASE_HEALTH: int := 300
  const SMOKE_BASE_HEALTH: int := 400
  const EXTINGUISH_CHANCE: int := 20
  const SMOKE_CHANCE: int := 30

  /** The three tables read by material. The source indexes each 13-entry array by
      the material's ordinal; TablesByOrdinal shows these match the arrays entry for
      entry. */
  function Corrosion(t: ParticleType): int {
    match t
    case Sand => 50
    case Gunpowder => 50
    case Wood => 30
    case Stone => 60
    case _ => 0
  }

  function Flammability(t: ParticleType): int {
    match t
    case Oil => 10
    case Water => -2
    case Acid => -1
    case Gunpowder => 12
    case Wood => 60
    case ToxicGas => 12
    case _ => 0
  }

  function BaseFireHealth(t: ParticleType): int {
    match t
    case Oil => 50
    case Gunpowder => 20
    case Wood => 200
    case ToxicGas => 50
    case _ => 0
  }

  lemma TablesByOrdinal(t: ParticleType)
    ensures Corrosion(t) == CORROSION_CONSTANTS[Ordinal(t)]
    ensures Flammability(t) == FLAMMABILITY_CONSTANTS[Ordinal(t)]
    ensures BaseFireHealth(t) == BASE_FIRE_HEALTH[Ordinal(t)]
  {
  }

  /** Acid eats exactly sand, gunpowder, wood and stone. */
  lemma CorrodibleMaterials(t: ParticleType)
    ensures Corrosion(t) > 0 <==> (t.Sand? || t.Gunpowder? || t.Wood? || t.Stone?)
    ensures Corrosion(t) >= 0
  {
  }

  /** The flammability codes: only water (-2) and acid (-1) extinguish fire; oil,
      gunpowder, wood and toxic gas ignite; every other code is 0. */
  lemma FlammabilityCodes(t: ParticleType)
    ensures Flammability(t) == -2 <==> t.Water?
    ensures Flammability(t) == -1 <==> t.Acid?
    ensures Flammability(t) > 0 <==> (t.Oil? || t.Gunpowder? || t.Wood? || t.ToxicGas?)
    ensures Flammability(t) >= -2
  {
  }

  /** density_check: the material at position 1 is denser than the one at position 2. */
  predicate DensityCheck(a: ParticleType, b: ParticleType) {
    Ordinal(a) > Ordinal(b)
  }

  /** A liquid displaces by density only a strictly lighter liquid: never a solid,
      a gas, fire or an empty cell. */
  lemma DensityDisplacesOnlyLighterLiquids(a: ParticleType, b: ParticleType)
    requires IsLiquid(a)
    ensures DensityCheck(a, b) <==> IsLiquid(b) && Ordinal(b) < Ordinal(a)
    ensures DensityCheck(a, b) ==> FlagOf(b) == LiquidFlag
  {
    LiquidOrdinals(a);
    LiquidOrdinals(b);
  }

  /** Lava sinks through water, water through oil; oil displaces no liquid. */
  lemma DensityOrderOfLiquids()
    ensures DensityCheck(Lava, Acid) && DensityCheck(Acid, Water) && DensityCheck(Water, Oil)
    ensures forall t :: !DensityCheck(Oil, t)
  {
  }

  /** A fire record that has consumed p: its health comes from the base table and it
      remembers p's material, phase and colour. */
  function Ignited(p: Particle): (f: Particle)
    requires WellFormed(p)
    ensures WellFormed(f) && f.material == Fire && f.flag == SolidFlag && f.color == FIRE_COLOR
    ensures f.payload == Transform(BaseFireHealth(p.material), p.material, p.flag, p.color)
  {
    Particle(Fire, SolidFlag, FIRE_COLOR, 0, 0, false,
             Transform(BaseFireHealth(p.material), p.material, p.flag, p.color))
  }

  /** How many rolls flammability_check draws for a neighbour of this material. */
  function FlammabilityRolls(t: ParticleType, steam: bool): (n: nat)
    ensures n <= 1
    ensures Flammability(t) > 0 ==> n == 1
    ensures Flammability(t) == 0 || (Flammability(t) < 0 && !steam) ==> n == 0
  {
    var code := Flammability(t);
    if code == 0 then 0 else if code < 0 then (if steam then 1 else 0) else 1
  }

  /** The outcome of flammability_check on an in-bounds neighbour p: whether the
      caller's fire is put out, and what becomes of the neighbour. */
  function FlammabilityOutcome(p: Particle, steam: bool, roll: nat): (res: (bool, Particle))
    requires WellFormed(p)
    ensures WellFormed(res.1)
    ensures Flammability(p.material) == 0 ==> res == (false, p)
    ensures res.0 <==> steam && Flammability(p.material) < 0 && roll % EXTINGUISH_CHANCE == 1
    ensures res.0 ==> p.material.Water? || p.material.Acid?
    ensures res.1 != p ==>
      (res.0 && p.material.Water? && res.1 == WithHealth(Steam, STEAM_BASE_HEALTH)) ||
      (!res.0 && Flammability(p.material) > 0 && roll % Flammability(p.material) == 1 && res.1 == Ignited(p))
    ensures Flammability(p.material) > 0 && roll % Flammability(p.material) == 1 ==> res.1 == Ignited(p)
    ensures res.0 && p.material.Water? ==> res.1 == WithHealth(Steam, STEAM_BASE_HEALTH)
  {
    FlammabilityCodes(p.material);
    var code := Flammability(p.material);
    if code == 0 then (false, p)
    else if code == -1 then
      (steam && roll % EXTINGUISH_CHANCE == 1, p)
    else if code == -2 then
      if steam && roll % EXTINGUISH_CHANCE == 1 then (true, WithHealth(Steam, STEAM_BASE_HEALTH))
      else (false, p)
    else
      (false, if roll % code == 1 then Ignited(p) else p)
  }

  /** Scenario: wood ignites on a passing roll, becoming fire with wood's base health
      (200) that remembers it was wood. */
  lemma WoodIgnites(p: Particle, steam: bool, roll: nat)
    requires WellFormed(p) && p.material == Wood && roll % 60 == 1
    ensures FlammabilityOutcome(p, steam, roll).1.material == Fire
    ensures FlammabilityOutcome(p, steam, roll).1.payload == Transform(200, Wood, SolidFlag, p.color)
    ensures !FlammabilityOutcome(p, steam, roll).0
  {
    assert Flammability(Wood) == 60;
  }

  /** Lava's checks never put anything out, and never turn water into steam. */
  lemma LavaModeNeverExtinguishes(p: Particle, roll: nat)
    requires WellFormed(p)
    ensures !FlammabilityOutcome(p, false, roll).0
    ensures FlammabilityOutcome(p, false, roll).1.material in {p.material, Fire}
  {
  }

  /** Whether acid corrodes a neighbour of material t on this roll. */
  function Corrodes(t: ParticleType, roll: nat): (r: bool)
    ensures r ==> t.Sand? || t.Gunpowder? || t.Wood? || t.Stone?
    ensures (t.Wood? && roll % 30 == 1) ==> r
  {
    Corrosion(t) > 0 && roll % Corrosion(t) == 1
  }

  /** lava_check: turns lava at (x, y) into stone and reports whether it did. */
  method LavaCheck(sim: Simulation, x: int, y: int) returns (r: bool)
    requires sim.Valid()
    modifies sim.cells
    ensures sim.Valid()
    ensures r <==> InBounds(x, y) && old(sim.cells[Index(x, y)]).material == Lava
    ensures r ==> sim.cells[..] == old(sim.cells[..])[Index(x, y) := Created(Stone)]
    ensures !r ==> sim.cells[..] == old(sim.cells[..])
  {
    if InBounds(x, y) && sim.At(x, y).material == Lava {
      sim.Write(x, y, Created(Stone));
      return true;
    }
    return false;
  }

  /** corrosion_check on one neighbour, as a value: whether it corrodes, and the
      number of rolls drawn so far. A roll is drawn only for an in-bounds
      corrodible material. */
  function CorrosionProbe(s: seq<Particle>, px: int, py: int, rolls: nat -> nat, n: nat): (r: (bool, nat))
    requires |s| == SIZE
    ensures r.0 ==> InBounds(px, py) && Corrodes(s[Index(px, py)].material, rolls(n)) && r.1 == n + 1
    ensures !(InBounds(px, py) && Corrosion(s[Index(px, py)].material) > 0) ==> r == (false, n)
  {
    if InBounds(px, py) && Corrosion(s[Index(px, py)].material) > 0 then
      (Corrodes(s[Index(px, py)].material, rolls(n)), n + 1)
    else (false, n)
  }

  /** corrosion_check: on a passing roll, empties a corrodible cell at (x, y). */
  method CorrosionCheck(sim: Simulation, x: int, y: int) returns (r: bool)
    requires sim.Valid()
    modifies sim.cells, sim.rng
    ensures sim.Valid()
    ensures (r, sim.rng.draws) == CorrosionProbe(old(sim.cells[..]), x, y, sim.rng.rolls, old(sim.rng.draws))
    ensures r ==> sim.cells[..] == old(sim.cells[..])[Index(x, y) := Emptied(old(sim.cells[..])[Index(x, y)])]
    ensures !r ==> sim.cells[..] == old(sim.cells[..])
  {
    if InBounds(x, y) && Corrosion(sim.At(x, y).material) > 0 {
      var roll := sim.rng.Next();
      if roll % Corrosion(sim.At(x, y).material) == 1 {
        sim.SetEmpty(x, y);
        return true;
      }
    }
    return false;
  }

  /** flammability_check on one neighbour, as a value: whether the caller's fire is
      put out, the grid afterwards, and the number of rolls drawn so far. Out of
      bounds nothing happens; in bounds only the neighbour's cell can change. */
  function FlammabilityProbe(s: seq<Particle>, px: int, py: int, steam: bool, rolls: nat -> nat, n: nat)
    : (r: (bool, seq<Particle>, nat))
    requires |s| == SIZE && AllWellFormed(s)
    ensures |r.1| == SIZE && AllWellFormed(r.1)
    ensures !InBounds(px, py) ==> r == (false, s, n)
    ensures InBounds(px, py) ==>
      && r.1 == s[Index(px, py) := r.1[Index(px, py)]]
      && (r.0, r.1[Index(px, py)]) == FlammabilityOutcome(s[Index(px, py)], steam, rolls(n))
      && r.2 == n + FlammabilityRolls(s[Index(px, py)].material, steam)
  {
    if !InBounds(px, py) then (false, s, n)
    else
      var p := s[Index(px, py)];
      var o := FlammabilityOutcome(p, steam, rolls(n));
      (o.0, s[Index(px, py) := o.1], n + FlammabilityRolls(p.material, steam))
  }

  /** Without steam (lava's mode) a probe never reports an extinguished fire, and the
      only change it can make is to set a flammable neighbour on fire. */
  lemma LavaProbeOnlyIgnites(s: seq<Particle>, px: int, py: int, rolls: nat -> nat, n: nat)
    requires |s| == SIZE && AllWellFormed(s)
    ensures var r := FlammabilityProbe(s, px, py, false, rolls, n);
      && !r.0
      && forall k :: 0 <= k < SIZE && r.1[k] != s[k] ==>
           InBounds(px, py) && k == Index(px, py) &&
           Flammability(s[k].material) > 0 && r.1[k] == Ignited(s[k])
  {
    if InBounds(px, py) {
      var p := s[Index(px, py)];
      FlammabilityCodes(p.material);
      var o := FlammabilityOutcome(p, false, rolls(n));
      assert o.1 != p ==> Flammability(p.material) > 0 && o.1 == Ignited(p);
    }
  }

  /** flammability_check: applies FlammabilityOutcome to the neighbour at (x, y);
      out of bounds it does nothing and reports false. */
  method FlammabilityCheck(sim: Simulation, x: int, y: int, steam: bool) returns (r: bool)
    requires sim.Valid()
    modifies sim.cells, sim.rng
    ensures sim.Valid()
    ensures (r, sim.cells[..], sim.rng.draws) ==
      FlammabilityProbe(old(sim.cells[..]), x, y, steam, sim.rng.rolls, old(sim.rng.draws))
  {
    if !InBounds(x, y) {
      return false;
    }
    var p := sim.At(x, y);
    FlammabilityCodes(p.material);
    var code := Flammability(p.material);
    r := false;
    if code == 0 {
      r := false;
    } else if code == -1 {
      if steam {
        var roll := sim.rng.Next();
        r := roll % EXTINGUISH_CHANCE == 1;
      }
    } else if code == -2 {
      if steam {
        var roll := sim.rng.Next();
        if roll % EXTINGUISH_CHANCE == 1 {
          sim.Write(x, y, WithHealth(Steam, STEAM_BASE_HEALTH));
          r := true;
        }
      }
    } else {
      var roll := sim.rng.Next();
      if roll % code == 1 {
        sim.Write(x, y, Ignited(p));
      }
    }
    assert sim.cells[..] == old(sim.cells[..])[Index(x, y) := sim.cells[Index(x, y)]];
  }
}
