/** The particle record of the sandbox: the material enumeration (whose ordinals
    encode density), the four phases ("flags"), and the per-category payload that
    the C++ source keeps in an anonymous union. Here the payload is a tagged variant. */
module Particles {

  /** The materials, in the order of their ordinals (oil = 0 ... empty = 12). */
  datatype ParticleType =
    | Oil | Water | Acid | Lava | Sand | Gunpowder | Wood | Stone
    | ToxicGas | Steam | Smoke | Fire | Empty

  /** The states of matter used to decide generic displacement rules. */
  datatype ParticleFlag = LiquidFlag | SolidFlag | GasFlag | EmptyFlag

  type Byte = x: int | 0 <= x < 256

  /** An RGB colour (the alpha channel of the display colour is never set). */
  datatype Color = Color(r: Byte, g: Byte, b: Byte)

  /** The category-specific part of a particle. `Motion` belongs to moveable solids,
      `Transform` to gases and fire; the two never co-exist in one record. */
  datatype Payload =
    | NoPayload
    | Motion(lastX: int, lastY: int, freeFall: bool)
    | Transform(health: int, oldType: ParticleType, oldFlag: ParticleFlag, oldColor: Color)

  /** One grid cell. Velocities are fixed point, in tenths of a cell per frame. */
  datatype Particle = Particle(
    material: ParticleType,
    flag: ParticleFlag,
    color: Color,
    xVel: int,
    yVel: int,
    updated: bool,
    payload: Payload)

  const NUM_TYPES: nat := 13

  /** The fall-speed cap 3.0, in tenths of a cell per frame. */
  const MAX_VELOCITY: int := 30

  /** The integer value of the enumerator; density comparisons and table lookups use it. */
  function Ordinal(t: ParticleType): (n: nat)
    ensures n < NUM_TYPES
    ensures t.Empty? <==> n == NUM_TYPES - 1
  {
    match t
    case Oil => 0
    case Water => 1
    case Acid => 2
    case Lava => 3
    case Sand => 4
    case Gunpowder => 5
    case Wood => 6
    case Stone => 7
    case ToxicGas => 8
    case Steam => 9
    case Smoke => 10
    case Fire => 11
    case Empty => 12
  }

  /** Distinct materials have distinct ordinals, so ordinals are a faithful encoding. */
  lemma OrdinalInjective(a: ParticleType, b: ParticleType)
    requires Ordinal(a) == Ordinal(b)
    ensures a == b
  {
  }

  predicate IsLiquid(t: ParticleType) {
    t.Oil? || t.Water? || t.Acid? || t.Lava?
  }

  predicate IsMoveableSolid(t: ParticleType) {
    t.Sand? || t.Gunpowder?
  }

  /** The materials whose records carry a health countdown. */
  predicate HasHealth(t: ParticleType) {
    t.Steam? || t.Smoke? || t.Fire?
  }

  /** The phase every creation site of the source gives each material
      (fire is flagged solid, so moveable solids cannot enter it). */
  function FlagOf(t: ParticleType): (f: ParticleFlag)
    ensures f == LiquidFlag <==> IsLiquid(t)
    ensures f == EmptyFlag <==> t.Empty?
    ensures f == GasFlag <==> (t.ToxicGas? || t.Steam? || t.Smoke?)
  {
    match t
    case Oil | Water | Acid | Lava => LiquidFlag
    case Sand | Gunpowder | Wood | Stone | Fire => SolidFlag
    case ToxicGas | Steam | Smoke => GasFlag
    case Empty => EmptyFlag
  }

  /** Liquids occupy exactly the ordinals 0..3, oil lightest and lava densest. */
  lemma LiquidOrdinals(t: ParticleType)
    ensures IsLiquid(t) <==> Ordinal(t) <= 3
    ensures Ordinal(Oil) < Ordinal(Water) < Ordinal(Acid) < Ordinal(Lava)
  {
  }

  /** The invariant every record on the grid keeps: its phase matches its material,
      its vertical speed lies within the cap, and its payload is the variant its
      material reads. A fire's captured identity is itself consistent. */
  predicate WellFormed(p: Particle) {
    && p.flag == FlagOf(p.material)
    && 0 <= p.yVel <= MAX_VELOCITY
    && (HasHealth(p.material) ==> p.payload.Transform?)
    && (IsMoveableSolid(p.material) ==> p.payload.Motion?)
    && (p.payload.Transform? ==> p.payload.oldFlag == FlagOf(p.payload.oldType))
  }

  /** The payload a record gets when the source builds it without initialising the union. */
  function DefaultPayload(t: ParticleType): (pl: Payload)
    ensures HasHealth(t) ==> pl.Transform? && pl.oldFlag == FlagOf(pl.oldType)
    ensures IsMoveableSolid(t) ==> pl == Motion(0, 0, false)
  {
    if HasHealth(t) then Transform(0, Empty, EmptyFlag, Color(0, 0, 0))
    else if IsMoveableSolid(t) then Motion(0, 0, false)
    else NoPayload
  }

  /** Whether the record is a moveable solid that is currently in free fall. */
  predicate InFreeFall(p: Particle) {
    p.payload.Motion? && p.payload.freeFall
  }
}
