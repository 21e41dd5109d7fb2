/** The grid dimensions and the material colours shared by the store, the rules
    and the paint tool. */
module SimConfig {
  import opened Particles

  /** The grid is WIDTH columns by HEIGHT rows. */
  const WIDTH: int := 256
  const HEIGHT: int := 128
  const SIZE: int := WIDTH * HEIGHT

  const OIL_COLOR := Color(162, 109, 63)
  const WATER_COLOR := Color(51, 136, 222)
  const ACID_COLOR := Color(90, 181, 82)
  const LAVA_COLOR := Color(222, 93, 58)
  const SAND_COLOR := Color(216, 200, 90)
  const GUNPOWDER_COLOR := Color(121, 117, 117)
  const WOOD_COLOR := Color(110, 76, 48)
  const STONE_COLOR := Color(190, 190, 190)
  const TOXIC_GAS_COLOR := Color(157, 230, 78)
  const STEAM_COLOR := Color(204, 209, 229)
  const SMOKE_COLOR := Color(17, 14, 12)
  const FIRE_COLOR := Color(233, 133, 55)
  const EMPTY_COLOR := Color(40, 40, 41)

  /** The display colour each material is created with. */
  function ColorOf(t: ParticleType): Color {
    match t
    case Oil => OIL_COLOR
    case Water => WATER_COLOR
    case Acid => ACID_COLOR
    case Lava => LAVA_COLOR
    case Sand => SAND_COLOR
    case Gunpowder => GUNPOWDER_COLOR
    case Wood => WOOD_COLOR
    case Stone => STONE_COLOR
    case ToxicGas => TOXIC_GAS_COLOR
    case Steam => STEAM_COLOR
    case Smoke => SMOKE_COLOR
    case Fire => FIRE_COLOR
    case Empty => EMPTY_COLOR
  }

  /** A record as the source builds it for a material: its own phase and colour,
      zero velocity, marker clear, and the payload variant the material reads. */
  function Created(t: ParticleType): (p: Particle)
    ensures WellFormed(p) && p.material == t && p.flag == FlagOf(t) && p.color == ColorOf(t)
    ensures p.xVel == 0 && p.yVel == 0 && !p.updated
  {
    Particle(t, FlagOf(t), ColorOf(t), 0, 0, false, DefaultPayload(t))
  }

  /** A gas or fire record created with the given health. */
  function WithHealth(t: ParticleType, health: int): (p: Particle)
    requires HasHealth(t)
    ensures WellFormed(p) && p.material == t && p.color == ColorOf(t)
    ensures p.payload.Transform? && p.payload.health == health
  {
    var c := Created(t);
    c.(payload := c.payload.(health := health))
  }

  /** The grid is 256 by 128 cells. */
  lemma GridDimensions()
    ensures SIZE == 32768 && WIDTH == 2 * HEIGHT
  {
  }
}
