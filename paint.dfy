/** The paint tool: a brush that writes a freshly built record of one material
    into a square of cells around the brush centre. Painting fills only empty cells;
    erasing (painting the empty material) overwrites every cell of the square. */
module Paint {
  import opened Particles
  import opened SimConfig
  import opened Grid

  /** The health a painted fire starts with. */
  const PAINTED_FIRE_HEALTH: int := 5

  /** The record add_particles builds for a material: its phase and colour, zero
      velocity, the marker clear, free fall off for moveable solids, and for fire
      the health PAINTED_FIRE_HEALTH over an empty cell. */
  function Painted(t: ParticleType): (p: Particle)
    ensures WellFormed(p) && p.material == t && p.flag == FlagOf(t) && p.color == ColorOf(t)
    ensures p.xVel == 0 && p.yVel == 0 && !p.updated
    ensures IsMoveableSolid(t) ==> p.payload == Motion(0, 0, false)
    ensures t == Fire ==> p.payload == Transform(PAINTED_FIRE_HEALTH, Empty, EmptyFlag, EMPTY_COLOR)
  {
    var c := Created(t);
    if t == Fire then c.(payload := Transform(PAINTED_FIRE_HEALTH, Empty, EmptyFlag, EMPTY_COLOR)) else c
  }

  /** The record a brush stroke centred on (x, y) writes: the painted record with
      the stroke's centre as its last position when it is a moveable solid. */
  function Stamp(t: ParticleType, x: int, y: int): (p: Particle)
    ensures WellFormed(p) && p.material == t && p.flag == FlagOf(t) && p.color == ColorOf(t)
    ensures IsMoveableSolid(t) ==> p.payload == Motion(x, y, false)
    ensures !IsMoveableSolid(t) ==> p == Painted(t)
  {
    var p := Painted(t);
    if p.payload.Motion? then p.(payload := Motion(x, y, p.payload.freeFall)) else p
  }

  /** Cell k lies in the square of half-width r around (x, y). */
  predicate Covered(k: int, x: int, y: int, r: int) {
    x - r <= k % WIDTH <= x + r && y - r <= k / WIDTH <= y + r
  }

  /** Whether the brush writes over a cell holding q: always when erasing, and
      otherwise only over an empty cell. */
  predicate Overwrites(t: ParticleType, q: Particle) {
    t.Empty? || q.material.Empty?
  }

  /** The grid after a stroke with brush half-width r > 0: every covered cell the
      brush overwrites holds the stamp, and every other cell is unchanged. */
  function Brushed(s: seq<Particle>, t: ParticleType, r: int, x: int, y: int): (b: seq<Particle>)
    requires |s| == SIZE
    ensures |b| == SIZE
  {
    seq(SIZE, k requires 0 <= k < SIZE =>
      if Covered(k, x, y, r) && Overwrites(t, s[k]) then Stamp(t, x, y) else s[k])
  }

  /** A second identical stroke changes nothing: what the first wrote is either
      the stamp again or, when painting, no longer empty. */
  lemma BrushIdempotent(s: seq<Particle>, t: ParticleType, r: int, x: int, y: int)
    requires |s| == SIZE
    ensures Brushed(Brushed(s, t, r, x, y), t, r, x, y) == Brushed(s, t, r, x, y)
  {
    var b := Brushed(s, t, r, x, y);
    var bb := Brushed(b, t, r, x, y);
    forall k | 0 <= k < SIZE
      ensures bb[k] == b[k]
    {
      if Covered(k, x, y, r) && Overwrites(t, s[k]) {
        assert b[k] == Stamp(t, x, y);
      }
    }
  }

  /** Painting a material over occupied cells leaves them alone, and erasing
      clears every in-bounds cell of the square. */
  lemma BrushRespectsOccupiedCells(s: seq<Particle>, t: ParticleType, r: int, x: int, y: int)
    requires |s| == SIZE
    ensures !t.Empty? ==> forall k :: 0 <= k < SIZE && !s[k].material.Empty? ==> Brushed(s, t, r, x, y)[k] == s[k]
    ensures t.Empty? ==> forall k :: 0 <= k < SIZE && Covered(k, x, y, r) ==>
      Brushed(s, t, r, x, y)[k] == Stamp(Empty, x, y)
  {
  }

  /** add_particles: with brush size 0, write the painted record at (x, y), which
      the caller must keep in bounds; otherwise stamp every in-bounds cell of the
      square [x - r, x + r] by [y - r, y + r] that the brush overwrites, column by
      column. */
  method AddParticles(sim: Simulation, t: ParticleType, brushSize: int, x: int, y: int)
    requires sim.Valid()
    requires brushSize == 0 ==> InBounds(x, y)
    modifies sim.cells
    ensures sim.Valid()
    ensures brushSize == 0 ==> sim.cells[..] == old(sim.cells[..])[Index(x, y) := Painted(t)]
    ensures brushSize != 0 ==> sim.cells[..] == Brushed(old(sim.cells[..]), t, brushSize, x, y)
  {
    if brushSize == 0 {
      sim.cells[Index(x, y)] := Painted(t);
      return;
    }
    var stamp := Stamp(t, x, y);
    var i := x - brushSize;
    while i <= x + brushSize
      invariant sim.Valid()
      invariant forall k :: 0 <= k < SIZE ==>
        sim.cells[k] == if Covered(k, x, y, brushSize) && k % WIDTH < i && Overwrites(t, old(sim.cells[k]))
          then stamp else old(sim.cells[k])
    {
      var j := y - brushSize;
      while j <= y + brushSize
        invariant sim.Valid()
        invariant forall k :: 0 <= k < SIZE ==>
          sim.cells[k] == if Covered(k, x, y, brushSize) && (k % WIDTH < i || (k % WIDTH == i && k / WIDTH < j)) &&
                             Overwrites(t, old(sim.cells[k]))
            then stamp else old(sim.cells[k])
      {
        if InBounds(i, j) && (t == Empty || sim.cells[i + j * WIDTH].material == Empty) {
          sim.cells[i + j * WIDTH] := stamp;
        }
        j := j + 1;
      }
      i := i + 1;
    }
    assert sim.cells[..] == Brushed(old(sim.cells[..]), t, brushSize, x, y);
  }
}
