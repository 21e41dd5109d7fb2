/** The liquid rule shared by oil, water, acid and lava (fall with gravity,
    displacing lighter liquids; else slide diagonally; else spread sideways), and
    the per-liquid wrappers with their reactions. */
module Liquids {
  import opened Particles
  import opened SimConfig
  import opened Grid
  import opened Reactions
  import opened Velocity

  const WATER_SPREAD_DISTANCE: int := 4
  const ACID_SPREAD_DISTANCE: int := 2
  const LAVA_SPREAD_DISTANCE: int := 1

  /** The liquid at (x, y) may move into (tx, ty): in bounds, and empty or holding
      a material of lower ordinal (density_check). */
  predicate LiquidMayEnter(s: seq<Particle>, x: int, y: int, tx: int, ty: int)
    requires |s| == SIZE && InBounds(x, y)
  {
    InBounds(tx, ty) &&
    (s[Index(tx, ty)].flag == EmptyFlag || DensityCheck(s[Index(x, y)].material, s[Index(tx, ty)].material))
  }

  /** What holds between the grid s0 at the start of update_liquid (liquid at (x, y),
      reach d sideways) and the current grid t, with the liquid now at (cx, cy). */
  ghost predicate LiquidInv(s0: seq<Particle>, t: seq<Particle>, x: int, y: int, d: int, cx: int, cy: int)
    requires |s0| == SIZE && |t| == SIZE && InBounds(x, y)
  {
    && InBounds(cx, cy) && x - d <= cx <= x + d && y <= cy <= y + 4
    && t[Index(cx, cy)].material == s0[Index(x, y)].material
    && SameOutside(s0, t, x - d, x + d, y, y + 4)
    && KeepsFlag(s0, t, Index(x, y), SolidFlag)
    && KeepsFlag(s0, t, Index(x, y), GasFlag)
    && (Index(cx, cy) == Index(x, y) ||
        (s0[Index(cx, cy)].flag != SolidFlag && s0[Index(cx, cy)].flag != GasFlag))
  }

  /** One swap of the liquid into a cell it may enter keeps LiquidInv: what it
      displaces is empty or a lighter liquid, never a solid or a gas. */
  lemma LiquidStep(s0: seq<Particle>, t: seq<Particle>, x: int, y: int, d: int,
                   cx: int, cy: int, tx: int, ty: int)
    requires |s0| == SIZE && |t| == SIZE && InBounds(x, y)
    requires LiquidInv(s0, t, x, y, d, cx, cy) && IsLiquid(s0[Index(x, y)].material)
    requires LiquidMayEnter(t, cx, cy, tx, ty) && WellFormed(t[Index(tx, ty)])
    requires x - d <= tx <= x + d && y <= ty <= y + 4
    ensures LiquidInv(s0, Swapped(t, Index(cx, cy), Index(tx, ty)), x, y, d, tx, ty)
  {
    DensityDisplacesOnlyLighterLiquids(t[Index(cx, cy)].material, t[Index(tx, ty)].material);
    SwapInside(s0, t, x - d, x + d, y, y + 4, cx, cy, tx, ty);
    SwapKeepsFlag(s0, t, Index(x, y), SolidFlag, Index(cx, cy), Index(tx, ty));
    SwapKeepsFlag(s0, t, Index(x, y), GasFlag, Index(cx, cy), Index(tx, ty));
  }

  /** Changing the liquid's own velocity keeps LiquidInv. */
  lemma LiquidRewrite(s0: seq<Particle>, t: seq<Particle>, x: int, y: int, d: int,
                      cx: int, cy: int, p: Particle)
    requires |s0| == SIZE && |t| == SIZE && InBounds(x, y)
    requires LiquidInv(s0, t, x, y, d, cx, cy) && p.material == t[Index(cx, cy)].material
    ensures LiquidInv(s0, t[Index(cx, cy) := p], x, y, d, cx, cy)
  {
    WriteInside(s0, t, x - d, x + d, y, y + 4, cx, cy, p);
  }

  /** Changing only the liquid's velocity does not change where it may go. */
  lemma VelocityKeepsEntry(s: seq<Particle>, x: int, y: int, v: int, tx: int, ty: int)
    requires |s| == SIZE && InBounds(x, y)
    ensures LiquidMayEnter(s[Index(x, y) := s[Index(x, y)].(yVel := v)], x, y, tx, ty) ==
            LiquidMayEnter(s, x, y, tx, ty)
  {
  }

  /** The fall loop of update_liquid as a function of the grid t, the liquid at
      (x, cy) on pass i: while i < round(yVel) + 1 (yVel re-read each pass), step one
      row down into a cell it may enter, zeroing yVel first on a density
      displacement; a blocked step zeroes yVel and ends the loop. The result is the
      grid and the row the liquid ends on. */
  function FallFrom(t: seq<Particle>, x: int, cy: int, i: nat): (r: (seq<Particle>, int))
    requires |t| == SIZE && InBounds(x, cy)
    ensures |r.0| == SIZE && InBounds(x, r.1) && cy <= r.1
    decreases HEIGHT - cy
  {
    var p := t[Index(x, cy)];
    if i >= Round(p.yVel) + 1 then (t, cy)
    else if LiquidMayEnter(t, x, cy, x, cy + 1) then
      var u := if DensityCheck(p.material, t[Index(x, cy + 1)].material) then t[Index(x, cy) := p.(yVel := 0)] else t;
      FallFrom(Swapped(u, Index(x, cy), Index(x, cy + 1)), x, cy + 1, i + 1)
    else (t[Index(x, cy) := p.(yVel := 0)], cy)
  }

  /** The vertical part of update_liquid on grid s: accelerate the liquid at (x, y)
      (capped), then run the fall loop from its first pass. */
  function LiquidFallen(s: seq<Particle>, x: int, y: int): (r: (seq<Particle>, int))
    requires |s| == SIZE && InBounds(x, y) && WellFormed(s[Index(x, y)])
    ensures |r.0| == SIZE && InBounds(x, r.1) && y <= r.1
  {
    var p := s[Index(x, y)];
    FallFrom(s[Index(x, y) := p.(yVel := Accelerated(p.yVel))], x, y, 0)
  }

  /** The spread loop of update_liquid: the liquid at (fx, y) on pass i keeps
      stepping toward s while i < spreadDist and the next cell may be entered. */
  function SpreadFrom(t: seq<Particle>, fx: int, y: int, s: int, i: int, spreadDist: int): (r: (seq<Particle>, int))
    requires |t| == SIZE && InBounds(fx, y)
    ensures |r.0| == SIZE && InBounds(r.1, y)
    decreases spreadDist - i
  {
    if i >= spreadDist then (t, fx)
    else if LiquidMayEnter(t, fx, y, fx + s, y) then
      SpreadFrom(Swapped(t, Index(fx, y), Index(fx + s, y)), fx + s, y, s, i + 1, spreadDist)
    else (t, fx)
  }

  /** One lateral branch of update_liquid: when the liquid at (x, y) may enter
      (x + s, y) it swaps there and spreads from its first pass; else nothing moves. */
  function LateralFrom(t: seq<Particle>, x: int, y: int, s: int, spreadDist: int): (r: (seq<Particle>, int))
    requires |t| == SIZE && InBounds(x, y)
    ensures |r.0| == SIZE && InBounds(r.1, y)
  {
    if LiquidMayEnter(t, x, y, x + s, y) then
      SpreadFrom(Swapped(t, Index(x, y), Index(x + s, y)), x + s, y, s, 1, spreadDist)
    else (t, x)
  }

  /** The branches of update_liquid taken when the liquid did not fall, in their
      order: diagonally down toward dir, down the other way, sideways toward dir and
      spread, sideways the other way and spread. The result is the grid and the
      liquid's final position. */
  function LiquidShifted(t: seq<Particle>, x: int, y: int, dir: int, spreadDist: int): (r: (seq<Particle>, int, int))
    requires |t| == SIZE && InBounds(x, y)
    ensures |r.0| == SIZE && InBounds(r.1, r.2)
  {
    if LiquidMayEnter(t, x, y, x + dir, y + 1) then (Swapped(t, Index(x, y), Index(x + dir, y + 1)), x + dir, y + 1)
    else if LiquidMayEnter(t, x, y, x - dir, y + 1) then (Swapped(t, Index(x, y), Index(x - dir, y + 1)), x - dir, y + 1)
    else if LiquidMayEnter(t, x, y, x + dir, y) then
      var l := LateralFrom(t, x, y, dir, spreadDist); (l.0, l.1, y)
    else
      var l := LateralFrom(t, x, y, -dir, spreadDist); (l.0, l.1, y)
  }

  /** The whole motion of update_liquid on grid s0 with rolled side dir: the fall,
      and when it moved nothing down, the diagonal and lateral branches. */
  function LiquidMotion(s0: seq<Particle>, x: int, y: int, spreadDist: int, dir: int): (r: (seq<Particle>, int, int))
    requires |s0| == SIZE && InBounds(x, y) && WellFormed(s0[Index(x, y)])
    ensures |r.0| == SIZE && InBounds(r.1, r.2)
  {
    var f := LiquidFallen(s0, x, y);
    if f.1 > y then (f.0, x, f.1) else LiquidShifted(f.0, x, y, dir, spreadDist)
  }

  // The operations of update_liquid on the grid. Each ends in the state its
  // function above describes.

  /** Sets the vertical velocity of the record at (cx, cy). */
  method SetYVel(sim: Simulation, cx: int, cy: int, v: int)
    requires sim.Valid() && InBounds(cx, cy) && 0 <= v <= MAX_VELOCITY
    modifies sim.cells
    ensures sim.Valid()
    ensures sim.cells[..] == old(sim.cells[..])[Index(cx, cy) := old(sim.At(cx, cy)).(yVel := v)]
  {
    sim.Write(cx, cy, sim.At(cx, cy).(yVel := v));
  }

  /** Swaps the liquid at (cx, cy) into (tx, ty) when it may enter it. */
  method LiquidMove(sim: Simulation, cx: int, cy: int, tx: int, ty: int) returns (moved: bool)
    requires sim.Valid() && InBounds(cx, cy)
    modifies sim.cells
    ensures sim.Valid()
    ensures moved == LiquidMayEnter(old(sim.cells[..]), cx, cy, tx, ty)
    ensures sim.cells[..] == if moved then Swapped(old(sim.cells[..]), Index(cx, cy), Index(tx, ty))
                             else old(sim.cells[..])
  {
    moved := LiquidMayEnter(sim.cells[..], cx, cy, tx, ty);
    if moved {
      sim.Swap(cx, cy, tx, ty);
    }
  }

  /** One pass i of the fall loop, the liquid at (x, cy): it moves one row down when
      it may, a density displacement first zeroing its yVel; a blocked step zeroes
      it. The loop function then goes on from the next row, or has ended. */
  method FallStep(sim: Simulation, x: int, cy: int, ghost i: nat) returns (entered: bool)
    requires sim.Valid() && InBounds(x, cy) && i < Round(sim.At(x, cy).yVel) + 1
    modifies sim.cells
    ensures sim.Valid() && entered == LiquidMayEnter(old(sim.cells[..]), x, cy, x, cy + 1)
    ensures entered ==> FallFrom(old(sim.cells[..]), x, cy, i) == FallFrom(sim.cells[..], x, cy + 1, i + 1)
    ensures !entered ==> FallFrom(old(sim.cells[..]), x, cy, i) == (sim.cells[..], cy)
  {
    entered := LiquidMayEnter(sim.cells[..], x, cy, x, cy + 1);
    if entered {
      if DensityCheck(sim.At(x, cy).material, sim.At(x, cy + 1).material) {
        SetYVel(sim, x, cy, 0);
      }
      sim.Swap(x, cy, x, cy + 1);
    } else {
      SetYVel(sim, x, cy, 0);
    }
  }

  /** The fall loop of update_liquid: up to round(yVel) + 1 steps, re-reading the
      liquid's yVel after every step. */
  method FallLoop(sim: Simulation, x: int, y: int) returns (cy: int, fell: bool)
    requires sim.Valid() && InBounds(x, y)
    modifies sim.cells
    ensures sim.Valid() && fell == (cy > y)
    ensures (sim.cells[..], cy) == FallFrom(old(sim.cells[..]), x, y, 0)
  {
    ghost var target := FallFrom(sim.cells[..], x, y, 0);
    cy := y;
    var i := 0;
    while i < Round(sim.At(x, cy).yVel) + 1
      invariant sim.Valid() && InBounds(x, cy) && 0 <= i
      invariant FallFrom(sim.cells[..], x, cy, i) == target
      decreases HEIGHT - cy
    {
      var entered := FallStep(sim, x, cy, i);
      if !entered {
        break;
      }
      cy := cy + 1;
      i := i + 1;
    }
    fell := cy > y;
  }

  /** The vertical part of update_liquid: accelerate (capped), then fall. */
  method LiquidFall(sim: Simulation, x: int, y: int) returns (cy: int, fell: bool)
    requires sim.Valid() && InBounds(x, y)
    modifies sim.cells
    ensures sim.Valid() && fell == (cy > y)
    ensures (sim.cells[..], cy) == LiquidFallen(old(sim.cells[..]), x, y)
  {
    SetYVel(sim, x, y, Accelerated(sim.At(x, y).yVel));
    cy, fell := FallLoop(sim, x, y);
  }

  /** The lateral spread loop, the liquid at (x0, y) after its first sideways step:
      keep stepping toward s while the next cell may be entered, at most
      spreadDist - 1 times. */
  method LiquidSpread(sim: Simulation, x0: int, y: int, s: int, spreadDist: int) returns (fx: int)
    requires sim.Valid() && InBounds(x0, y)
    modifies sim.cells
    ensures sim.Valid()
    ensures (sim.cells[..], fx) == SpreadFrom(old(sim.cells[..]), x0, y, s, 1, spreadDist)
  {
    ghost var target := SpreadFrom(sim.cells[..], x0, y, s, 1, spreadDist);
    fx := x0;
    var i := 1;
    while i < spreadDist
      invariant sim.Valid() && InBounds(fx, y)
      invariant SpreadFrom(sim.cells[..], fx, y, s, i, spreadDist) == target
      decreases spreadDist - i
    {
      var moved := LiquidMove(sim, fx, y, fx + s, y);
      if !moved {
        break;
      }
      fx := fx + s;
      i := i + 1;
    }
  }

  /** One side of the lateral half: step toward s and, when that succeeded, spread. */
  method LateralToward(sim: Simulation, x: int, y: int, s: int, spreadDist: int) returns (fx: int, moved: bool)
    requires sim.Valid() && InBounds(x, y)
    modifies sim.cells
    ensures sim.Valid() && moved == LiquidMayEnter(old(sim.cells[..]), x, y, x + s, y)
    ensures (sim.cells[..], fx) == LateralFrom(old(sim.cells[..]), x, y, s, spreadDist)
  {
    fx := x;
    moved := LiquidMove(sim, x, y, x + s, y);
    if moved {
      fx := LiquidSpread(sim, x + s, y, s, spreadDist);
    }
  }

  /** The diagonal half of the sideways part of update_liquid: down toward dir,
      else down the other way. */
  method LiquidSlide(sim: Simulation, x: int, y: int, dir: int) returns (fx: int, slid: bool)
    requires sim.Valid() && InBounds(x, y)
    modifies sim.cells
    ensures sim.Valid()
    ensures slid == (LiquidMayEnter(old(sim.cells[..]), x, y, x + dir, y + 1) ||
                     LiquidMayEnter(old(sim.cells[..]), x, y, x - dir, y + 1))
    ensures slid ==> fx == if LiquidMayEnter(old(sim.cells[..]), x, y, x + dir, y + 1) then x + dir else x - dir
    ensures sim.cells[..] == if slid then Swapped(old(sim.cells[..]), Index(x, y), Index(fx, y + 1))
                             else old(sim.cells[..])
  {
    fx := x + dir;
    slid := LiquidMove(sim, x, y, x + dir, y + 1);
    if !slid {
      fx := x - dir;
      slid := LiquidMove(sim, x, y, x - dir, y + 1);
    }
  }

  /** The lateral half: toward dir and spread, else the other way and spread. */
  method LiquidLateral(sim: Simulation, x: int, y: int, dir: int, spreadDist: int) returns (fx: int)
    requires sim.Valid() && InBounds(x, y)
    modifies sim.cells
    ensures sim.Valid()
    ensures (sim.cells[..], fx) == if LiquidMayEnter(old(sim.cells[..]), x, y, x + dir, y)
      then LateralFrom(old(sim.cells[..]), x, y, dir, spreadDist)
      else LateralFrom(old(sim.cells[..]), x, y, -dir, spreadDist)
  {
    var moved;
    fx, moved := LateralToward(sim, x, y, dir, spreadDist);
    if !moved {
      fx, moved := LateralToward(sim, x, y, -dir, spreadDist);
    }
  }

  /** The part of update_liquid run when the liquid did not fall: slide
      diagonally, else move sideways and spread. */
  method LiquidSideways(sim: Simulation, x: int, y: int, dir: int, spreadDist: int) returns (fx: int, fy: int)
    requires sim.Valid() && InBounds(x, y)
    modifies sim.cells
    ensures sim.Valid()
    ensures (sim.cells[..], fx, fy) == LiquidShifted(old(sim.cells[..]), x, y, dir, spreadDist)
  {
    var slid;
    fx, slid := LiquidSlide(sim, x, y, dir);
    if slid {
      fy := y + 1;
      return;
    }
    fy := y;
    fx := LiquidLateral(sim, x, y, dir, spreadDist);
  }

  // What the motion functions promise.

  /** What the fall loop leaves, from the liquid at (x, cy) on pass i of the
      round(yVel) + 1 allowed (r the result, m the liquid's material, n the passes
      left): every cell passed over was empty, the last one entered empty or holding
      a lighter liquid, and it went at most n rows. */
  ghost predicate FallPath(t: seq<Particle>, x: int, cy: int, i: nat, r: (seq<Particle>, int))
    requires |t| == SIZE && InBounds(x, cy) && InBounds(x, r.1) && cy <= r.1
  {
    var p := t[Index(x, cy)];
    && (forall k :: cy < k < r.1 ==> t[Index(x, k)].flag == EmptyFlag)
    && (r.1 > cy ==> t[Index(x, r.1)].flag == EmptyFlag || DensityCheck(p.material, t[Index(x, r.1)].material))
    && (r.1 == cy || r.1 - cy <= Round(p.yVel) + 1 - i)
  }

  /** How the fall loop ends: when it stopped before its last pass on a cell that
      was not a displaced liquid, the next cell below could not be entered; and the
      record keeps its yVel only when it used all its passes without displacing at
      the end, otherwise that yVel is zero. */
  ghost predicate FallEnd(t: seq<Particle>, x: int, cy: int, i: nat, r: (seq<Particle>, int))
    requires |t| == SIZE && InBounds(x, cy) && |r.0| == SIZE && InBounds(x, r.1)
  {
    var p := t[Index(x, cy)];
    var n := Round(p.yVel) + 1 - i;
    var clean := r.1 == cy || !DensityCheck(p.material, t[Index(x, r.1)].material);
    && (clean && r.1 - cy < n ==> !LiquidMayEnter(t, x, cy, x, r.1 + 1))
    && r.0[Index(x, r.1)] == p.(yVel := if clean && r.1 - cy == n then p.yVel else 0)
  }

  /** The grid after one pass that stepped down, and the facts that pass keeps. */
  lemma FallPass(t: seq<Particle>, x: int, cy: int, i: nat) returns (t': seq<Particle>)
    requires |t| == SIZE && InBounds(x, cy)
    requires i < Round(t[Index(x, cy)].yVel) + 1 && LiquidMayEnter(t, x, cy, x, cy + 1)
    ensures |t'| == SIZE && FallFrom(t, x, cy, i) == FallFrom(t', x, cy + 1, i + 1)
    ensures t'[Index(x, cy + 1)].material == t[Index(x, cy)].material
    ensures t'[Index(x, cy + 1)].yVel ==
      if DensityCheck(t[Index(x, cy)].material, t[Index(x, cy + 1)].material) then 0 else t[Index(x, cy)].yVel
    ensures t'[Index(x, cy + 1)] == t[Index(x, cy)].(yVel := t'[Index(x, cy + 1)].yVel)
    ensures forall k :: cy + 1 < k < HEIGHT ==> t'[Index(x, k)] == t[Index(x, k)]
  {
    var p := t[Index(x, cy)];
    var u := if DensityCheck(p.material, t[Index(x, cy + 1)].material) then t[Index(x, cy) := p.(yVel := 0)] else t;
    t' := Swapped(u, Index(x, cy), Index(x, cy + 1));
  }

  /** A pass from (x, cy) that steps into an empty cell: FallPath and FallEnd of
      the loop going on from the grid t' after it carry back to that pass. */
  lemma FallLift(t: seq<Particle>, x: int, cy: int, i: nat) returns (t': seq<Particle>)
    requires |t| == SIZE && InBounds(x, cy) && i < Round(t[Index(x, cy)].yVel) + 1
    requires LiquidMayEnter(t, x, cy, x, cy + 1) && !DensityCheck(t[Index(x, cy)].material, t[Index(x, cy + 1)].material)
    ensures |t'| == SIZE && InBounds(x, cy + 1) && i + 1 <= Round(t'[Index(x, cy + 1)].yVel) + 1
    ensures FallFrom(t, x, cy, i) == FallFrom(t', x, cy + 1, i + 1)
    ensures var r := FallFrom(t', x, cy + 1, i + 1);
      FallPath(t', x, cy + 1, i + 1, r) && FallEnd(t', x, cy + 1, i + 1, r) ==>
      FallPath(t, x, cy, i, r) && FallEnd(t, x, cy, i, r)
  {
    t' := FallPass(t, x, cy, i);
  }

  /** A pass from (x, cy) that displaces a lighter liquid: the loop ends there,
      and FallPath and FallEnd hold of it. */
  lemma FallDisplaced(t: seq<Particle>, x: int, cy: int, i: nat)
    requires |t| == SIZE && InBounds(x, cy) && i < Round(t[Index(x, cy)].yVel) + 1
    requires LiquidMayEnter(t, x, cy, x, cy + 1) && DensityCheck(t[Index(x, cy)].material, t[Index(x, cy + 1)].material)
    ensures FallPath(t, x, cy, i, FallFrom(t, x, cy, i)) && FallEnd(t, x, cy, i, FallFrom(t, x, cy, i))
  {
    var t' := FallPass(t, x, cy, i);
    FallSteps(0);
    assert FallFrom(t', x, cy + 1, i + 1) == (t', cy + 1);
  }

  /** FallPath and FallEnd of a pass from (x, cy) that does not step down: the
      loop ends where it is. */
  lemma FallStops(t: seq<Particle>, x: int, cy: int, i: nat)
    requires |t| == SIZE && InBounds(x, cy)
    requires i <= Round(t[Index(x, cy)].yVel) + 1 || t[Index(x, cy)].yVel == 0
    requires !(i < Round(t[Index(x, cy)].yVel) + 1 && LiquidMayEnter(t, x, cy, x, cy + 1))
    ensures FallPath(t, x, cy, i, FallFrom(t, x, cy, i)) && FallEnd(t, x, cy, i, FallFrom(t, x, cy, i))
  {
  }

  /** FallPath and FallEnd for the fall loop, by induction on the rows below. */
  lemma {:induction false} FallFromPath(t: seq<Particle>, x: int, cy: int, i: nat)
    requires |t| == SIZE && InBounds(x, cy)
    requires i <= Round(t[Index(x, cy)].yVel) + 1 || t[Index(x, cy)].yVel == 0
    ensures FallPath(t, x, cy, i, FallFrom(t, x, cy, i)) && FallEnd(t, x, cy, i, FallFrom(t, x, cy, i))
    decreases HEIGHT - cy
  {
    if !(i < Round(t[Index(x, cy)].yVel) + 1 && LiquidMayEnter(t, x, cy, x, cy + 1)) {
      FallStops(t, x, cy, i);
    } else if DensityCheck(t[Index(x, cy)].material, t[Index(x, cy + 1)].material) {
      FallDisplaced(t, x, cy, i);
    } else {
      var t' := FallLift(t, x, cy, i);
      FallFromPath(t', x, cy + 1, i + 1);
    }
  }

  /** What the fall loop keeps, the liquid from (x, y) of grid s0 at (x, r.1) in
      grid r.0: LiquidInv within the four rows below y, the material multiset and
      well-formedness. */
  ghost predicate FallOutcome(s0: seq<Particle>, x: int, y: int, d: int, r: (seq<Particle>, int))
    requires |s0| == SIZE && |r.0| == SIZE && InBounds(x, y)
  {
    LiquidInv(s0, r.0, x, y, d, x, r.1) && multiset(Types(r.0)) == multiset(Types(s0)) && AllWellFormed(r.0)
  }

  /** One pass of the fall loop that steps down keeps FallOutcome. */
  lemma FallPassInv(s0: seq<Particle>, t: seq<Particle>, x: int, y: int, d: int, cy: int, i: nat)
    returns (t': seq<Particle>)
    requires |s0| == SIZE && |t| == SIZE && InBounds(x, y) && IsLiquid(s0[Index(x, y)].material)
    requires FallOutcome(s0, x, y, d, (t, cy)) && cy == y + i
    requires i < Round(t[Index(x, cy)].yVel) + 1 && LiquidMayEnter(t, x, cy, x, cy + 1)
    ensures |t'| == SIZE && FallFrom(t, x, cy, i) == FallFrom(t', x, cy + 1, i + 1)
    ensures FallOutcome(s0, x, y, d, (t', cy + 1))
  {
    var p := t[Index(x, cy)];
    FallSteps(p.yVel);
    var u := t;
    if DensityCheck(p.material, t[Index(x, cy + 1)].material) {
      u := t[Index(x, cy) := p.(yVel := 0)];
      LiquidRewrite(s0, t, x, y, d, x, cy, p.(yVel := 0));
      RewriteKeepsTypes(t, Index(x, cy), p.(yVel := 0));
      VelocityKeepsEntry(t, x, cy, 0, x, cy + 1);
    }
    LiquidStep(s0, u, x, y, d, x, cy, x, cy + 1);
    SwapKeepsTypes(u, Index(x, cy), Index(x, cy + 1));
    t' := Swapped(u, Index(x, cy), Index(x, cy + 1));
  }

  /** The fall loop from the liquid at (x, cy), on pass cy - y, ends in FallOutcome. */
  lemma {:induction false} FallFromInv(s0: seq<Particle>, t: seq<Particle>, x: int, y: int, d: int, cy: int, i: nat)
    requires |s0| == SIZE && |t| == SIZE && InBounds(x, y) && IsLiquid(s0[Index(x, y)].material)
    requires FallOutcome(s0, x, y, d, (t, cy)) && cy == y + i
    ensures FallOutcome(s0, x, y, d, FallFrom(t, x, cy, i))
    decreases HEIGHT - cy
  {
    if i < Round(t[Index(x, cy)].yVel) + 1 && LiquidMayEnter(t, x, cy, x, cy + 1) {
      var t' := FallPassInv(s0, t, x, y, d, cy, i);
      FallFromInv(s0, t', x, y, d, cy + 1, i + 1);
    } else {
      FallStopInv(s0, t, x, y, d, cy, i);
    }
  }

  /** A pass of the fall loop that does not step down keeps FallOutcome. */
  lemma FallStopInv(s0: seq<Particle>, t: seq<Particle>, x: int, y: int, d: int, cy: int, i: nat)
    requires |s0| == SIZE && |t| == SIZE && InBounds(x, y)
    requires FallOutcome(s0, x, y, d, (t, cy))
    requires !(i < Round(t[Index(x, cy)].yVel) + 1 && LiquidMayEnter(t, x, cy, x, cy + 1))
    ensures FallOutcome(s0, x, y, d, FallFrom(t, x, cy, i))
  {
    var p := t[Index(x, cy)];
    if i < Round(p.yVel) + 1 {
      LiquidRewrite(s0, t, x, y, d, x, cy, p.(yVel := 0));
      RewriteKeepsTypes(t, Index(x, cy), p.(yVel := 0));
    }
  }

  /** The straight fall of update_liquid, from (x, y) to (x, fy) in grid s0: every
      cell passed over was empty, the last one empty or holding a lighter liquid that
      was displaced, at most round(yVel) + 1 rows with yVel accelerated first, and
      when the fall ended before that count without displacing, the next cell below
      could not be entered. */
  ghost predicate FellStraight(s0: seq<Particle>, x: int, y: int, fy: int)
    requires |s0| == SIZE && InBounds(x, y) && WellFormed(s0[Index(x, y)])
  {
    var m, a := s0[Index(x, y)].material, Accelerated(s0[Index(x, y)].yVel);
    && InBounds(x, fy) && y < fy <= y + Round(a) + 1
    && (forall r :: y < r < fy ==> s0[Index(x, r)].flag == EmptyFlag)
    && (s0[Index(x, fy)].flag == EmptyFlag || DensityCheck(m, s0[Index(x, fy)].material))
    && (!DensityCheck(m, s0[Index(x, fy)].material) && fy < y + Round(a) + 1 ==> !LiquidMayEnter(s0, x, y, x, fy + 1))
  }

  /** The yVel the liquid from (x, y) in grid s0 carries at (fx, fy) after
      update_liquid: the accelerated yVel when it fell straight the full
      round(yVel) + 1 rows and the last cell entered was not a lighter liquid it
      displaced, zero in every other case. */
  ghost function SpeedAfter(s0: seq<Particle>, x: int, y: int, fx: int, fy: int): int
    requires |s0| == SIZE && InBounds(x, y) && WellFormed(s0[Index(x, y)]) && InBounds(fx, fy)
  {
    var p := s0[Index(x, y)];
    var a := Accelerated(p.yVel);
    if fx == x && fy == y + Round(a) + 1 && !DensityCheck(p.material, s0[Index(fx, fy)].material) then a else 0
  }

  /** The fall of update_liquid: when it moved the liquid it is a FellStraight fall
      and the record then carries SpeedAfter; when it did not, the cell below could
      not be entered and only the record's yVel changed, to zero. */
  lemma LiquidFallenFacts(s0: seq<Particle>, x: int, y: int)
    requires |s0| == SIZE && InBounds(x, y) && WellFormed(s0[Index(x, y)])
    ensures var f := LiquidFallen(s0, x, y);
      && (f.1 > y ==> FellStraight(s0, x, y, f.1))
      && (f.1 > y ==> f.0[Index(x, f.1)] == s0[Index(x, y)].(yVel := SpeedAfter(s0, x, y, x, f.1)))
      && (f.1 == y ==> !LiquidMayEnter(s0, x, y, x, y + 1))
      && (f.1 == y ==> f.0 == s0[Index(x, y) := s0[Index(x, y)].(yVel := 0)])
  {
    var p := s0[Index(x, y)];
    var a := Accelerated(p.yVel);
    var t := s0[Index(x, y) := p.(yVel := a)];
    FallSteps(a);
    FallFromPath(t, x, y, 0);
    var f := FallFrom(t, x, y, 0);
    assert forall k :: y < k < HEIGHT ==> t[Index(x, k)] == s0[Index(x, k)];
    VelocityKeepsEntry(s0, x, y, a, x, f.1 + 1);
    if f.1 == y {
      assert f.0 == t[Index(x, y) := p.(yVel := a).(yVel := 0)];
    }
  }

  /** Where a sideways spread toward s, the liquid from (x, y) of grid s0, ends
      (r the grid and column): LiquidInv, the material multiset and
      well-formedness kept; toward s, no further than spreadDist cells from x (or
      the one cell of the first step), and short of that only at a cell it may not
      enter. */
  ghost predicate SpreadOutcome(s0: seq<Particle>, x: int, y: int, d: int, s: int, spreadDist: int,
                                r: (seq<Particle>, int))
    requires |s0| == SIZE && |r.0| == SIZE && InBounds(x, y) && InBounds(r.1, y)
  {
    && LiquidInv(s0, r.0, x, y, d, r.1, y) && multiset(Types(r.0)) == multiset(Types(s0)) && AllWellFormed(r.0)
    && Sign(r.1 - x) == s && 1 <= Abs(r.1 - x) && (Abs(r.1 - x) <= spreadDist || Abs(r.1 - x) == 1)
    && (Abs(r.1 - x) < spreadDist ==> !LiquidMayEnter(r.0, r.1, y, r.1 + s, y))
  }

  /** The spread loop from the liquid at (fx, y), |fx - x| = i cells toward s from
      x, ends as SpreadOutcome says. */
  lemma {:induction false} SpreadFromInv(s0: seq<Particle>, t: seq<Particle>, x: int, y: int, d: int, s: int,
                                         fx: int, i: int, spreadDist: int)
    requires |s0| == SIZE && |t| == SIZE && InBounds(x, y) && IsLiquid(s0[Index(x, y)].material)
    requires AllWellFormed(t) && multiset(Types(t)) == multiset(Types(s0))
    requires (s == 1 || s == -1) && d >= 1 && d >= spreadDist
    requires LiquidInv(s0, t, x, y, d, fx, y) && Sign(fx - x) == s && Abs(fx - x) == i
    requires 1 <= i && (i <= spreadDist || i == 1)
    ensures SpreadOutcome(s0, x, y, d, s, spreadDist, SpreadFrom(t, fx, y, s, i, spreadDist))
    decreases spreadDist - i
  {
    if i < spreadDist && LiquidMayEnter(t, fx, y, fx + s, y) {
      var t' := SpreadPassInv(s0, t, x, y, d, s, fx, i, spreadDist);
      SpreadFromInv(s0, t', x, y, d, s, fx + s, i + 1, spreadDist);
    } else {
      SpreadStopInv(s0, t, x, y, d, s, fx, i, spreadDist);
    }
  }

  /** One pass of the spread loop that moves on keeps what SpreadFromInv asks of
      its grid. */
  lemma SpreadPassInv(s0: seq<Particle>, t: seq<Particle>, x: int, y: int, d: int, s: int,
                      fx: int, i: int, spreadDist: int) returns (t': seq<Particle>)
    requires |s0| == SIZE && |t| == SIZE && InBounds(x, y) && IsLiquid(s0[Index(x, y)].material)
    requires AllWellFormed(t) && multiset(Types(t)) == multiset(Types(s0))
    requires (s == 1 || s == -1) && d >= 1 && d >= spreadDist
    requires LiquidInv(s0, t, x, y, d, fx, y) && Sign(fx - x) == s && Abs(fx - x) == i
    requires 1 <= i < spreadDist && LiquidMayEnter(t, fx, y, fx + s, y)
    ensures |t'| == SIZE && AllWellFormed(t') && multiset(Types(t')) == multiset(Types(s0))
    ensures LiquidInv(s0, t', x, y, d, fx + s, y) && Sign(fx + s - x) == s && Abs(fx + s - x) == i + 1
    ensures t' == Swapped(t, Index(fx, y), Index(fx + s, y))
  {
    LiquidStep(s0, t, x, y, d, fx, y, fx + s, y);
    SwapKeepsTypes(t, Index(fx, y), Index(fx + s, y));
    t' := Swapped(t, Index(fx, y), Index(fx + s, y));
  }

  /** A pass of the spread loop that stops ends it as SpreadOutcome says. */
  lemma SpreadStopInv(s0: seq<Particle>, t: seq<Particle>, x: int, y: int, d: int, s: int,
                      fx: int, i: int, spreadDist: int)
    requires |s0| == SIZE && |t| == SIZE && InBounds(x, y) && InBounds(fx, y)
    requires AllWellFormed(t) && multiset(Types(t)) == multiset(Types(s0))
    requires LiquidInv(s0, t, x, y, d, fx, y) && Sign(fx - x) == s && Abs(fx - x) == i
    requires 1 <= i && (i <= spreadDist || i == 1)
    requires !(i < spreadDist && LiquidMayEnter(t, fx, y, fx + s, y))
    ensures SpreadOutcome(s0, x, y, d, s, spreadDist, SpreadFrom(t, fx, y, s, i, spreadDist))
  {
    assert SpreadFrom(t, fx, y, s, i, spreadDist) == (t, fx);
  }

  /** The spread loop carries the liquid record unchanged to where it stops. */
  lemma {:induction false} SpreadFromRecord(t: seq<Particle>, fx: int, y: int, s: int, i: int, spreadDist: int)
    requires |t| == SIZE && InBounds(fx, y)
    ensures var r := SpreadFrom(t, fx, y, s, i, spreadDist); r.0[Index(r.1, y)] == t[Index(fx, y)]
    decreases spreadDist - i
  {
    if i < spreadDist && LiquidMayEnter(t, fx, y, fx + s, y) {
      SpreadFromRecord(Swapped(t, Index(fx, y), Index(fx + s, y)), fx + s, y, s, i + 1, spreadDist);
    }
  }

  /** Without a fall the record moves unchanged, to the row below only diagonally. */
  lemma LiquidShiftedRecord(t: seq<Particle>, x: int, y: int, dir: int, spreadDist: int)
    requires |t| == SIZE && InBounds(x, y) && (dir == 1 || dir == -1)
    ensures var r := LiquidShifted(t, x, y, dir, spreadDist);
      r.0[Index(r.1, r.2)] == t[Index(x, y)] && (r.2 == y || (r.2 == y + 1 && r.1 != x))
  {
    if LiquidMayEnter(t, x, y, x + dir, y + 1) || LiquidMayEnter(t, x, y, x - dir, y + 1) {
    } else if LiquidMayEnter(t, x, y, x + dir, y) {
      SpreadFromRecord(Swapped(t, Index(x, y), Index(x + dir, y)), x + dir, y, dir, 1, spreadDist);
    } else if LiquidMayEnter(t, x, y, x - dir, y) {
      SpreadFromRecord(Swapped(t, Index(x, y), Index(x - dir, y)), x - dir, y, -dir, 1, spreadDist);
    }
  }

  /** Wherever update_liquid leaves the liquid, its record is the original one with
      only yVel changed, to SpeedAfter: the accelerated speed after a full fall that
      displaced nothing at the end, zero after a displacement, a blocked step, a
      slide, a spread or staying put. */
  lemma LiquidMotionRecord(s0: seq<Particle>, x: int, y: int, spreadDist: int, dir: int)
    requires |s0| == SIZE && InBounds(x, y) && WellFormed(s0[Index(x, y)]) && (dir == 1 || dir == -1)
    ensures var r := LiquidMotion(s0, x, y, spreadDist, dir);
      r.0[Index(r.1, r.2)] == s0[Index(x, y)].(yVel := SpeedAfter(s0, x, y, r.1, r.2))
  {
    LiquidFallenFacts(s0, x, y);
    var f := LiquidFallen(s0, x, y);
    FallSteps(Accelerated(s0[Index(x, y)].yVel));
    if f.1 == y {
      LiquidShiftedRecord(f.0, x, y, dir, spreadDist);
    }
  }

  /** The diagonal slide of update_liquid, from (x, y) to (fx, y + 1) in grid s0:
      the cell straight below could not be entered, (fx, y + 1) could, and the
      rolled side dir was taken whenever its cell could be entered. */
  ghost predicate SlidDiagonally(s0: seq<Particle>, x: int, y: int, dir: int, fx: int)
    requires |s0| == SIZE && InBounds(x, y)
  {
    && Abs(fx - x) == 1
    && !LiquidMayEnter(s0, x, y, x, y + 1)
    && LiquidMayEnter(s0, x, y, fx, y + 1)
    && (fx == x + dir || !LiquidMayEnter(s0, x, y, x + dir, y + 1))
  }

  /** None of the three cells below (x, y) could be entered from there. */
  ghost predicate CannotDescend(s0: seq<Particle>, x: int, y: int)
    requires |s0| == SIZE && InBounds(x, y)
  {
    && !LiquidMayEnter(s0, x, y, x, y + 1)
    && !LiquidMayEnter(s0, x, y, x + 1, y + 1)
    && !LiquidMayEnter(s0, x, y, x - 1, y + 1)
  }

  /** The sideways spread of update_liquid, from (x, y) to (fx, y), t being the
      grid afterwards: the first step could be entered, it went toward the rolled
      side dir whenever that could be entered, it went no further than spreadDist
      (at least one cell) and it stopped short of spreadDist only at a cell it
      could not enter. */
  ghost predicate SpreadSideways(s0: seq<Particle>, t: seq<Particle>, x: int, y: int, spreadDist: int,
                                 dir: int, fx: int)
    requires |s0| == SIZE && |t| == SIZE && InBounds(x, y) && InBounds(fx, y)
  {
    && 1 <= Abs(fx - x) && (Abs(fx - x) <= spreadDist || Abs(fx - x) == 1)
    && LiquidMayEnter(s0, x, y, x + Sign(fx - x), y)
    && (Sign(fx - x) == dir || !LiquidMayEnter(s0, x, y, x + dir, y))
    && (Abs(fx - x) < spreadDist ==> !LiquidMayEnter(t, fx, y, fx + Sign(fx - x), y))
  }

  /** The liquid at (x, y) could move nowhere sideways either: only its yVel was reset. */
  ghost predicate Stuck(s0: seq<Particle>, t: seq<Particle>, x: int, y: int)
    requires |s0| == SIZE && InBounds(x, y)
  {
    && !LiquidMayEnter(s0, x, y, x + 1, y)
    && !LiquidMayEnter(s0, x, y, x - 1, y)
    && t == s0[Index(x, y) := s0[Index(x, y)].(yVel := 0)]
  }

  /** Where the branches taken when the liquid at (x, y) of grid s0 did not fall
      end (r the grid and position): they keep LiquidInv and the material multiset,
      and the liquid ends one row down after a diagonal slide (SlidDiagonally) or
      on its own row, all three cells below closed, after a sideways spread
      (SpreadSideways) or staying put (Stuck). */
  ghost predicate ShiftOutcome(s0: seq<Particle>, x: int, y: int, d: int, dir: int, spreadDist: int,
                               r: (seq<Particle>, int, int))
    requires |s0| == SIZE && |r.0| == SIZE && InBounds(x, y) && InBounds(r.1, r.2)
  {
    && LiquidInv(s0, r.0, x, y, d, r.1, r.2) && multiset(Types(r.0)) == multiset(Types(s0))
    && y <= r.2 <= y + 1
    && (r.2 == y + 1 ==> SlidDiagonally(s0, x, y, dir, r.1))
    && (r.2 == y ==> CannotDescend(s0, x, y))
    && (r.2 == y && r.1 != x ==> SpreadSideways(s0, r.0, x, y, spreadDist, dir, r.1))
    && (r.2 == y && r.1 == x ==> Stuck(s0, r.0, x, y))
  }

  /** The branches taken when the liquid did not fall, on the grid s0 with only
      the liquid's yVel zeroed and the cell below closed, end as ShiftOutcome says. */
  lemma LiquidShiftedFacts(s0: seq<Particle>, x: int, y: int, d: int, dir: int, spreadDist: int)
    requires |s0| == SIZE && InBounds(x, y) && IsLiquid(s0[Index(x, y)].material) && AllWellFormed(s0)
    requires (dir == 1 || dir == -1) && d >= 1 && d >= spreadDist
    requires !LiquidMayEnter(s0, x, y, x, y + 1)
    ensures ShiftOutcome(s0, x, y, d, dir, spreadDist,
                         LiquidShifted(s0[Index(x, y) := s0[Index(x, y)].(yVel := 0)], x, y, dir, spreadDist))
  {
    var t := s0[Index(x, y) := s0[Index(x, y)].(yVel := 0)];
    VelocityKeepsEntry(s0, x, y, 0, x + dir, y + 1);
    if LiquidMayEnter(s0, x, y, x + dir, y + 1) {
      ShiftedDiagonally(s0, x, y, d, dir, dir, spreadDist);
    } else {
      VelocityKeepsEntry(s0, x, y, 0, x - dir, y + 1);
      if LiquidMayEnter(s0, x, y, x - dir, y + 1) {
        ShiftedDiagonally(s0, x, y, d, dir, -dir, spreadDist);
      } else {
        ShiftedSideways(s0, x, y, d, dir, spreadDist);
      }
    }
  }

  /** The diagonal branch toward s (the rolled side dir, or the other side when
      dir's cell could not be entered) ends as ShiftOutcome says. */
  lemma ShiftedDiagonally(s0: seq<Particle>, x: int, y: int, d: int, dir: int, s: int, spreadDist: int)
    requires |s0| == SIZE && InBounds(x, y) && IsLiquid(s0[Index(x, y)].material) && AllWellFormed(s0)
    requires (dir == 1 || dir == -1) && (s == dir || s == -dir) && d >= 1 && d >= spreadDist
    requires !LiquidMayEnter(s0, x, y, x, y + 1) && LiquidMayEnter(s0, x, y, x + s, y + 1)
    requires s == -dir ==> !LiquidMayEnter(s0, x, y, x + dir, y + 1)
    ensures ShiftOutcome(s0, x, y, d, dir, spreadDist,
                         LiquidShifted(s0[Index(x, y) := s0[Index(x, y)].(yVel := 0)], x, y, dir, spreadDist))
  {
    var t := s0[Index(x, y) := s0[Index(x, y)].(yVel := 0)];
    VelocityKeepsEntry(s0, x, y, 0, x + dir, y + 1);
    VelocityKeepsEntry(s0, x, y, 0, x + s, y + 1);
    assert LiquidInv(s0, t, x, y, d, x, y);
    RewriteKeepsTypes(s0, Index(x, y), s0[Index(x, y)].(yVel := 0));
    LiquidStep(s0, t, x, y, d, x, y, x + s, y + 1);
    SwapKeepsTypes(t, Index(x, y), Index(x + s, y + 1));
    assert LiquidShifted(t, x, y, dir, spreadDist) == (Swapped(t, Index(x, y), Index(x + s, y + 1)), x + s, y + 1);
  }

  /** The lateral branches, taken when none of the three cells below could be
      entered, end as ShiftOutcome says. */
  lemma ShiftedSideways(s0: seq<Particle>, x: int, y: int, d: int, dir: int, spreadDist: int)
    requires |s0| == SIZE && InBounds(x, y) && IsLiquid(s0[Index(x, y)].material) && AllWellFormed(s0)
    requires (dir == 1 || dir == -1) && d >= 1 && d >= spreadDist
    requires CannotDescend(s0, x, y)
    ensures ShiftOutcome(s0, x, y, d, dir, spreadDist,
                         LiquidShifted(s0[Index(x, y) := s0[Index(x, y)].(yVel := 0)], x, y, dir, spreadDist))
  {
    VelocityKeepsEntry(s0, x, y, 0, x + dir, y);
    VelocityKeepsEntry(s0, x, y, 0, x - dir, y);
    if LiquidMayEnter(s0, x, y, x + dir, y) {
      ShiftedLaterally(s0, x, y, d, dir, dir, spreadDist);
    } else if LiquidMayEnter(s0, x, y, x - dir, y) {
      ShiftedLaterally(s0, x, y, d, dir, -dir, spreadDist);
    } else {
      ShiftedNowhere(s0, x, y, d, dir, spreadDist);
    }
  }

  /** The lateral branch toward s (the rolled side dir, or the other side when
      dir's cell could not be entered) ends as ShiftOutcome says. */
  lemma ShiftedLaterally(s0: seq<Particle>, x: int, y: int, d: int, dir: int, s: int, spreadDist: int)
    requires |s0| == SIZE && InBounds(x, y) && IsLiquid(s0[Index(x, y)].material) && AllWellFormed(s0)
    requires (dir == 1 || dir == -1) && (s == dir || s == -dir) && d >= 1 && d >= spreadDist
    requires CannotDescend(s0, x, y) && LiquidMayEnter(s0, x, y, x + s, y)
    requires s == -dir ==> !LiquidMayEnter(s0, x, y, x + dir, y)
    ensures ShiftOutcome(s0, x, y, d, dir, spreadDist,
                         LiquidShifted(s0[Index(x, y) := s0[Index(x, y)].(yVel := 0)], x, y, dir, spreadDist))
  {
    var t := s0[Index(x, y) := s0[Index(x, y)].(yVel := 0)];
    VelocityKeepsEntry(s0, x, y, 0, x + dir, y + 1);
    VelocityKeepsEntry(s0, x, y, 0, x - dir, y + 1);
    VelocityKeepsEntry(s0, x, y, 0, x + dir, y);
    VelocityKeepsEntry(s0, x, y, 0, x + s, y);
    assert LiquidInv(s0, t, x, y, d, x, y);
    RewriteKeepsTypes(s0, Index(x, y), s0[Index(x, y)].(yVel := 0));
    LateralFacts(s0, t, x, y, d, s, spreadDist);
    var l := LateralFrom(t, x, y, s, spreadDist);
    assert LiquidShifted(t, x, y, dir, spreadDist) == (l.0, l.1, y);
  }

  /** With no cell below or beside open, the liquid stays put with its yVel reset. */
  lemma ShiftedNowhere(s0: seq<Particle>, x: int, y: int, d: int, dir: int, spreadDist: int)
    requires |s0| == SIZE && InBounds(x, y) && IsLiquid(s0[Index(x, y)].material) && AllWellFormed(s0)
    requires (dir == 1 || dir == -1) && d >= 1
    requires CannotDescend(s0, x, y) && !LiquidMayEnter(s0, x, y, x + 1, y) && !LiquidMayEnter(s0, x, y, x - 1, y)
    ensures ShiftOutcome(s0, x, y, d, dir, spreadDist,
                         LiquidShifted(s0[Index(x, y) := s0[Index(x, y)].(yVel := 0)], x, y, dir, spreadDist))
  {
    var t := s0[Index(x, y) := s0[Index(x, y)].(yVel := 0)];
    VelocityKeepsEntry(s0, x, y, 0, x + 1, y + 1);
    VelocityKeepsEntry(s0, x, y, 0, x - 1, y + 1);
    VelocityKeepsEntry(s0, x, y, 0, x + 1, y);
    VelocityKeepsEntry(s0, x, y, 0, x - 1, y);
    assert LiquidInv(s0, t, x, y, d, x, y);
    RewriteKeepsTypes(s0, Index(x, y), s0[Index(x, y)].(yVel := 0));
    assert LiquidShifted(t, x, y, dir, spreadDist) == (t, x, y);
  }

  /** One lateral branch that could take its first step toward s: the spread from
      there ends as SpreadOutcome says. */
  lemma LateralFacts(s0: seq<Particle>, t: seq<Particle>, x: int, y: int, d: int, s: int, spreadDist: int)
    requires |s0| == SIZE && |t| == SIZE && InBounds(x, y) && IsLiquid(s0[Index(x, y)].material)
    requires AllWellFormed(t) && multiset(Types(t)) == multiset(Types(s0)) && LiquidInv(s0, t, x, y, d, x, y)
    requires (s == 1 || s == -1) && d >= 1 && d >= spreadDist && LiquidMayEnter(t, x, y, x + s, y)
    ensures SpreadOutcome(s0, x, y, d, s, spreadDist, LateralFrom(t, x, y, s, spreadDist))
  {
    var t' := Swapped(t, Index(x, y), Index(x + s, y));
    LiquidStep(s0, t, x, y, d, x, y, x + s, y);
    SwapKeepsTypes(t, Index(x, y), Index(x + s, y));
    SpreadFromInv(s0, t', x, y, d, s, x + s, 1, spreadDist);
    assert LateralFrom(t, x, y, s, spreadDist) == SpreadFrom(t', x + s, y, s, 1, spreadDist);
  }

  /** What update_liquid makes of grid s0, the liquid at (x, y) with spread
      distance spreadDist and rolled side dir: t is the grid afterwards and (fx, fy)
      where the liquid record ends. The record keeps its material and descends at
      most four rows. It falls straight down when it can (FellStraight); otherwise it
      slides one cell diagonally down (SlidDiagonally); otherwise, none of the cells
      below open, it spreads sideways (SpreadSideways) or, when it cannot, only its
      yVel is reset (Stuck). Only its own neighbourhood changes, and no solid or gas
      is ever displaced (LiquidInv). The grid and position are exactly those of
      LiquidMotion, and the record is the original one with yVel SpeedAfter. */
  ghost predicate LiquidUpdated(s0: seq<Particle>, t: seq<Particle>, x: int, y: int, spreadDist: int, dir: int,
                                fx: int, fy: int)
    requires |s0| == SIZE && |t| == SIZE && InBounds(x, y) && WellFormed(s0[Index(x, y)])
  {
    var d := if spreadDist < 1 then 1 else spreadDist;
    && multiset(Types(t)) == multiset(Types(s0))
    && LiquidInv(s0, t, x, y, d, fx, fy)
    && (fy > y && fx == x ==> FellStraight(s0, x, y, fy))
    && (fy > y && fx != x ==> fy == y + 1 && SlidDiagonally(s0, x, y, dir, fx))
    && (fy == y ==> CannotDescend(s0, x, y))
    && (fy == y && fx != x ==> SpreadSideways(s0, t, x, y, spreadDist, dir, fx))
    && (fy == y && fx == x ==> Stuck(s0, t, x, y))
    && (t, fx, fy) == LiquidMotion(s0, x, y, spreadDist, dir)
    && t[Index(fx, fy)] == s0[Index(x, y)].(yVel := SpeedAfter(s0, x, y, fx, fy))
  }

  /** update_liquid. One roll picks the side (even: +1); the rest is LiquidUpdated. */
  method UpdateLiquid(sim: Simulation, x: int, y: int, spreadDist: int) returns (ghost fx: int, ghost fy: int)
    requires sim.Valid() && InBounds(x, y) && IsLiquid(sim.At(x, y).material)
    modifies sim.cells, sim.rng
    ensures sim.Valid() && sim.rng.draws == old(sim.rng.draws) + 1
    ensures LiquidUpdated(old(sim.cells[..]), sim.cells[..], x, y, spreadDist,
                          Side(sim.rng.rolls(old(sim.rng.draws))), fx, fy)
  {
    ghost var s0 := sim.cells[..];
    var roll := sim.rng.Next();
    assert sim.cells[..] == s0;
    var dir := Side(roll);
    var cy, fell := LiquidFall(sim, x, y);
    fx, fy := x, cy;
    if !fell {
      fx, fy := LiquidSideways(sim, x, y, dir, spreadDist);
    }
    assert (sim.cells[..], fx, fy) == LiquidMotion(s0, x, y, spreadDist, dir);
    LiquidMotionUpdated(s0, x, y, spreadDist, dir);
  }

  /** LiquidUpdated holds of LiquidMotion for a liquid in a well-formed grid. */
  lemma LiquidMotionUpdated(s0: seq<Particle>, x: int, y: int, spreadDist: int, dir: int)
    requires |s0| == SIZE && InBounds(x, y) && IsLiquid(s0[Index(x, y)].material) && AllWellFormed(s0)
    requires dir == 1 || dir == -1
    ensures var r := LiquidMotion(s0, x, y, spreadDist, dir);
      LiquidUpdated(s0, r.0, x, y, spreadDist, dir, r.1, r.2)
  {
    var d := if spreadDist < 1 then 1 else spreadDist;
    var p := s0[Index(x, y)];
    var t := s0[Index(x, y) := p.(yVel := Accelerated(p.yVel))];
    assert LiquidInv(s0, t, x, y, d, x, y);
    RewriteKeepsTypes(s0, Index(x, y), p.(yVel := Accelerated(p.yVel)));
    assert FallOutcome(s0, x, y, d, (t, y));
    FallFromInv(s0, t, x, y, d, y, 0);
    LiquidFallenFacts(s0, x, y);
    LiquidMotionRecord(s0, x, y, spreadDist, dir);
    var f := LiquidFallen(s0, x, y);
    if f.1 == y {
      LiquidShiftedFacts(s0, x, y, d, dir, spreadDist);
    }
  }
}

/** The per-liquid wrappers of update_liquid and the reactions they run afterwards
    around the position the liquid was called with. */
module LiquidRules {
  import opened Particles
  import opened SimConfig
  import opened Grid
  import opened Reactions
  import opened Liquids
  import opened Velocity

  /** The neighbours each reaction looks at, in the order the source tests them. */
  const WATER_PROBES: seq<(int, int)> := [(0, 1), (0, -1), (1, 0), (-1, 0)]
  const ACID_PROBES: seq<(int, int)> := [(0, 1), (1, 0), (-1, 0)]
  const LAVA_PROBES: seq<(int, int)> := [(0, 1), (1, 0), (-1, 0)]

  predicate LavaAt(s: seq<Particle>, x: int, y: int)
    requires |s| == SIZE
  {
    InBounds(x, y) && s[Index(x, y)].material == Lava
  }

  /** The position of the first probe around (x, y), from the j-th on, holding
      lava, or |probes|. */
  function FirstLava(s: seq<Particle>, x: int, y: int, probes: seq<(int, int)>, j: nat): (k: nat)
    requires |s| == SIZE && j <= |probes|
    ensures j <= k <= |probes|
    decreases |probes| - j
  {
    if j == |probes| then j
    else if LavaAt(s, x + probes[j].0, y + probes[j].1) then j
    else FirstLava(s, x, y, probes, j + 1)
  }

  /** FirstLava finds lava, and none among the probes it passed over. */
  lemma {:induction false} FirstLavaFinds(s: seq<Particle>, x: int, y: int, probes: seq<(int, int)>, j: nat)
    requires |s| == SIZE && j <= |probes|
    ensures var k := FirstLava(s, x, y, probes, j);
      && (k < |probes| ==> LavaAt(s, x + probes[k].0, y + probes[k].1))
      && (forall i :: j <= i < k ==> !LavaAt(s, x + probes[i].0, y + probes[i].1))
    decreases |probes| - j
  {
    if j < |probes| && !LavaAt(s, x + probes[j].0, y + probes[j].1) {
      FirstLavaFinds(s, x, y, probes, j + 1);
    }
  }

  /** One step of the probe search. */
  lemma FirstLavaStep(s: seq<Particle>, x: int, y: int, probes: seq<(int, int)>, j: nat)
    requires |s| == SIZE && j <= |probes|
    ensures FirstLava(s, x, y, probes, j) ==
      if j == |probes| then j
      else if LavaAt(s, x + probes[j].0, y + probes[j].1) then j
      else FirstLava(s, x, y, probes, j + 1)
  {
  }

  /** The grid after water's reaction: the first lava among the probes becomes
      stone, and then the cell at (x, y) becomes steam of health 300. */
  function WaterReaction(s: seq<Particle>, x: int, y: int): (r: seq<Particle>)
    requires |s| == SIZE && InBounds(x, y)
    ensures |r| == SIZE
  {
    var k := FirstLava(s, x, y, WATER_PROBES, 0);
    if k == |WATER_PROBES| then s
    else
      var px, py := x + WATER_PROBES[k].0, y + WATER_PROBES[k].1;
      s[Index(px, py) := Created(Stone)][Index(x, y) := WithHealth(Steam, STEAM_BASE_HEALTH)]
  }

  /** Water with no lava beside it changes nothing. */
  lemma WaterWithoutLavaChangesNothing(s: seq<Particle>, x: int, y: int)
    requires |s| == SIZE && InBounds(x, y)
    requires forall j :: 0 <= j < |WATER_PROBES| ==> !LavaAt(s, x + WATER_PROBES[j].0, y + WATER_PROBES[j].1)
    ensures WaterReaction(s, x, y) == s
  {
    FirstLavaFinds(s, x, y, WATER_PROBES, 0);
    assert FirstLava(s, x, y, WATER_PROBES, 0) == |WATER_PROBES|;
  }

  /** Water beside lava turns exactly one lava cell, the first in probe order, into
      stone, provided the cell at (x, y) is not itself lava. */
  lemma WaterQuenchesOneLava(s: seq<Particle>, x: int, y: int)
    requires |s| == SIZE && InBounds(x, y) && s[Index(x, y)].material != Lava
    requires FirstLava(s, x, y, WATER_PROBES, 0) < |WATER_PROBES|
    ensures multiset(Types(WaterReaction(s, x, y)))[Lava] + 1 == multiset(Types(s))[Lava]
  {
    var k := FirstLava(s, x, y, WATER_PROBES, 0);
    FirstLavaFinds(s, x, y, WATER_PROBES, 0);
    var px, py := x + WATER_PROBES[k].0, y + WATER_PROBES[k].1;
    var i, o := Index(px, py), Index(x, y);
    assert i != o by { IndexInjectiveNe(px, py, x, y); }
    assert WaterReaction(s, x, y) == s[i := Created(Stone)][o := WithHealth(Steam, STEAM_BASE_HEALTH)];
    LavaReplaced(s, i, o, Created(Stone), WithHealth(Steam, STEAM_BASE_HEALTH));
  }

  /** Rewriting a lava cell i and a non-lava cell o with records that are not lava
      removes exactly one lava from the multiset of materials. */
  lemma LavaReplaced(s: seq<Particle>, i: int, o: int, p: Particle, q: Particle)
    requires 0 <= i < |s| && 0 <= o < |s| && i != o
    requires s[i].material == Lava && s[o].material != Lava && p.material != Lava && q.material != Lava
    ensures multiset(Types(s[i := p][o := q]))[Lava] + 1 == multiset(Types(s))[Lava]
  {
    var u := s[i := p];
    TypesUpdate(s, i, p);
    TypesUpdate(u, o, q);
  }

  /** Water beside lava leaves steam of health 300 at (x, y). */
  lemma WaterLeavesSteam(s: seq<Particle>, x: int, y: int)
    requires |s| == SIZE && InBounds(x, y)
    requires FirstLava(s, x, y, WATER_PROBES, 0) < |WATER_PROBES|
    ensures WaterReaction(s, x, y)[Index(x, y)] == WithHealth(Steam, STEAM_BASE_HEALTH)
  {
  }

  /** Distinct positions have distinct indices (contrapositive form). */
  lemma IndexInjectiveNe(x1: int, y1: int, x2: int, y2: int)
    requires InBounds(x1, y1) && InBounds(x2, y2) && (x1 != x2 || y1 != y2)
    ensures Index(x1, y1) != Index(x2, y2)
  {
  }

  /** Rewriting one cell replaces one material in the multiset of materials. */
  lemma TypesUpdate(s: seq<Particle>, i: int, p: Particle)
    requires 0 <= i < |s|
    ensures multiset(Types(s[i := p])) == multiset(Types(s)) - multiset{s[i].material} + multiset{p.material}
  {
    assert Types(s[i := p]) == Types(s)[i := p.material];
  }

  /** The generic probe search agrees with update_water's `||` chain. */
  lemma WaterProbeOrder(s: seq<Particle>, x: int, y: int)
    requires |s| == SIZE
    ensures FirstLava(s, x, y, WATER_PROBES, 0) ==
      if LavaAt(s, x, y + 1) then 0 else if LavaAt(s, x, y - 1) then 1
      else if LavaAt(s, x + 1, y) then 2 else if LavaAt(s, x - 1, y) then 3 else 4
  {
    FirstLavaStep(s, x, y, WATER_PROBES, 0);
    FirstLavaStep(s, x, y, WATER_PROBES, 1);
    FirstLavaStep(s, x, y, WATER_PROBES, 2);
    FirstLavaStep(s, x, y, WATER_PROBES, 3);
    FirstLavaStep(s, x, y, WATER_PROBES, 4);
  }

  /** The water reaction spelled out neighbour by neighbour. */
  lemma WaterReactionCases(s: seq<Particle>, x: int, y: int)
    requires |s| == SIZE && InBounds(x, y)
    ensures WaterReaction(s, x, y) ==
      var steam := WithHealth(Steam, STEAM_BASE_HEALTH);
      if LavaAt(s, x, y + 1) then s[Index(x, y + 1) := Created(Stone)][Index(x, y) := steam]
      else if LavaAt(s, x, y - 1) then s[Index(x, y - 1) := Created(Stone)][Index(x, y) := steam]
      else if LavaAt(s, x + 1, y) then s[Index(x + 1, y) := Created(Stone)][Index(x, y) := steam]
      else if LavaAt(s, x - 1, y) then s[Index(x - 1, y) := Created(Stone)][Index(x, y) := steam]
      else s
  {
    WaterProbeOrder(s, x, y);
  }

  /** The reaction half of update_water: lava_check on the four neighbours of
      (x, y) in the order of the source's `||` chain, stopping at the first lava
      turned to stone; then steam at (x, y) if one was. */
  method WaterReact(sim: Simulation, x: int, y: int)
    requires sim.Valid() && InBounds(x, y)
    modifies sim.cells
    ensures sim.Valid()
    ensures sim.cells[..] == WaterReaction(old(sim.cells[..]), x, y)
  {
    WaterReactionCases(sim.cells[..], x, y);
    var hit := LavaCheck(sim, x, y + 1);
    if !hit {
      hit := LavaCheck(sim, x, y - 1);
      if !hit {
        hit := LavaCheck(sim, x + 1, y);
        if !hit {
          hit := LavaCheck(sim, x - 1, y);
        }
      }
    }
    if hit {
      sim.Write(x, y, WithHealth(Steam, STEAM_BASE_HEALTH));
    }
  }

  /** update_water: update_liquid with spread 4, then the reaction around the
      position it was called with (where the water was before it moved). */
  method UpdateWater(sim: Simulation, x: int, y: int) returns (ghost moved: seq<Particle>, ghost fx: int, ghost fy: int)
    requires sim.Valid() && InBounds(x, y) && sim.At(x, y).material == Water
    modifies sim.cells, sim.rng
    ensures sim.Valid() && sim.rng.draws == old(sim.rng.draws) + 1
    ensures |moved| == SIZE
    ensures LiquidUpdated(old(sim.cells[..]), moved, x, y, WATER_SPREAD_DISTANCE, Side(sim.rng.rolls(old(sim.rng.draws))), fx, fy)
    ensures sim.cells[..] == WaterReaction(moved, x, y)
  {
    fx, fy := UpdateLiquid(sim, x, y, WATER_SPREAD_DISTANCE);
    moved := sim.cells[..];
    WaterReact(sim, x, y);
  }

  /** Acid's reaction: corrosion_check below, right and left of (x, y), stopping at
      the first that corrodes, which is emptied; if one did, the cell at (x, y) then
      becomes toxic gas. The result is whether one did, the grid, and the roll count. */
  function AcidReaction(s: seq<Particle>, x: int, y: int, rolls: nat -> nat, n: nat)
    : (r: (bool, seq<Particle>, nat))
    requires |s| == SIZE && InBounds(x, y)
    ensures |r.1| == SIZE && n <= r.2 <= n + |ACID_PROBES|
    ensures !r.0 ==> r.1 == s
  {
    var gas := Created(ToxicGas);
    var c0 := CorrosionProbe(s, x, y + 1, rolls, n);
    var c1 := CorrosionProbe(s, x + 1, y, rolls, c0.1);
    var c2 := CorrosionProbe(s, x - 1, y, rolls, c1.1);
    if c0.0 then (true, s[Index(x, y + 1) := Emptied(s[Index(x, y + 1)])][Index(x, y) := gas], c0.1)
    else if c1.0 then (true, s[Index(x + 1, y) := Emptied(s[Index(x + 1, y)])][Index(x, y) := gas], c1.1)
    else if c2.0 then (true, s[Index(x - 1, y) := Emptied(s[Index(x - 1, y)])][Index(x, y) := gas], c2.1)
    else (false, s, c2.1)
  }

  /** Acid with no corrodible neighbour draws no roll and changes nothing. */
  lemma NothingToCorrode(s: seq<Particle>, x: int, y: int, rolls: nat -> nat, n: nat)
    requires |s| == SIZE && InBounds(x, y)
    requires forall j :: 0 <= j < |ACID_PROBES| ==>
      var px, py := x + ACID_PROBES[j].0, y + ACID_PROBES[j].1;
      !(InBounds(px, py) && Corrosion(s[Index(px, py)].material) > 0)
    ensures AcidReaction(s, x, y, rolls, n) == (false, s, n)
  {
    assert ACID_PROBES[0] == (0, 1) && ACID_PROBES[1] == (1, 0) && ACID_PROBES[2] == (-1, 0);
  }

  /** When acid's reaction changes the grid, exactly one neighbour among the probes
      (below, right, left) was sand, gunpowder, wood or stone and passed the roll
      then drawn; it is now empty and toxic gas stands at (x, y). */
  lemma AcidEatsOneSolid(s: seq<Particle>, x: int, y: int, rolls: nat -> nat, n: nat)
    requires |s| == SIZE && InBounds(x, y)
    requires AcidReaction(s, x, y, rolls, n).0
    ensures || AteAt(s, x, y, x, y + 1, rolls, n)
            || AteAt(s, x, y, x + 1, y, rolls, n)
            || AteAt(s, x, y, x - 1, y, rolls, n)
  {
    var gas := Created(ToxicGas);
    var c0 := CorrosionProbe(s, x, y + 1, rolls, n);
    var c1 := CorrosionProbe(s, x + 1, y, rolls, c0.1);
    var c2 := CorrosionProbe(s, x - 1, y, rolls, c1.1);
    if c0.0 {
      EatenCell(s, x, y, x, y + 1, rolls, n, n);
    } else if c1.0 {
      EatenCell(s, x, y, x + 1, y, rolls, n, c0.1);
    } else {
      EatenCell(s, x, y, x - 1, y, rolls, n, c1.1);
    }
  }

  /** If the reaction's outcome is that of the probe at (px, py) corroding on roll m,
      then that probe was eaten in the sense of AteAt. */
  lemma EatenCell(s: seq<Particle>, x: int, y: int, px: int, py: int, rolls: nat -> nat, n: nat, m: nat)
    requires |s| == SIZE && InBounds(x, y) && (px != x || py != y)
    requires CorrosionProbe(s, px, py, rolls, m).0
    requires AcidReaction(s, x, y, rolls, n) == (true,
      s[Index(px, py) := Emptied(s[Index(px, py)])][Index(x, y) := Created(ToxicGas)], m + 1)
    ensures AteAt(s, x, y, px, py, rolls, n)
  {
    IndexInjectiveNe(px, py, x, y);
    CorrodibleMaterials(s[Index(px, py)].material);
  }

  /** The reaction ate the neighbour at (px, py): it was in bounds and corrodible
      (hence sand, gunpowder, wood or stone) and passed the last roll drawn; it is
      now empty, and toxic gas stands at (x, y). */
  ghost predicate AteAt(s: seq<Particle>, x: int, y: int, px: int, py: int, rolls: nat -> nat, n: nat)
    requires |s| == SIZE && InBounds(x, y)
  {
    var r := AcidReaction(s, x, y, rolls, n);
    && InBounds(px, py)
    && r.2 >= 1 && Corrodes(s[Index(px, py)].material, rolls(r.2 - 1))
    && s[Index(px, py)].material in {Sand, Gunpowder, Wood, Stone}
    && r.1[Index(px, py)] == Emptied(s[Index(px, py)])
    && r.1[Index(x, y)] == Created(ToxicGas)
  }

  /** The reaction half of update_acid: corrosion_check below, right and left of
      (x, y), stopping at the first that corrodes; then toxic gas at (x, y) if one
      did. */
  method AcidReact(sim: Simulation, x: int, y: int)
    requires sim.Valid() && InBounds(x, y)
    modifies sim.cells, sim.rng
    ensures sim.Valid()
    ensures var r := AcidReaction(old(sim.cells[..]), x, y, sim.rng.rolls, old(sim.rng.draws));
      sim.cells[..] == r.1 && sim.rng.draws == r.2
  {
    ghost var s, rolls := sim.cells[..], sim.rng.rolls;
    ghost var c0 := CorrosionProbe(s, x, y + 1, rolls, sim.rng.draws);
    ghost var c1 := CorrosionProbe(s, x + 1, y, rolls, c0.1);
    ghost var c2 := CorrosionProbe(s, x - 1, y, rolls, c1.1);
    var hit := CorrosionCheck(sim, x, y + 1);
    if !hit {
      assert sim.cells[..] == s && sim.rng.draws == c0.1;
      hit := CorrosionCheck(sim, x + 1, y);
      if !hit {
        assert sim.cells[..] == s && sim.rng.draws == c1.1;
        hit := CorrosionCheck(sim, x - 1, y);
      }
    }
    if hit {
      sim.Write(x, y, Created(ToxicGas));
    }
  }

  /** update_acid: update_liquid with spread 2, then the reaction around the
      position it was called with. */
  method UpdateAcid(sim: Simulation, x: int, y: int)
    returns (ghost moved: seq<Particle>, ghost n: nat, ghost fx: int, ghost fy: int)
    requires sim.Valid() && InBounds(x, y) && sim.At(x, y).material == Acid
    modifies sim.cells, sim.rng
    ensures sim.Valid() && n == old(sim.rng.draws) + 1
    ensures |moved| == SIZE
    ensures LiquidUpdated(old(sim.cells[..]), moved, x, y, ACID_SPREAD_DISTANCE, Side(sim.rng.rolls(old(sim.rng.draws))), fx, fy)
    ensures var r := AcidReaction(moved, x, y, sim.rng.rolls, n);
      sim.cells[..] == r.1 && sim.rng.draws == r.2
  {
    fx, fy := UpdateLiquid(sim, x, y, ACID_SPREAD_DISTANCE);
    moved, n := sim.cells[..], sim.rng.draws;
    AcidReact(sim, x, y);
  }

  /** Lava's reaction: flammability_check without steam below, right and left of
      (x, y), all three in turn. The result is the grid and the roll count. */
  function LavaBurn(s: seq<Particle>, x: int, y: int, rolls: nat -> nat, n: nat): (r: (seq<Particle>, nat))
    requires |s| == SIZE && AllWellFormed(s)
    ensures |r.0| == SIZE && AllWellFormed(r.0) && n <= r.1 <= n + |LAVA_PROBES|
  {
    var a := FlammabilityProbe(s, x, y + 1, false, rolls, n);
    var b := FlammabilityProbe(a.1, x + 1, y, false, rolls, a.2);
    var c := FlammabilityProbe(b.1, x - 1, y, false, rolls, b.2);
    (c.1, c.2)
  }

  /** The position of index k is (x, y) moved by one of lava's probe offsets. */
  predicate LavaProbed(k: int, x: int, y: int) {
    (k % WIDTH - x, k / WIDTH - y) in LAVA_PROBES
  }

  /** Every cell in which t differs from s0 is a probed neighbour of (x, y) that was
      flammable in s0 and is now fire that remembers it. */
  ghost predicate OnlyIgnited(s0: seq<Particle>, t: seq<Particle>, x: int, y: int)
    requires |s0| == SIZE && |t| == SIZE && AllWellFormed(s0)
  {
    forall k :: 0 <= k < SIZE && t[k] != s0[k] ==>
      LavaProbed(k, x, y) && Flammability(s0[k].material) > 0 && t[k] == Ignited(s0[k])
  }

  /** One more lava-mode probe at a probed neighbour keeps OnlyIgnited: a cell set on
      fire earlier is fire, which nothing ignites again. */
  lemma LavaStep(s0: seq<Particle>, t: seq<Particle>, x: int, y: int, j: int, rolls: nat -> nat, m: nat)
    requires |s0| == SIZE && |t| == SIZE && AllWellFormed(s0) && AllWellFormed(t)
    requires OnlyIgnited(s0, t, x, y) && 0 <= j < |LAVA_PROBES|
    ensures OnlyIgnited(s0, FlammabilityProbe(t, x + LAVA_PROBES[j].0, y + LAVA_PROBES[j].1, false, rolls, m).1, x, y)
  {
    var px, py := x + LAVA_PROBES[j].0, y + LAVA_PROBES[j].1;
    var u := FlammabilityProbe(t, px, py, false, rolls, m).1;
    LavaProbeOnlyIgnites(t, px, py, rolls, m);
    forall k | 0 <= k < SIZE && u[k] != s0[k]
      ensures LavaProbed(k, x, y) && Flammability(s0[k].material) > 0 && u[k] == Ignited(s0[k])
    {
      if u[k] != t[k] {
        assert k % WIDTH == px && k / WIDTH == py;
      }
    }
  }

  /** Lava only sets things on fire: every cell it changes is one of its three
      probed neighbours, was flammable, and is now fire that remembers it. In
      particular it never touches its own cell or puts anything out. */
  lemma LavaOnlyIgnites(s: seq<Particle>, x: int, y: int, rolls: nat -> nat, n: nat)
    requires |s| == SIZE && AllWellFormed(s)
    ensures OnlyIgnited(s, LavaBurn(s, x, y, rolls, n).0, x, y)
  {
    assert LAVA_PROBES == [(0, 1), (1, 0), (-1, 0)];
    var a := FlammabilityProbe(s, x, y + 1, false, rolls, n);
    var b := FlammabilityProbe(a.1, x + 1, y, false, rolls, a.2);
    LavaStep(s, s, x, y, 0, rolls, n);
    LavaStep(s, a.1, x, y, 1, rolls, a.2);
    LavaStep(s, b.1, x, y, 2, rolls, b.2);
  }

  /** Lava with no flammable neighbour draws no roll and changes nothing. */
  lemma LavaAmongNonFlammables(s: seq<Particle>, x: int, y: int, rolls: nat -> nat, n: nat)
    requires |s| == SIZE && AllWellFormed(s)
    requires forall j :: 0 <= j < |LAVA_PROBES| ==>
      var px, py := x + LAVA_PROBES[j].0, y + LAVA_PROBES[j].1;
      !(InBounds(px, py) && Flammability(s[Index(px, py)].material) > 0)
    ensures LavaBurn(s, x, y, rolls, n) == (s, n)
  {
    assert LAVA_PROBES[0] == (0, 1) && LAVA_PROBES[1] == (1, 0) && LAVA_PROBES[2] == (-1, 0);
    NonFlammableProbe(s, x, y + 1, rolls, n);
    NonFlammableProbe(s, x + 1, y, rolls, n);
    NonFlammableProbe(s, x - 1, y, rolls, n);
  }

  /** A lava-mode probe at a non-flammable or absent neighbour is a no-op. */
  lemma NonFlammableProbe(s: seq<Particle>, px: int, py: int, rolls: nat -> nat, n: nat)
    requires |s| == SIZE && AllWellFormed(s)
    requires !(InBounds(px, py) && Flammability(s[Index(px, py)].material) > 0)
    ensures FlammabilityProbe(s, px, py, false, rolls, n) == (false, s, n)
  {
    if InBounds(px, py) {
      var p := s[Index(px, py)];
      FlammabilityCodes(p.material);
      assert FlammabilityOutcome(p, false, rolls(n)) == (false, p);
      assert FlammabilityRolls(p.material, false) == 0;
      assert s[Index(px, py) := p] == s;
    }
  }

  /** The reaction half of update_lava: the three flammability checks in turn. */
  method LavaReact(sim: Simulation, x: int, y: int)
    requires sim.Valid()
    modifies sim.cells, sim.rng
    ensures sim.Valid()
    ensures (sim.cells[..], sim.rng.draws) ==
      LavaBurn(old(sim.cells[..]), x, y, sim.rng.rolls, old(sim.rng.draws))
  {
    var _ := FlammabilityCheck(sim, x, y + 1, false);
    var _ := FlammabilityCheck(sim, x + 1, y, false);
    var _ := FlammabilityCheck(sim, x - 1, y, false);
  }

  /** update_lava: update_liquid with spread 1, then the reaction around the
      position it was called with. */
  method UpdateLava(sim: Simulation, x: int, y: int)
    returns (ghost moved: seq<Particle>, ghost n: nat, ghost fx: int, ghost fy: int)
    requires sim.Valid() && InBounds(x, y) && sim.At(x, y).material == Lava
    modifies sim.cells, sim.rng
    ensures sim.Valid() && n == old(sim.rng.draws) + 1
    ensures |moved| == SIZE && AllWellFormed(moved)
    ensures LiquidUpdated(old(sim.cells[..]), moved, x, y, LAVA_SPREAD_DISTANCE, Side(sim.rng.rolls(old(sim.rng.draws))), fx, fy)
    ensures (sim.cells[..], sim.rng.draws) == LavaBurn(moved, x, y, sim.rng.rolls, n)
  {
    fx, fy := UpdateLiquid(sim, x, y, LAVA_SPREAD_DISTANCE);
    moved, n := sim.cells[..], sim.rng.draws;
    LavaReact(sim, x, y);
  }

  /** update_oil: update_liquid only, with water's spread distance 4 (the source
      defines no separate oil distance). */
  method UpdateOil(sim: Simulation, x: int, y: int) returns (ghost fx: int, ghost fy: int)
    requires sim.Valid() && InBounds(x, y) && sim.At(x, y).material == Oil
    modifies sim.cells, sim.rng
    ensures sim.Valid() && sim.rng.draws == old(sim.rng.draws) + 1
    ensures LiquidUpdated(old(sim.cells[..]), sim.cells[..], x, y, WATER_SPREAD_DISTANCE, Side(sim.rng.rolls(old(sim.rng.draws))), fx, fy)
  {
    fx, fy := UpdateLiquid(sim, x, y, WATER_SPREAD_DISTANCE);
  }
}
