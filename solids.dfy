/** The moveable-solid rule shared by sand and gunpowder: slide sideways with the
    horizontal speed left from the last landing (losing FRICTION per cell over
    solid ground), fall with gravity through anything not solid, on landing turn
    the fall speed into sideways speed, sometimes slip diagonally, and pass the
    free-fall state on to touching solids. */
module Solids {
  import opened Particles
  import opened SimConfig
  import opened Grid
  import opened Velocity

  const SAND_INERTIAL_RESISTANCE: int := 2
  const SAND_SLIP_CHANCE: int := 1000
  const GUNPOWDER_INERTIAL_RESISTANCE: int := 4
  const GUNPOWDER_SLIP_CHANCE: int := 3000

  /** A moveable solid may move into (tx, ty): in bounds and not flagged solid. */
  predicate SolidMayEnter(s: seq<Particle>, tx: int, ty: int)
    requires |s| == SIZE
  {
    InBounds(tx, ty) && s[Index(tx, ty)].flag != SolidFlag
  }

  /** c lies strictly past a on the way from a to b, or is b. */
  predicate Between(a: int, c: int, b: int) {
    (a < c <= b) || (b <= c < a)
  }

  /** What holds between the grid s1 (the solid at (x, y) with its last position
      recorded) and the current grid t during the motion, the solid now at (cx, cy):
      the record is the same one, only rows y..y+4 changed, and no solid cell other
      than the mover's own start was moved. */
  ghost predicate SolidInv(s1: seq<Particle>, t: seq<Particle>, x: int, y: int, cx: int, cy: int)
    requires |s1| == SIZE && |t| == SIZE && InBounds(x, y)
  {
    && InBounds(cx, cy) && y <= cy <= y + 4
    && t[Index(cx, cy)].material == s1[Index(x, y)].material
    && t[Index(cx, cy)].payload == s1[Index(x, y)].payload
    && SameOutside(s1, t, 0, WIDTH - 1, y, y + 4)
    && KeepsFlag(s1, t, Index(x, y), SolidFlag)
    && (Index(cx, cy) == Index(x, y) || s1[Index(cx, cy)].flag != SolidFlag)
  }

  /** A swap of the solid into a cell it may enter keeps SolidInv. */
  lemma SolidStep(s1: seq<Particle>, t: seq<Particle>, x: int, y: int, cx: int, cy: int, tx: int, ty: int)
    requires |s1| == SIZE && |t| == SIZE && InBounds(x, y)
    requires SolidInv(s1, t, x, y, cx, cy) && SolidMayEnter(t, tx, ty) && y <= ty <= y + 4
    ensures SolidInv(s1, Swapped(t, Index(cx, cy), Index(tx, ty)), x, y, tx, ty)
  {
    SwapInside(s1, t, 0, WIDTH - 1, y, y + 4, cx, cy, tx, ty);
    SwapKeepsFlag(s1, t, Index(x, y), SolidFlag, Index(cx, cy), Index(tx, ty));
  }

  /** Changing the solid's velocities keeps SolidInv. */
  lemma SolidRewrite(s1: seq<Particle>, t: seq<Particle>, x: int, y: int, cx: int, cy: int, p: Particle)
    requires |s1| == SIZE && |t| == SIZE && InBounds(x, y)
    requires SolidInv(s1, t, x, y, cx, cy)
    requires p.material == t[Index(cx, cy)].material && p.payload == t[Index(cx, cy)].payload
    ensures SolidInv(s1, t[Index(cx, cy) := p], x, y, cx, cy)
  {
    WriteInside(s1, t, 0, WIDTH - 1, y, y + 4, cx, cy, p);
  }

  /** Sets both velocities of the solid at (cx, cy). */
  method SetVelocity(sim: Simulation, ghost s1: seq<Particle>, x: int, y: int, cx: int, cy: int, xv: int, yv: int)
    requires sim.Valid() && InBounds(x, y) && |s1| == SIZE && 0 <= yv <= MAX_VELOCITY
    requires SolidInv(s1, sim.cells[..], x, y, cx, cy)
    modifies sim.cells
    ensures sim.Valid() && SolidInv(s1, sim.cells[..], x, y, cx, cy)
    ensures sim.cells[..] == old(sim.cells[..])[Index(cx, cy) := old(sim.At(cx, cy)).(xVel := xv, yVel := yv)]
    ensures Types(sim.cells[..]) == Types(old(sim.cells[..]))
  {
    var p := sim.At(cx, cy).(xVel := xv, yVel := yv);
    SolidRewrite(s1, sim.cells[..], x, y, cx, cy, p);
    sim.Write(cx, cy, p);
  }

  /** Swaps the solid at (cx, cy) into (tx, ty) when it may enter it. */
  method SolidMove(sim: Simulation, ghost s1: seq<Particle>, x: int, y: int, cx: int, cy: int, tx: int, ty: int)
    returns (moved: bool)
    requires sim.Valid() && InBounds(x, y) && |s1| == SIZE
    requires SolidInv(s1, sim.cells[..], x, y, cx, cy) && y <= ty <= y + 4
    modifies sim.cells
    ensures sim.Valid()
    ensures moved == SolidMayEnter(old(sim.cells[..]), tx, ty)
    ensures moved ==> SolidInv(s1, sim.cells[..], x, y, tx, ty)
    ensures moved ==> sim.cells[..] == Swapped(old(sim.cells[..]), Index(cx, cy), Index(tx, ty))
    ensures !moved ==> sim.cells[..] == old(sim.cells[..])
    ensures multiset(Types(sim.cells[..])) == multiset(Types(old(sim.cells[..])))
  {
    moved := SolidMayEnter(sim.cells[..], tx, ty);
    if moved {
      SolidStep(s1, sim.cells[..], x, y, cx, cy, tx, ty);
      sim.Swap(cx, cy, tx, ty);
    }
  }

  /** Rounding keeps the order of speeds. */
  lemma RoundMonotone(a: int, b: int)
    requires a <= b
    ensures Round(a) <= Round(b)
  {
  }

  /** The unordered interval between a and b, as its low and high ends. */
  function Lo(a: int, b: int): int { if a <= b then a else b }
  function Hi(a: int, b: int): int { if a <= b then b else a }

  /** What the horizontal loop keeps, with the solid now at (cx, y) and moving
      toward sign: only the cells between x and cx in row y changed, and every cell
      passed over was not solid. */
  ghost predicate HorizontalInv(s1: seq<Particle>, t: seq<Particle>, x: int, y: int, cx: int, sign: int)
    requires |s1| == SIZE && |t| == SIZE && InBounds(x, y) && InBounds(cx, y)
  {
    && SameOutside(s1, t, Lo(x, cx), Hi(x, cx), y, y)
    && (forall c :: Between(x, c, cx) ==> InBounds(c, y) && s1[Index(c, y)].flag != SolidFlag)
    && (cx == x || Sign(cx - x) == sign)
  }

  /** A pass that either stays at cx or enters the non-solid cell cx + sign, and
      changes only the cells between, keeps HorizontalInv. */
  lemma HorizontalStep(s1: seq<Particle>, t: seq<Particle>, u: seq<Particle>, x: int, y: int,
                       cx: int, sign: int, nx: int)
    requires |s1| == SIZE && |t| == SIZE && |u| == SIZE && InBounds(x, y) && InBounds(cx, y)
    requires HorizontalInv(s1, t, x, y, cx, sign) && (sign == 1 || sign == -1)
    requires nx == cx || (nx == cx + sign && SolidMayEnter(t, nx, y))
    requires InBounds(nx, y) && SameOutside(t, u, Lo(cx, nx), Hi(cx, nx), y, y)
    ensures HorizontalInv(s1, u, x, y, nx, sign)
  {
  }

  /** One pass of the horizontal loop on grid t, the solid at (cx, y) moving toward
      sign: it enters (cx + sign, y) when it may, losing FRICTION when the cell
      below its new position is solid; otherwise its xVel becomes zero in place. */
  function HorizontalPassed(t: seq<Particle>, cx: int, y: int, sign: int): (r: (seq<Particle>, int))
    requires |t| == SIZE && InBounds(cx, y) && (sign == 1 || sign == -1)
    ensures |r.0| == SIZE && InBounds(r.1, y)
    ensures r.1 == cx + sign <==> SolidMayEnter(t, cx + sign, y)
    ensures r.1 == cx || r.1 == cx + sign
    ensures r.1 == cx ==> r.0[Index(cx, y)].xVel == 0
  {
    if SolidMayEnter(t, cx + sign, y) then
      var nx := cx + sign;
      var u := Swapped(t, Index(cx, y), Index(nx, y));
      if InBounds(nx, y + 1) && u[Index(nx, y + 1)].flag == SolidFlag
      then (u[Index(nx, y) := u[Index(nx, y)].(xVel := u[Index(nx, y)].xVel - FRICTION)], nx)
      else (u, nx)
    else (t[Index(cx, y) := t[Index(cx, y)].(xVel := 0)], cx)
  }

  /** The horizontal loop from pass i on, the solid at (cx, y) moving toward sign:
      while i is below |round(xVel)|, the bound re-read after every pass, one more
      pass. The result is the grid and the column the solid ends in. */
  function HorizontalFrom(t: seq<Particle>, cx: int, y: int, sign: int, i: nat): (r: (seq<Particle>, int))
    requires |t| == SIZE && InBounds(cx, y) && (sign == 1 || sign == -1)
    ensures |r.0| == SIZE && InBounds(r.1, y)
    decreases if sign > 0 then WIDTH - cx else cx + 1, if t[Index(cx, y)].xVel == 0 then 0 else 1
  {
    if i >= Abs(Round(t[Index(cx, y)].xVel)) then (t, cx)
    else
      var p := HorizontalPassed(t, cx, y, sign);
      HorizontalFrom(p.0, p.1, y, sign, i + 1)
  }

  /** The whole horizontal loop of the solid at (x, y) in grid s1: no pass at all
      when it has no horizontal speed. */
  function Horizontal(s1: seq<Particle>, x: int, y: int): (r: (seq<Particle>, int))
    requires |s1| == SIZE && InBounds(x, y)
  {
    var sign := Sign(s1[Index(x, y)].xVel);
    if sign == 0 then (s1, x) else HorizontalFrom(s1, x, y, sign, 0)
  }

  /** The horizontal loop moves the solid only toward sign. */
  lemma {:induction false} HorizontalHeading(t: seq<Particle>, cx: int, y: int, sign: int, i: nat)
    requires |t| == SIZE && InBounds(cx, y) && (sign == 1 || sign == -1)
    ensures var r := HorizontalFrom(t, cx, y, sign, i);
      r.1 == cx || Sign(r.1 - cx) == sign
    decreases if sign > 0 then WIDTH - cx else cx + 1, if t[Index(cx, y)].xVel == 0 then 0 else 1
  {
    if i < Abs(Round(t[Index(cx, y)].xVel)) {
      var p := HorizontalPassed(t, cx, y, sign);
      if p.1 == cx {
        assert HorizontalFrom(p.0, p.1, y, sign, i + 1) == (p.0, cx);
      } else {
        HorizontalHeading(p.0, p.1, y, sign, i + 1);
      }
    }
  }

  /** Over a free run the solid goes the full distance: when the next
      |round(xVel)| - i cells toward sign are in the grid, not solid, and not over
      solid ground (so no friction), the solid ends exactly that far on, its xVel
      unchanged. */
  lemma {:induction false} HorizontalFreeRun(t: seq<Particle>, cx: int, y: int, sign: int, i: nat, e: int)
    requires |t| == SIZE && InBounds(cx, y) && (sign == 1 || sign == -1)
    requires i <= Abs(Round(t[Index(cx, y)].xVel))
    requires e - cx == if sign > 0 then Abs(Round(t[Index(cx, y)].xVel)) - i else i - Abs(Round(t[Index(cx, y)].xVel))
    requires forall c :: Between(cx, c, e) ==>
      && InBounds(c, y) && t[Index(c, y)].flag != SolidFlag
      && !(InBounds(c, y + 1) && t[Index(c, y + 1)].flag == SolidFlag)
    ensures HorizontalFrom(t, cx, y, sign, i).1 == e
    ensures var r := HorizontalFrom(t, cx, y, sign, i); r.0[Index(e, y)].xVel == t[Index(cx, y)].xVel
    decreases Abs(Round(t[Index(cx, y)].xVel)) - i
  {
    if i < Abs(Round(t[Index(cx, y)].xVel)) {
      var u := FreeStep(t, cx, y, sign, e);
      HorizontalFreeRun(u, cx + sign, y, sign, i + 1, e);
    }
  }

  /** One pass of a free run: the solid swaps into (cx + sign, y) without friction,
      and the cells still ahead of it are as they were. */
  lemma FreeStep(t: seq<Particle>, cx: int, y: int, sign: int, e: int) returns (u: seq<Particle>)
    requires |t| == SIZE && InBounds(cx, y) && (sign == 1 || sign == -1) && Between(cx, cx + sign, e)
    requires forall c :: Between(cx, c, e) ==>
      && InBounds(c, y) && t[Index(c, y)].flag != SolidFlag
      && !(InBounds(c, y + 1) && t[Index(c, y + 1)].flag == SolidFlag)
    ensures |u| == SIZE && InBounds(cx + sign, y) && HorizontalPassed(t, cx, y, sign) == (u, cx + sign)
    ensures u[Index(cx + sign, y)] == t[Index(cx, y)]
    ensures forall c :: Between(cx + sign, c, e) ==>
      && InBounds(c, y) && u[Index(c, y)].flag != SolidFlag
      && !(InBounds(c, y + 1) && u[Index(c, y + 1)].flag == SolidFlag)
  {
    var nx := cx + sign;
    assert Between(cx, nx, e);
    u := Swapped(t, Index(cx, y), Index(nx, y));
    assert InBounds(nx, y + 1) ==> u[Index(nx, y + 1)] == t[Index(nx, y + 1)];
    forall c | Between(nx, c, e)
      ensures InBounds(c, y) && u[Index(c, y)] == t[Index(c, y)]
      ensures InBounds(c, y + 1) ==> u[Index(c, y + 1)] == t[Index(c, y + 1)]
    {
      assert Between(cx, c, e);
    }
  }

  /** One pass of the horizontal loop. */
  method HorizontalPass(sim: Simulation, ghost s1: seq<Particle>, x: int, y: int, cx: int, sign: int)
    returns (nx: int)
    requires sim.Valid() && InBounds(x, y) && |s1| == SIZE && (sign == 1 || sign == -1)
    requires SolidInv(s1, sim.cells[..], x, y, cx, y)
    modifies sim.cells
    ensures sim.Valid() && SolidInv(s1, sim.cells[..], x, y, nx, y)
    ensures multiset(Types(sim.cells[..])) == multiset(Types(old(sim.cells[..])))
    ensures nx == cx || (nx == cx + sign && SolidMayEnter(old(sim.cells[..]), nx, y))
    ensures SameOutside(old(sim.cells[..]), sim.cells[..], Lo(cx, nx), Hi(cx, nx), y, y)
    ensures nx == cx ==> sim.At(nx, y).xVel == 0
    ensures nx != cx ==> sim.At(nx, y).xVel in {old(sim.At(cx, y)).xVel, old(sim.At(cx, y)).xVel - FRICTION}
    ensures (sim.cells[..], nx) == HorizontalPassed(old(sim.cells[..]), cx, y, sign)
  {
    ghost var t0 := sim.cells[..];
    var moved := SolidMove(sim, s1, x, y, cx, y, cx + sign, y);
    if moved {
      nx := cx + sign;
      HorizontalEnter(sim, s1, t0, x, y, cx, sign);
    } else {
      nx := cx;
      var p := sim.At(cx, y);
      assert SameOutside(t0, t0, cx, cx, y, y);
      WriteInside(t0, t0, cx, cx, y, y, cx, y, p.(xVel := 0));
      SetVelocity(sim, s1, x, y, cx, y, 0, p.yVel);
      assert p.(xVel := 0, yVel := p.yVel) == p.(xVel := 0);
    }
  }

  /** The rest of a pass that entered (cx + sign, y): friction when the cell below
      the new position is solid. */
  method HorizontalEnter(sim: Simulation, ghost s1: seq<Particle>, ghost t0: seq<Particle>,
                         x: int, y: int, cx: int, sign: int)
    requires sim.Valid() && InBounds(x, y) && |s1| == SIZE && |t0| == SIZE && (sign == 1 || sign == -1)
    requires InBounds(cx, y) && SolidMayEnter(t0, cx + sign, y)
    requires sim.cells[..] == Swapped(t0, Index(cx, y), Index(cx + sign, y))
    requires SolidInv(s1, sim.cells[..], x, y, cx + sign, y)
    modifies sim.cells
    ensures sim.Valid() && SolidInv(s1, sim.cells[..], x, y, cx + sign, y)
    ensures Types(sim.cells[..]) == Types(old(sim.cells[..]))
    ensures SameOutside(t0, sim.cells[..], Lo(cx, cx + sign), Hi(cx, cx + sign), y, y)
    ensures sim.At(cx + sign, y).xVel in {t0[Index(cx, y)].xVel, t0[Index(cx, y)].xVel - FRICTION}
    ensures (sim.cells[..], cx + sign) == HorizontalPassed(t0, cx, y, sign)
  {
    var nx := cx + sign;
    ghost var r := HorizontalPassed(t0, cx, y, sign);
    if InBounds(nx, y + 1) && sim.At(nx, y + 1).flag == SolidFlag {
      var p := sim.At(nx, y);
      sim.Write(nx, y, p.(xVel := p.xVel - FRICTION));
      assert sim.cells[..] == r.0;
    } else {
      assert sim.cells[..] == r.0;
    }
    HorizontalEntered(s1, t0, x, y, cx, sign);
  }

  /** What a pass that enters (cx + sign, y) keeps: the solid invariant, the
      materials, every cell outside the two columns, and xVel up to friction. */
  lemma HorizontalEntered(s1: seq<Particle>, t0: seq<Particle>, x: int, y: int, cx: int, sign: int)
    requires |s1| == SIZE && |t0| == SIZE && InBounds(x, y) && (sign == 1 || sign == -1)
    requires InBounds(cx, y) && SolidMayEnter(t0, cx + sign, y)
    requires SolidInv(s1, Swapped(t0, Index(cx, y), Index(cx + sign, y)), x, y, cx + sign, y)
    ensures var r := HorizontalPassed(t0, cx, y, sign).0;
      && SolidInv(s1, r, x, y, cx + sign, y)
      && Types(r) == Types(Swapped(t0, Index(cx, y), Index(cx + sign, y)))
      && SameOutside(t0, r, Lo(cx, cx + sign), Hi(cx, cx + sign), y, y)
      && r[Index(cx + sign, y)].xVel in {t0[Index(cx, y)].xVel, t0[Index(cx, y)].xVel - FRICTION}
  {
    var nx := cx + sign;
    var u := Swapped(t0, Index(cx, y), Index(nx, y));
    assert SameOutside(t0, t0, Lo(cx, nx), Hi(cx, nx), y, y);
    SwapInside(t0, t0, Lo(cx, nx), Hi(cx, nx), y, y, cx, y, nx, y);
    if InBounds(nx, y + 1) && u[Index(nx, y + 1)].flag == SolidFlag {
      var p := u[Index(nx, y)].(xVel := u[Index(nx, y)].xVel - FRICTION);
      FrictionKeeps(s1, t0, u, x, y, cx, nx, p);
      assert HorizontalPassed(t0, cx, y, sign).0 == u[Index(nx, y) := p];
    } else {
      assert HorizontalPassed(t0, cx, y, sign).0 == u;
    }
  }

  /** Taking friction off the solid at (nx, y) keeps the solid invariant, the
      materials and the cells outside the columns cx and nx. */
  lemma FrictionKeeps(s1: seq<Particle>, t0: seq<Particle>, u: seq<Particle>,
                      x: int, y: int, cx: int, nx: int, p: Particle)
    requires |s1| == SIZE && |t0| == SIZE && |u| == SIZE && InBounds(x, y)
    requires InBounds(cx, y) && InBounds(nx, y) && SolidInv(s1, u, x, y, nx, y)
    requires SameOutside(t0, u, Lo(cx, nx), Hi(cx, nx), y, y)
    requires p == u[Index(nx, y)].(xVel := u[Index(nx, y)].xVel - FRICTION)
    ensures SolidInv(s1, u[Index(nx, y) := p], x, y, nx, y)
    ensures Types(u[Index(nx, y) := p]) == Types(u)
    ensures SameOutside(t0, u[Index(nx, y) := p], Lo(cx, nx), Hi(cx, nx), y, y)
  {
    WriteInside(t0, u, Lo(cx, nx), Hi(cx, nx), y, y, nx, y, p);
    SolidRewrite(s1, u, x, y, nx, y, p);
    RewriteKeepsTypes(u, Index(nx, y), p);
  }

  /** The horizontal part of update_moveable_solid: up to |round(xVel)| passes, the
      bound re-read after every pass, each moving the solid one cell in the
      direction xVel had at the start if that cell is not solid (then losing
      FRICTION if the cell below the new position is solid), and otherwise
      zeroing xVel. Only row y changes; every cell passed over was not solid; a
      solid moving right goes at most round(xVel) cells. */
  method HorizontalMotion(sim: Simulation, ghost s1: seq<Particle>, x: int, y: int) returns (cx: int)
    requires sim.Valid() && InBounds(x, y) && sim.cells[..] == s1
    requires IsMoveableSolid(s1[Index(x, y)].material)
    modifies sim.cells
    ensures sim.Valid() && HorizontalMoved(s1, sim.cells[..], x, y, cx)
  {
    ghost var v0 := sim.At(x, y).xVel;
    var sign := Sign(sim.At(x, y).xVel);
    cx := x;
    if sign == 0 {
      HorizontalStill(s1, x, y);
      return;
    }
    var i := 0;
    HorizontalStart(s1, x, y, sign);
    while i < Abs(Round(sim.At(cx, y).xVel))
      invariant sim.Valid() && InBounds(cx, y) && HorizontalLoopInv(s1, sim.cells[..], x, y, cx, sign, i, v0)
      decreases HorizontalRemaining(sim.cells[..], cx, y, sign)
    {
      cx := HorizontalTick(sim, s1, x, y, cx, sign, i, v0);
      i := i + 1;
    }
    HorizontalDone(s1, sim.cells[..], x, y, cx, sign, i);
  }

  /** The contract of the horizontal loop, grid s1 before it and t after it, the
      solid ending in column cx: SolidInv, the materials, only row y changed, every
      cell passed over was not solid, the solid moved only in the sign of its xVel
      and, moving right, at most round(xVel) cells, and the result is Horizontal's. */
  ghost predicate HorizontalMoved(s1: seq<Particle>, t: seq<Particle>, x: int, y: int, cx: int)
    requires |s1| == SIZE && |t| == SIZE && InBounds(x, y)
  {
    && SolidInv(s1, t, x, y, cx, y)
    && multiset(Types(t)) == multiset(Types(s1))
    && SameOutside(s1, t, 0, WIDTH - 1, y, y)
    && (forall c :: Between(x, c, cx) ==> InBounds(c, y) && s1[Index(c, y)].flag != SolidFlag)
    && (cx == x || Sign(cx - x) == Sign(s1[Index(x, y)].xVel))
    && (s1[Index(x, y)].xVel >= 0 ==> cx - x <= Round(s1[Index(x, y)].xVel))
    && (t, cx) == Horizontal(s1, x, y)
  }

  /** With no horizontal speed there is no pass. */
  lemma HorizontalStill(s1: seq<Particle>, x: int, y: int)
    requires |s1| == SIZE && InBounds(x, y) && Sign(s1[Index(x, y)].xVel) == 0
    requires IsMoveableSolid(s1[Index(x, y)].material)
    ensures HorizontalMoved(s1, s1, x, y, x)
  {
    assert Round(s1[Index(x, y)].xVel) == 0;
  }

  /** The horizontal loop's invariant holds before the first pass. */
  lemma HorizontalStart(s1: seq<Particle>, x: int, y: int, sign: int)
    requires |s1| == SIZE && InBounds(x, y) && sign == Sign(s1[Index(x, y)].xVel) && sign != 0
    ensures HorizontalLoopInv(s1, s1, x, y, x, sign, 0, s1[Index(x, y)].xVel)
  {
    assert HorizontalInv(s1, s1, x, y, x, sign);
  }

  /** When the horizontal loop stops, its invariant gives the loop's whole contract. */
  lemma HorizontalDone(s1: seq<Particle>, t: seq<Particle>, x: int, y: int, cx: int, sign: int, i: nat)
    requires |s1| == SIZE && |t| == SIZE && InBounds(x, y) && InBounds(cx, y)
    requires sign == Sign(s1[Index(x, y)].xVel) && sign != 0
    requires HorizontalLoopInv(s1, t, x, y, cx, sign, i, s1[Index(x, y)].xVel)
    requires i >= Abs(Round(t[Index(cx, y)].xVel))
    ensures HorizontalMoved(s1, t, x, y, cx)
  {
    assert HorizontalFrom(t, cx, y, sign, i) == (t, cx);
  }

  /** What the horizontal loop keeps after i passes, the solid now at (cx, y), its
      speed at the start v0: SolidInv, HorizontalInv, the materials, for rightward
      speed the bounds on the distance, and the rest of the loop still gives the
      result of the whole loop. */
  ghost predicate HorizontalLoopInv(s1: seq<Particle>, t: seq<Particle>, x: int, y: int, cx: int, sign: int,
                                    i: nat, v0: int)
    requires |s1| == SIZE && |t| == SIZE && InBounds(x, y) && InBounds(cx, y) && (sign == 1 || sign == -1)
  {
    && SolidInv(s1, t, x, y, cx, y)
    && multiset(Types(t)) == multiset(Types(s1))
    && HorizontalInv(s1, t, x, y, cx, sign)
    && (v0 >= 0 ==> 0 <= t[Index(cx, y)].xVel <= v0 && cx - x <= i <= Round(v0))
    && HorizontalFrom(t, cx, y, sign, i) == HorizontalFrom(s1, x, y, sign, 0)
  }

  /** How far the horizontal loop may still go: nothing once the speed is zero,
      otherwise the cells left toward sign. */
  function HorizontalRemaining(t: seq<Particle>, cx: int, y: int, sign: int): (n: nat)
    requires |t| == SIZE && InBounds(cx, y)
    ensures t[Index(cx, y)].xVel == 0 ==> n == 0
  {
    if t[Index(cx, y)].xVel == 0 then 0 else if sign > 0 then WIDTH - cx else cx + 1
  }

  /** One iteration of the horizontal loop: a pass that keeps HorizontalLoopInv
      for one more pass and shortens what is left to go. */
  method HorizontalTick(sim: Simulation, ghost s1: seq<Particle>, x: int, y: int, cx: int, sign: int,
                        ghost i: nat, ghost v0: int)
    returns (nx: int)
    requires sim.Valid() && InBounds(x, y) && InBounds(cx, y) && |s1| == SIZE && (sign == 1 || sign == -1)
    requires HorizontalLoopInv(s1, sim.cells[..], x, y, cx, sign, i, v0)
    requires i < Abs(Round(sim.At(cx, y).xVel))
    modifies sim.cells
    ensures sim.Valid() && InBounds(nx, y) && HorizontalLoopInv(s1, sim.cells[..], x, y, nx, sign, i + 1, v0)
    ensures HorizontalRemaining(sim.cells[..], nx, y, sign) < HorizontalRemaining(old(sim.cells[..]), cx, y, sign)
  {
    if v0 >= 0 {
      RoundMonotone(sim.At(cx, y).xVel, v0);
    }
    ghost var t := sim.cells[..];
    ghost var p := HorizontalPassed(t, cx, y, sign);
    assert HorizontalFrom(t, cx, y, sign, i) == HorizontalFrom(p.0, p.1, y, sign, i + 1);
    nx := HorizontalPass(sim, s1, x, y, cx, sign);
    HorizontalStep(s1, t, sim.cells[..], x, y, cx, sign, nx);
  }

  /** The solid fell from (cx, y) to (cx, cy) between grids g and t: every record
      it passed now sits one row higher, and nothing outside that stretch of column
      cx changed. */
  ghost predicate RaisedPassed(g: seq<Particle>, t: seq<Particle>, cx: int, y: int, cy: int)
    requires |g| == SIZE && |t| == SIZE
  {
    && SameOutside(g, t, cx, cx, y, cy)
    && (forall r :: y <= r < cy && InBounds(cx, r) && InBounds(cx, r + 1) ==> t[Index(cx, r)] == g[Index(cx, r + 1)])
  }

  /** A swap of the solid at (cx, cy) with the untouched record below it keeps
      RaisedPassed one row further down. */
  lemma RaiseStep(g: seq<Particle>, t: seq<Particle>, cx: int, y: int, cy: int)
    requires |g| == SIZE && |t| == SIZE && InBounds(cx, cy) && InBounds(cx, cy + 1) && y <= cy
    requires RaisedPassed(g, t, cx, y, cy) && BelowSame(g, t, cx, cy)
    ensures RaisedPassed(g, Swapped(t, Index(cx, cy), Index(cx, cy + 1)), cx, y, cy + 1)
  {
    var u := Swapped(t, Index(cx, cy), Index(cx, cy + 1));
    forall r | y <= r < cy + 1 && InBounds(cx, r) && InBounds(cx, r + 1)
      ensures u[Index(cx, r)] == g[Index(cx, r + 1)]
    {
      if r == cy {
        assert u[Index(cx, cy)] == t[Index(cx, cy + 1)];
      } else {
        assert Index(cx, r) != Index(cx, cy) && Index(cx, r) != Index(cx, cy + 1);
      }
    }
  }

  /** The fall loop of update_moveable_solid, its speed v already accelerated: up to
      round(v) + 1 steps straight down while the cell below is not solid; on
      landing the fall speed becomes sideways speed (SlideVelocity) and is zeroed. */
  method FallLoop(sim: Simulation, ghost s1: seq<Particle>, x: int, y: int, cx: int, dir: int, spread: int)
    returns (cy: int, fell: bool, ghost landed: bool)
    requires sim.Valid() && InBounds(x, y) && |s1| == SIZE && (dir == 1 || dir == -1) && spread > 0
    requires SolidInv(s1, sim.cells[..], x, y, cx, y)
    modifies sim.cells
    ensures sim.Valid() && SolidInv(s1, sim.cells[..], x, y, cx, cy)
    ensures multiset(Types(sim.cells[..])) == multiset(Types(old(sim.cells[..])))
    ensures fell <==> cy > y
    ensures forall r :: y < r <= cy ==> old(sim.cells[..])[Index(cx, r)].flag != SolidFlag
    ensures BelowSame(old(sim.cells[..]), sim.cells[..], cx, cy)
    ensures RaisedPassed(old(sim.cells[..]), sim.cells[..], cx, y, cy)
    ensures landed ==>
      && cy < y + Round(old(sim.At(cx, y)).yVel) + 1
      && !SolidMayEnter(old(sim.cells[..]), cx, cy + 1)
      && sim.At(cx, cy) == old(sim.At(cx, y)).(xVel := SlideVelocity(old(sim.At(cx, y)).yVel, dir, spread), yVel := 0)
    ensures !landed ==>
      && cy == y + Round(old(sim.At(cx, y)).yVel) + 1
      && sim.At(cx, cy) == old(sim.At(cx, y))
    ensures !fell ==> landed && sim.cells[..] == old(sim.cells[..])[Index(cx, y) := sim.At(cx, y)]
  {
    ghost var s2 := sim.cells[..];
    var v := sim.At(cx, y).yVel;
    FallSteps(v);
    cy, fell, landed := y, false, false;
    var i := 0;
    while i < Round(sim.At(cx, cy).yVel) + 1
      invariant sim.Valid() && SolidInv(s1, sim.cells[..], x, y, cx, cy)
      invariant multiset(Types(sim.cells[..])) == multiset(Types(s2))
      invariant 0 <= i <= Round(v) + 1 && cy == y + i && !landed
      invariant BelowSame(s2, sim.cells[..], cx, cy)
      invariant RaisedPassed(s2, sim.cells[..], cx, y, cy)
      invariant sim.At(cx, cy) == s2[Index(cx, y)]
      invariant forall r :: y < r <= cy ==> s2[Index(cx, r)].flag != SolidFlag
      invariant fell <==> i > 0
      invariant !fell ==> sim.cells[..] == s2
      decreases 4 - i
    {
      if SolidMayEnter(sim.cells[..], cx, cy + 1) {
        SolidDrop(sim, s1, s2, x, y, cx, cy);
        cy, fell, i := cy + 1, true, i + 1;
      } else {
        SetVelocity(sim, s1, x, y, cx, cy, SlideVelocity(v, dir, spread), 0);
        landed := true;
        break;
      }
    }
  }

  /** One step of the fall loop: the solid at (cx, cy) moves into the cell below,
      which had not been touched since s2 and is not solid. */
  method SolidDrop(sim: Simulation, ghost s1: seq<Particle>, ghost s2: seq<Particle>, x: int, y: int, cx: int, cy: int)
    requires sim.Valid() && InBounds(x, y) && |s1| == SIZE && |s2| == SIZE
    requires SolidInv(s1, sim.cells[..], x, y, cx, cy) && cy < y + 4
    requires SolidMayEnter(sim.cells[..], cx, cy + 1) && BelowSame(s2, sim.cells[..], cx, cy)
    requires y <= cy && RaisedPassed(s2, sim.cells[..], cx, y, cy)
    modifies sim.cells
    ensures sim.Valid() && SolidInv(s1, sim.cells[..], x, y, cx, cy + 1)
    ensures multiset(Types(sim.cells[..])) == multiset(Types(old(sim.cells[..])))
    ensures BelowSame(s2, sim.cells[..], cx, cy + 1)
    ensures RaisedPassed(s2, sim.cells[..], cx, y, cy + 1)
    ensures sim.At(cx, cy + 1) == old(sim.At(cx, cy))
    ensures s2[Index(cx, cy + 1)].flag != SolidFlag
  {
    BelowStep(s2, sim.cells[..], cx, cy, sim.At(cx, cy));
    RaiseStep(s2, sim.cells[..], cx, y, cy);
    var _ := SolidMove(sim, s1, x, y, cx, cy, cx, cy + 1);
  }

  /** The vertical part of update_moveable_solid, from grid g1 (the solid at
      (cx, y) after its horizontal motion) to g2 (the solid at (cx, cy)), its fall
      speed first accelerated (capped) to a: it falls at most round(a) + 1 rows, and
      only through cells that were not solid, each record it passed moving up one
      row and nothing else changing (RaisedPassed); when it stopped short of that
      the cell below was solid or outside the grid, and its fall speed became
      sideways speed (SlideVelocity(a, dir, spread)) with yVel zeroed; otherwise it
      keeps its xVel and carries a; when it did not fall only its own record
      changed. */
  ghost predicate SolidFell(s1: seq<Particle>, g1: seq<Particle>, g2: seq<Particle>, x: int, y: int,
                            cx: int, cy: int, dir: int, spread: int)
    requires |s1| == SIZE && |g1| == SIZE && |g2| == SIZE && InBounds(x, y) && InBounds(cx, y)
    requires (dir == 1 || dir == -1) && spread > 0 && WellFormed(g1[Index(cx, y)])
  {
    var p := g1[Index(cx, y)];
    var a := Accelerated(p.yVel);
    && SolidInv(s1, g2, x, y, cx, cy)
    && multiset(Types(g2)) == multiset(Types(g1))
    && y <= cy <= y + Round(a) + 1
    && (forall r :: y < r <= cy ==> g1[Index(cx, r)].flag != SolidFlag)
    && RaisedPassed(g1, g2, cx, y, cy)
    && (cy < y + Round(a) + 1 ==>
         && !SolidMayEnter(g1, cx, cy + 1)
         && g2[Index(cx, cy)] == p.(xVel := SlideVelocity(a, dir, spread), yVel := 0))
    && (cy == y + Round(a) + 1 ==> g2[Index(cx, cy)] == p.(yVel := a))
    && (cy == y ==> g2 == g1[Index(cx, y) := g2[Index(cx, y)]])
  }

  /** The vertical part of update_moveable_solid: accelerate (capped), then fall,
      as SolidFell says. */
  method SolidFall(sim: Simulation, ghost s1: seq<Particle>, x: int, y: int, cx: int, dir: int, spread: int)
    returns (cy: int, fell: bool)
    requires sim.Valid() && InBounds(x, y) && |s1| == SIZE && (dir == 1 || dir == -1) && spread > 0
    requires SolidInv(s1, sim.cells[..], x, y, cx, y)
    modifies sim.cells
    ensures sim.Valid() && fell == (cy > y)
    ensures SolidFell(s1, old(sim.cells[..]), sim.cells[..], x, y, cx, cy, dir, spread)
  {
    ghost var g1 := sim.cells[..];
    var p := sim.At(cx, y);
    SetVelocity(sim, s1, x, y, cx, y, p.xVel, Accelerated(p.yVel));
    ghost var ga := sim.cells[..];
    assert forall r :: y < r < HEIGHT ==> ga[Index(cx, r)] == g1[Index(cx, r)];
    FallSteps(Accelerated(p.yVel));
    ghost var landed;
    cy, fell, landed := FallLoop(sim, s1, x, y, cx, dir, spread);
    assert p.(xVel := p.xVel, yVel := Accelerated(p.yVel)) == p.(yVel := Accelerated(p.yVel));
  }

  /** The diagonal slip of update_moveable_solid, from grid g2 (the solid at
      (cx, y), not having fallen) to t, the solid ending at (fx, fy): it is tried
      when the solid was in free fall or else the slip roll passed
      (roll % slipChance == 1); a tried slip swaps the solid to (cx + dir, y + 1) if
      that is not solid, else to (cx - dir, y + 1) if that is not solid; otherwise
      nothing changes. */
  ghost predicate SolidSlipped(g2: seq<Particle>, t: seq<Particle>, y: int, cx: int, dir: int, slipChance: int,
                               free: bool, roll: nat, fx: int, fy: int)
    requires |g2| == SIZE && |t| == SIZE && InBounds(cx, y) && slipChance > 0
  {
    var tried := free || roll % slipChance == 1;
    var first := tried && SolidMayEnter(g2, cx + dir, y + 1);
    var second := tried && !first && SolidMayEnter(g2, cx - dir, y + 1);
    && (first ==> (fx, fy) == (cx + dir, y + 1))
    && (second ==> (fx, fy) == (cx - dir, y + 1))
    && (first || second ==> InBounds(fx, fy) && t == Swapped(g2, Index(cx, y), Index(fx, fy)))
    && (!first && !second ==> (fx, fy) == (cx, y) && t == g2)
  }

  /** The diagonal slip of update_moveable_solid, for a solid at (cx, y) that did
      not fall: it is tried when the solid was in free fall, or else on a passing
      roll of 1 in slipChance (the roll is drawn only then); a tried slip goes to
      (cx + dir, y + 1) if that is not solid, else to (cx - dir, y + 1) if that is
      not solid, else nowhere. */
  method SolidSlip(sim: Simulation, ghost s1: seq<Particle>, x: int, y: int, cx: int, dir: int, slipChance: int)
    returns (fx: int, fy: int)
    requires sim.Valid() && InBounds(x, y) && |s1| == SIZE && (dir == 1 || dir == -1) && slipChance > 0
    requires SolidInv(s1, sim.cells[..], x, y, cx, y) && s1[Index(x, y)].payload.Motion?
    modifies sim.cells, sim.rng
    ensures sim.Valid() && SolidInv(s1, sim.cells[..], x, y, fx, fy)
    ensures multiset(Types(sim.cells[..])) == multiset(Types(old(sim.cells[..])))
    ensures sim.rng.draws == old(sim.rng.draws) + (if s1[Index(x, y)].payload.freeFall then 0 else 1)
    ensures SolidSlipped(old(sim.cells[..]), sim.cells[..], y, cx, dir, slipChance,
                         s1[Index(x, y)].payload.freeFall, Roll(sim.rng.rolls, old(sim.rng.draws)), fx, fy)
  {
    var tried := sim.At(cx, y).payload.freeFall;
    if !tried {
      var roll := sim.rng.Next();
      tried := roll % slipChance == 1;
    }
    fx, fy := cx, y;
    if tried {
      fx, fy := DiagonalSlip(sim, s1, x, y, cx, dir);
    }
  }

  /** A tried slip: to (cx + dir, y + 1) if that is not solid, else to
      (cx - dir, y + 1) if that is not solid, else nowhere. */
  method DiagonalSlip(sim: Simulation, ghost s1: seq<Particle>, x: int, y: int, cx: int, dir: int)
    returns (fx: int, fy: int)
    requires sim.Valid() && InBounds(x, y) && |s1| == SIZE
    requires SolidInv(s1, sim.cells[..], x, y, cx, y)
    modifies sim.cells
    ensures sim.Valid() && SolidInv(s1, sim.cells[..], x, y, fx, fy)
    ensures multiset(Types(sim.cells[..])) == multiset(Types(old(sim.cells[..])))
    ensures var first := SolidMayEnter(old(sim.cells[..]), cx + dir, y + 1);
      var second := !first && SolidMayEnter(old(sim.cells[..]), cx - dir, y + 1);
      && (first ==> (fx, fy) == (cx + dir, y + 1))
      && (second ==> (fx, fy) == (cx - dir, y + 1))
      && (first || second ==> sim.cells[..] == Swapped(old(sim.cells[..]), Index(cx, y), Index(fx, fy)))
      && (!first && !second ==> (fx, fy) == (cx, y) && sim.cells[..] == old(sim.cells[..]))
  {
    fx, fy := cx, y;
    var moved := SolidMove(sim, s1, x, y, cx, y, cx + dir, y + 1);
    if moved {
      fx, fy := cx + dir, y + 1;
    } else {
      moved := SolidMove(sim, s1, x, y, cx, y, cx - dir, y + 1);
      if moved {
        fx, fy := cx - dir, y + 1;
      }
    }
  }

  /** A moveable solid at rest, which propagation may set into free fall. The source
      tests every solid-flagged neighbour; only moveable solids have the field. */
  predicate AtRest(p: Particle) {
    p.flag == SolidFlag && p.payload.Motion? && !p.payload.freeFall
  }

  /** The neighbours free fall is passed to, in the order the source tests them. */
  const PROPAGATION_PROBES: seq<(int, int)> := [(0, 1), (1, 0), (-1, 0)]

  /** The position of index k is (fx, fy) moved by one of the propagation offsets. */
  predicate Touches(k: int, fx: int, fy: int) {
    (k % WIDTH - fx, k / WIDTH - fy) in PROPAGATION_PROBES
  }

  /** The grid with the neighbour at (px, py), if it is a solid at rest, given the
      free-fall value change. */
  function Nudged(s: seq<Particle>, px: int, py: int, change: bool): (r: seq<Particle>)
    requires |s| == SIZE
    ensures |r| == SIZE
    ensures !(InBounds(px, py) && AtRest(s[Index(px, py)])) ==> r == s
  {
    if InBounds(px, py) && AtRest(s[Index(px, py)]) then
      s[Index(px, py) := s[Index(px, py)].(payload := s[Index(px, py)].payload.(freeFall := change))]
    else s
  }

  /** The propagation of free fall from a solid at (fx, fy): below, right, left. */
  function Propagated(s: seq<Particle>, fx: int, fy: int, change: bool): (r: seq<Particle>)
    requires |s| == SIZE
    ensures |r| == SIZE
  {
    Nudged(Nudged(Nudged(s, fx, fy + 1, change), fx + 1, fy, change), fx - 1, fy, change)
  }

  /** A nudge keeps every record well formed and every material in place. */
  lemma NudgeKeeps(s: seq<Particle>, px: int, py: int, change: bool)
    requires |s| == SIZE
    ensures Types(Nudged(s, px, py, change)) == Types(s)
    ensures AllWellFormed(s) ==> AllWellFormed(Nudged(s, px, py, change))
  {
    if InBounds(px, py) && AtRest(s[Index(px, py)]) {
      RewriteKeepsTypes(s, Index(px, py), Nudged(s, px, py, change)[Index(px, py)]);
    }
  }

  /** Every record in which t differs from s belongs to a resting solid touching
      (fx, fy) and differs only in now having free-fall value change. */
  ghost predicate OnlyWoken(s: seq<Particle>, t: seq<Particle>, fx: int, fy: int, change: bool)
    requires |s| == SIZE && |t| == SIZE
  {
    forall k :: 0 <= k < SIZE && t[k] != s[k] ==>
      Touches(k, fx, fy) && AtRest(s[k]) && t[k] == s[k].(payload := s[k].payload.(freeFall := change))
  }

  /** The record at k is a moveable solid's whose free-fall value is change. */
  ghost predicate HasValue(t: seq<Particle>, k: int, change: bool)
    requires |t| == SIZE && 0 <= k < SIZE
  {
    t[k].payload.Motion? && t[k].payload.freeFall == change
  }

  /** One nudge of a neighbour (px, py) below, right or left of (fx, fy) keeps
      OnlyWoken. */
  lemma WakeStep(s: seq<Particle>, t: seq<Particle>, fx: int, fy: int, px: int, py: int, change: bool)
    requires |s| == SIZE && |t| == SIZE && (px - fx, py - fy) in PROPAGATION_PROBES
    requires OnlyWoken(s, t, fx, fy, change)
    ensures OnlyWoken(s, Nudged(t, px, py, change), fx, fy, change)
  {
    if InBounds(px, py) {
      assert Index(px, py) % WIDTH == px && Index(px, py) / WIDTH == py;
    }
  }

  /** Free-fall propagation only sets the free-fall value of the resting solids that
      touch (fx, fy) below, right or left, to the value change; it leaves (fx, fy)
      itself and every material alone. */
  lemma PropagationOnlyWakes(s: seq<Particle>, fx: int, fy: int, change: bool)
    requires |s| == SIZE && InBounds(fx, fy)
    ensures OnlyWoken(s, Propagated(s, fx, fy, change), fx, fy, change)
    ensures Propagated(s, fx, fy, change)[Index(fx, fy)] == s[Index(fx, fy)]
  {
    var a := Nudged(s, fx, fy + 1, change);
    var b := Nudged(a, fx + 1, fy, change);
    assert PROPAGATION_PROBES == [(0, 1), (1, 0), (-1, 0)];
    WakeStep(s, s, fx, fy, fx, fy + 1, change);
    WakeStep(s, a, fx, fy, fx + 1, fy, change);
    WakeStep(s, b, fx, fy, fx - 1, fy, change);
    assert !Touches(Index(fx, fy), fx, fy);
  }

  /** Free-fall propagation reaches every resting solid touching (fx, fy) below,
      right or left: each ends up with the value change. */
  lemma PropagationWakesAllTouching(s: seq<Particle>, fx: int, fy: int, change: bool)
    requires |s| == SIZE && InBounds(fx, fy)
    ensures forall k :: 0 <= k < SIZE && Touches(k, fx, fy) && AtRest(s[k]) ==>
      HasValue(Propagated(s, fx, fy, change), k, change)
  {
    forall k | 0 <= k < SIZE && Touches(k, fx, fy) && AtRest(s[k])
      ensures HasValue(Propagated(s, fx, fy, change), k, change)
    {
      TouchingWoken(s, fx, fy, change, k);
    }
  }

  /** A resting solid touching (fx, fy) ends up with the value change: its own
      nudge gives it that value, and no nudge takes a value change away. */
  lemma TouchingWoken(s: seq<Particle>, fx: int, fy: int, change: bool, k: int)
    requires |s| == SIZE && InBounds(fx, fy) && 0 <= k < SIZE && Touches(k, fx, fy) && AtRest(s[k])
    ensures HasValue(Propagated(s, fx, fy, change), k, change)
  {
    assert PROPAGATION_PROBES == [(0, 1), (1, 0), (-1, 0)];
    IndexOnto(k);
    var a := Nudged(s, fx, fy + 1, change);
    var b := Nudged(a, fx + 1, fy, change);
    NudgeAt(s, fx, fy + 1, change, k);
    NudgeAt(a, fx + 1, fy, change, k);
    NudgeAt(b, fx - 1, fy, change, k);
  }

  /** The record at k after one nudge. */
  lemma NudgeAt(t: seq<Particle>, px: int, py: int, change: bool, k: int)
    requires |t| == SIZE && 0 <= k < SIZE
    ensures Nudged(t, px, py, change)[k] ==
      if InBounds(px, py) && k == Index(px, py) && AtRest(t[k])
      then t[k].(payload := t[k].payload.(freeFall := change)) else t[k]
  {
  }

  /** Propagation keeps every record well formed and every material in place. */
  lemma PropagationKeepsTypes(s: seq<Particle>, fx: int, fy: int, change: bool)
    requires |s| == SIZE
    ensures Types(Propagated(s, fx, fy, change)) == Types(s)
    ensures AllWellFormed(s) ==> AllWellFormed(Propagated(s, fx, fy, change))
  {
    var a := Nudged(s, fx, fy + 1, change);
    var b := Nudged(a, fx + 1, fy, change);
    NudgeKeeps(s, fx, fy + 1, change);
    NudgeKeeps(a, fx + 1, fy, change);
    NudgeKeeps(b, fx - 1, fy, change);
  }

  /** One neighbour's test of the propagation: a solid at rest there gets change. */
  method Nudge(sim: Simulation, px: int, py: int, change: bool)
    requires sim.Valid()
    modifies sim.cells
    ensures sim.Valid() && sim.cells[..] == Nudged(old(sim.cells[..]), px, py, change)
  {
    if InBounds(px, py) && AtRest(sim.At(px, py)) {
      var p := sim.At(px, py);
      sim.Write(px, py, p.(payload := p.payload.(freeFall := change)));
    }
  }

  /** The propagation of free fall from the solid at (fx, fy), one roll shared by
      all three neighbours. */
  method Propagate(sim: Simulation, fx: int, fy: int, change: bool)
    requires sim.Valid()
    modifies sim.cells
    ensures sim.Valid() && sim.cells[..] == Propagated(old(sim.cells[..]), fx, fy, change)
  {
    Nudge(sim, fx, fy + 1, change);
    Nudge(sim, fx + 1, fy, change);
    Nudge(sim, fx - 1, fy, change);
  }

  /** The record the solid at the start of the call becomes when update_moveable_solid
      stores its position as the last one. */
  function WithLast(p: Particle, x: int, y: int): (q: Particle)
    requires p.payload.Motion?
    ensures q.payload == Motion(x, y, p.payload.freeFall)
    ensures q.(payload := p.payload) == p
  {
    p.(payload := p.payload.(lastX := x, lastY := y))
  }

  /** The grids the motion of update_moveable_solid passes through: after the
      horizontal phase (the solid at (cx, y)), after the fall (at (cx, cy)) and
      after the slip. */
  datatype SolidPath = SolidPath(slid: seq<Particle>, cx: int, fallen: seq<Particle>, cy: int,
                                 slipped: seq<Particle>)

  /** The three motion phases of update_moveable_solid from grid s1 (the solid at
      (x, y) with its last position recorded), rolled side dir, the rolls drawn
      from d up to d': the horizontal phase is HorizontalMoved, the fall SolidFell;
      a solid that fell ends where it fell and draws nothing more, one that did not
      fall slips as SolidSlipped says, drawing the slip roll rolls(d) unless it was
      in free fall. */
  ghost predicate SolidMoved(s1: seq<Particle>, x: int, y: int, dir: int, spread: int, slipChance: int,
                             rolls: nat -> nat, d: nat, d': nat, fx: int, fy: int, path: SolidPath)
    requires |s1| == SIZE && InBounds(x, y) && s1[Index(x, y)].payload.Motion?
    requires (dir == 1 || dir == -1) && spread > 0 && slipChance > 0
  {
    var free := s1[Index(x, y)].payload.freeFall;
    && |path.slid| == SIZE && |path.fallen| == SIZE && |path.slipped| == SIZE
    && InBounds(path.cx, y) && WellFormed(path.slid[Index(path.cx, y)])
    && HorizontalMoved(s1, path.slid, x, y, path.cx)
    && SolidFell(s1, path.slid, path.fallen, x, y, path.cx, path.cy, dir, spread)
    && (path.cy > y ==> (fx, fy) == (path.cx, path.cy) && path.slipped == path.fallen && d' == d)
    && (path.cy == y ==>
         && d' == d + (if free then 0 else 1)
         && SolidSlipped(path.fallen, path.slipped, y, path.cx, dir, slipChance, free, Roll(rolls, d), fx, fy))
  }

  /** The three motion phases of update_moveable_solid after the last position is
      recorded, as SolidMoved says; the solid ends at (fx, fy) in grid path.slipped,
      having displaced no solid. */
  method SolidMotion(sim: Simulation, ghost s1: seq<Particle>, x: int, y: int, dir: int, spread: int, slipChance: int)
    returns (fx: int, fy: int, ghost path: SolidPath)
    requires sim.Valid() && InBounds(x, y) && sim.cells[..] == s1
    requires IsMoveableSolid(s1[Index(x, y)].material) && s1[Index(x, y)].payload.Motion?
    requires (dir == 1 || dir == -1) && spread > 0 && slipChance > 0
    modifies sim.cells, sim.rng
    ensures sim.Valid() && SolidInv(s1, sim.cells[..], x, y, fx, fy)
    ensures multiset(Types(sim.cells[..])) == multiset(Types(s1))
    ensures sim.cells[..] == path.slipped
    ensures SolidMoved(s1, x, y, dir, spread, slipChance, sim.rng.rolls, old(sim.rng.draws), sim.rng.draws,
                       fx, fy, path)
  {
    var cx := HorizontalMotion(sim, s1, x, y);
    ghost var g1 := sim.cells[..];
    var cy, fell := SolidFall(sim, s1, x, y, cx, dir, spread);
    ghost var g2 := sim.cells[..];
    fx, fy := cx, cy;
    if !fell {
      fx, fy := SolidSlip(sim, s1, x, y, cx, dir, slipChance);
    }
    path := SolidPath(g1, cx, g2, cy, sim.cells[..]);
  }

  /** The free-fall update of update_moveable_solid: the solid, now at (fx, fy),
      is in free fall exactly when that differs from its recorded last position
      (x, y). The grid then still differs from the one at the start of the call
      (s0) only in rows y..y+4, without a solid displaced. */
  method SetFreeFall(sim: Simulation, ghost s0: seq<Particle>, ghost s1: seq<Particle>, x: int, y: int, fx: int, fy: int)
    returns (free: bool)
    requires sim.Valid() && InBounds(x, y) && |s0| == SIZE && |s1| == SIZE
    requires SolidInv(s1, sim.cells[..], x, y, fx, fy) && s1[Index(x, y)].payload.Motion?
    requires s1[Index(x, y)].payload.lastX == x && s1[Index(x, y)].payload.lastY == y
    requires s1 == s0[Index(x, y) := s1[Index(x, y)]]
    modifies sim.cells
    ensures sim.Valid() && free == ((fx, fy) != (x, y))
    ensures sim.cells[..] == old(sim.cells[..])[Index(fx, fy) := old(sim.At(fx, fy)).(payload := Motion(x, y, free))]
    ensures Types(sim.cells[..]) == Types(old(sim.cells[..]))
    ensures sim.At(fx, fy).material == s1[Index(x, y)].material
    ensures sim.At(fx, fy).payload == Motion(x, y, free)
    ensures KeepsFlag(s0, sim.cells[..], Index(x, y), SolidFlag)
    ensures SameOutside(s0, sim.cells[..], 0, WIDTH - 1, y, y + 4)
    ensures free ==> s0[Index(fx, fy)].flag != SolidFlag
  {
    var q := sim.At(fx, fy);
    free := !(q.payload.lastX == fx && q.payload.lastY == fy);
    ghost var t := sim.cells[..];
    var q' := q.(payload := q.payload.(freeFall := free));
    WriteInside(s1, t, 0, WIDTH - 1, y, y + 4, fx, fy, q');
    sim.Write(fx, fy, q');
  }

  /** The end of update_moveable_solid for a solid that moved from (x, y) to
      (fx, fy): set its free-fall value, and if it is in free fall, draw one roll and
      propagate its result to the resting solids touching it. */
  method Settle(sim: Simulation, ghost s0: seq<Particle>, ghost s1: seq<Particle>, x: int, y: int,
                fx: int, fy: int, inrResist: int)
    returns (ghost moved: seq<Particle>, ghost change: bool)
    requires sim.Valid() && InBounds(x, y) && |s0| == SIZE && |s1| == SIZE && inrResist > 0
    requires SolidInv(s1, sim.cells[..], x, y, fx, fy) && s1[Index(x, y)].payload.Motion?
    requires s1[Index(x, y)].payload.lastX == x && s1[Index(x, y)].payload.lastY == y
    requires s1 == s0[Index(x, y) := s1[Index(x, y)]]
    modifies sim.cells, sim.rng
    ensures sim.Valid() && |moved| == SIZE && AllWellFormed(moved)
    ensures multiset(Types(sim.cells[..])) == multiset(Types(old(sim.cells[..])))
    ensures moved[Index(fx, fy)].material == s1[Index(x, y)].material
    ensures moved[Index(fx, fy)].payload == Motion(x, y, (fx, fy) != (x, y))
    ensures (fx, fy) != (x, y) ==> s0[Index(fx, fy)].flag != SolidFlag
    ensures KeepsFlag(s0, moved, Index(x, y), SolidFlag)
    ensures SameOutside(s0, moved, 0, WIDTH - 1, y, y + 4)
    ensures moved == old(sim.cells[..])[Index(fx, fy) := old(sim.At(fx, fy)).(payload := Motion(x, y, (fx, fy) != (x, y)))]
    ensures sim.rng.draws == old(sim.rng.draws) + (if (fx, fy) != (x, y) then 1 else 0)
    ensures (fx, fy) == (x, y) ==> sim.cells[..] == moved
    ensures (fx, fy) != (x, y) ==>
      && change == (Roll(sim.rng.rolls, sim.rng.draws - 1) % inrResist == 1)
      && sim.cells[..] == Propagated(moved, fx, fy, change)
  {
    var free := SetFreeFall(sim, s0, s1, x, y, fx, fy);
    moved, change := sim.cells[..], false;
    if free {
      var r := sim.rng.Next();
      change := r % inrResist == 1;
      PropagationKeepsTypes(moved, fx, fy, r % inrResist == 1);
      Propagate(sim, fx, fy, r % inrResist == 1);
    }
  }

  /** What update_moveable_solid makes of grid s0, the moveable solid at (x, y):
      t is the grid afterwards, and the rolls drawn are those from d0 up to d1. The
      first roll picks the side dir (even: +1); the rest is SolidSettled for that
      side, drawing from d0 + 1 on. */
  ghost predicate SolidUpdated(s0: seq<Particle>, t: seq<Particle>, moved: seq<Particle>, x: int, y: int,
                               spread: int, inrResist: int, slipChance: int, rolls: nat -> nat, d0: nat, d1: nat,
                               fx: int, fy: int, path: SolidPath)
    requires |s0| == SIZE && |t| == SIZE && InBounds(x, y) && s0[Index(x, y)].payload.Motion?
    requires spread > 0 && inrResist > 0 && slipChance > 0
  {
    && d0 + 1 <= d1
    && SolidSettled(s0, t, moved, x, y, Side(Roll(rolls, d0)), spread, inrResist, slipChance, rolls, d0 + 1, d1,
                    fx, fy, path)
  }

  /** What update_moveable_solid makes of grid s0 once the side dir is rolled, the
      rolls drawn being those from d up to d1: the motion from s0 with the last
      position (x, y) recorded is SolidMoved, through the grids of path, and ends at
      (fx, fy); the grid `moved` is the motion's last grid with the solid's free-fall
      value set true exactly when it moved. The solid ends at most four rows lower
      and keeps its material; `moved` differs from s0 only in rows y..y+4, by swaps
      that never displaced a solid, and the solid's destination was not solid. If it
      moved, the last roll r decides the free-fall value (r % inrResist == 1) passed
      to the resting solids touching it. */
  ghost predicate SolidSettled(s0: seq<Particle>, t: seq<Particle>, moved: seq<Particle>, x: int, y: int,
                               dir: int, spread: int, inrResist: int, slipChance: int, rolls: nat -> nat,
                               d: nat, d1: nat, fx: int, fy: int, path: SolidPath)
    requires |s0| == SIZE && |t| == SIZE && InBounds(x, y) && s0[Index(x, y)].payload.Motion?
    requires (dir == 1 || dir == -1) && spread > 0 && inrResist > 0 && slipChance > 0
  {
    var s1 := s0[Index(x, y) := WithLast(s0[Index(x, y)], x, y)];
    var settled := (fx, fy) != (x, y);
    && |moved| == SIZE && AllWellFormed(moved)
    && d <= d1 - (if settled then 1 else 0)
    && SolidMoved(s1, x, y, dir, spread, slipChance, rolls, d, d1 - (if settled then 1 else 0), fx, fy, path)
    && InBounds(fx, fy) && y <= fy <= y + 4
    && moved == path.slipped[Index(fx, fy) := path.slipped[Index(fx, fy)].(payload := Motion(x, y, settled))]
    && multiset(Types(t)) == multiset(Types(s0))
    && moved[Index(fx, fy)].material == s0[Index(x, y)].material
    && moved[Index(fx, fy)].payload == Motion(x, y, settled)
    && (settled ==> s0[Index(fx, fy)].flag != SolidFlag)
    && KeepsFlag(s0, moved, Index(x, y), SolidFlag)
    && SameOutside(s0, moved, 0, WIDTH - 1, y, y + 4)
    && d <= d1 <= d + 2
    && t == if settled then Propagated(moved, fx, fy, Roll(rolls, d1 - 1) % inrResist == 1) else moved
  }

  /** update_moveable_solid; see SolidUpdated. */
  method UpdateMoveableSolid(sim: Simulation, x: int, y: int, spread: int, inrResist: int, slipChance: int)
    returns (ghost fx: int, ghost fy: int, ghost moved: seq<Particle>, ghost path: SolidPath)
    requires sim.Valid() && InBounds(x, y) && IsMoveableSolid(sim.At(x, y).material)
    requires spread > 0 && inrResist > 0 && slipChance > 0
    modifies sim.cells, sim.rng
    ensures sim.Valid()
    ensures SolidUpdated(old(sim.cells[..]), sim.cells[..], moved, x, y, spread, inrResist, slipChance,
                         sim.rng.rolls, old(sim.rng.draws), sim.rng.draws, fx, fy, path)
  {
    ghost var s0, d0 := sim.cells[..], sim.rng.draws;
    var roll := sim.rng.Next();
    assert roll == Roll(sim.rng.rolls, d0);
    fx, fy, moved, path := MoveAndSettle(sim, s0, x, y, Side(roll), spread, inrResist, slipChance);
  }

  /** update_moveable_solid after the side roll: record the last position, move,
      and settle, as SolidSettled says. */
  method MoveAndSettle(sim: Simulation, ghost s0: seq<Particle>, x: int, y: int, dir: int,
                       spread: int, inrResist: int, slipChance: int)
    returns (ghost fx: int, ghost fy: int, ghost moved: seq<Particle>, ghost path: SolidPath)
    requires sim.Valid() && InBounds(x, y) && sim.cells[..] == s0 && IsMoveableSolid(s0[Index(x, y)].material)
    requires (dir == 1 || dir == -1) && spread > 0 && inrResist > 0 && slipChance > 0
    modifies sim.cells, sim.rng
    ensures sim.Valid()
    ensures SolidSettled(s0, sim.cells[..], moved, x, y, dir, spread, inrResist, slipChance,
                         sim.rng.rolls, old(sim.rng.draws), sim.rng.draws, fx, fy, path)
  {
    ghost var d, rolls := sim.rng.draws, sim.rng.rolls;
    var p := sim.At(x, y);
    sim.Write(x, y, WithLast(p, x, y));
    RewriteKeepsTypes(s0, Index(x, y), WithLast(p, x, y));
    ghost var s1 := sim.cells[..];
    assert s1 == s0[Index(x, y) := WithLast(s0[Index(x, y)], x, y)];
    var ex, ey, path' := SolidMotion(sim, s1, x, y, dir, spread, slipChance);
    fx, fy, path := ex, ey, path';
    ghost var dm := sim.rng.draws;
    ghost var change;
    moved, change := Settle(sim, s0, s1, x, y, ex, ey, inrResist);
    ghost var t, d1 := sim.cells[..], sim.rng.draws;
    SettledUpdate(s0, s1, t, moved, x, y, dir, spread, inrResist, slipChance, rolls, d, dm, d1, fx, fy, path,
                  change);
  }

  /** The facts the motion and the settling establish make up SolidSettled. */
  lemma SettledUpdate(s0: seq<Particle>, s1: seq<Particle>, t: seq<Particle>, moved: seq<Particle>, x: int, y: int,
                      dir: int, spread: int, inrResist: int, slipChance: int, rolls: nat -> nat, d: nat, dm: nat,
                      d1: nat, fx: int, fy: int, path: SolidPath, change: bool)
    requires |s0| == SIZE && |t| == SIZE && InBounds(x, y) && s0[Index(x, y)].payload.Motion?
    requires (dir == 1 || dir == -1) && spread > 0 && inrResist > 0 && slipChance > 0
    requires s1 == s0[Index(x, y) := WithLast(s0[Index(x, y)], x, y)] && |path.slipped| == SIZE
    requires SolidInv(s1, path.slipped, x, y, fx, fy) && multiset(Types(path.slipped)) == multiset(Types(s1))
    requires SolidMoved(s1, x, y, dir, spread, slipChance, rolls, d, dm, fx, fy, path)
    requires |moved| == SIZE && AllWellFormed(moved)
    requires multiset(Types(t)) == multiset(Types(path.slipped))
    requires moved[Index(fx, fy)].material == s1[Index(x, y)].material
    requires moved[Index(fx, fy)].payload == Motion(x, y, (fx, fy) != (x, y))
    requires (fx, fy) != (x, y) ==> s0[Index(fx, fy)].flag != SolidFlag
    requires KeepsFlag(s0, moved, Index(x, y), SolidFlag)
    requires SameOutside(s0, moved, 0, WIDTH - 1, y, y + 4)
    requires moved == path.slipped[Index(fx, fy) := path.slipped[Index(fx, fy)].(payload := Motion(x, y, (fx, fy) != (x, y)))]
    requires d1 == dm + (if (fx, fy) != (x, y) then 1 else 0)
    requires (fx, fy) == (x, y) ==> t == moved
    requires (fx, fy) != (x, y) ==>
      d1 >= 1 && change == (Roll(rolls, d1 - 1) % inrResist == 1) && t == Propagated(moved, fx, fy, change)
    ensures SolidSettled(s0, t, moved, x, y, dir, spread, inrResist, slipChance, rolls, d, d1, fx, fy, path)
  {
    RewriteKeepsTypes(s0, Index(x, y), WithLast(s0[Index(x, y)], x, y));
  }

  /** update_sand: spread 1.5, inertial resistance 2, slip chance 1 in 1000. */
  method UpdateSand(sim: Simulation, x: int, y: int)
    returns (ghost fx: int, ghost fy: int, ghost moved: seq<Particle>, ghost path: SolidPath)
    requires sim.Valid() && InBounds(x, y) && sim.At(x, y).material == Sand
    modifies sim.cells, sim.rng
    ensures sim.Valid()
    ensures SolidUpdated(old(sim.cells[..]), sim.cells[..], moved, x, y, SAND_SPREAD, SAND_INERTIAL_RESISTANCE,
                         SAND_SLIP_CHANCE, sim.rng.rolls, old(sim.rng.draws), sim.rng.draws, fx, fy, path)
  {
    fx, fy, moved, path := UpdateMoveableSolid(sim, x, y, SAND_SPREAD, SAND_INERTIAL_RESISTANCE, SAND_SLIP_CHANCE);
  }

  /** update_gunpowder: spread 2.0, inertial resistance 4, slip chance 1 in 3000. */
  method UpdateGunpowder(sim: Simulation, x: int, y: int)
    returns (ghost fx: int, ghost fy: int, ghost moved: seq<Particle>, ghost path: SolidPath)
    requires sim.Valid() && InBounds(x, y) && sim.At(x, y).material == Gunpowder
    modifies sim.cells, sim.rng
    ensures sim.Valid()
    ensures SolidUpdated(old(sim.cells[..]), sim.cells[..], moved, x, y, GUNPOWDER_SPREAD,
                         GUNPOWDER_INERTIAL_RESISTANCE, GUNPOWDER_SLIP_CHANCE, sim.rng.rolls, old(sim.rng.draws),
                         sim.rng.draws, fx, fy, path)
  {
    fx, fy, moved, path := UpdateMoveableSolid(sim, x, y, GUNPOWDER_SPREAD, GUNPOWDER_INERTIAL_RESISTANCE,
                                               GUNPOWDER_SLIP_CHANCE);
  }
}
