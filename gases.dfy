/** The gas rule (rise straight up and diagonally in the same frame, otherwise
    drift sideways) and the decaying gases steam and smoke, which are the only
    rules that read and set the per-frame `updated` marker. */
module Gases {
  import opened Particles
  import opened SimConfig
  import opened Grid
  import opened Reactions

  /** A gas may move into an in-bounds cell that is empty or liquid. */
  predicate GasMayEnter(s: seq<Particle>, x: int, y: int)
    requires |s| == SIZE
  {
    InBounds(x, y) && (s[Index(x, y)].flag == EmptyFlag || s[Index(x, y)].flag == LiquidFlag)
  }

  /** What holds between the grid s0 at the start of update_gas (gas at (x, y)) and
      the current grid t, with the gas record now at (cx, cy). */
  ghost predicate GasInv(s0: seq<Particle>, t: seq<Particle>, x: int, y: int, cx: int, cy: int)
    requires |s0| == SIZE && |t| == SIZE && InBounds(x, y)
  {
    && InBounds(cx, cy) && x - 1 <= cx <= x + 1 && y - 2 <= cy <= y
    && t[Index(cx, cy)] == s0[Index(x, y)]
    && SameOutside(s0, t, x - 1, x + 1, y - 2, y)
    && KeepsFlag(s0, t, Index(x, y), SolidFlag)
    && KeepsFlag(s0, t, Index(x, y), GasFlag)
    && (Index(cx, cy) == Index(x, y) ||
        (s0[Index(cx, cy)].flag != SolidFlag && s0[Index(cx, cy)].flag != GasFlag))
  }

  /** One move of the gas into an open cell of its neighbourhood keeps GasInv. */
  lemma GasStep(s0: seq<Particle>, t: seq<Particle>, x: int, y: int, cx: int, cy: int, tx: int, ty: int)
    requires |s0| == SIZE && |t| == SIZE && InBounds(x, y)
    requires GasInv(s0, t, x, y, cx, cy)
    requires GasMayEnter(t, tx, ty) && x - 1 <= tx <= x + 1 && y - 2 <= ty <= y
    ensures GasInv(s0, Swapped(t, Index(cx, cy), Index(tx, ty)), x, y, tx, ty)
  {
    SwapInside(s0, t, x - 1, x + 1, y - 2, y, cx, cy, tx, ty);
    SwapKeepsFlag(s0, t, Index(x, y), SolidFlag, Index(cx, cy), Index(tx, ty));
    SwapKeepsFlag(s0, t, Index(x, y), GasFlag, Index(cx, cy), Index(tx, ty));
  }

  /** The rising half of update_gas on grid s, the gas at (x, y): the grid and the
      gas's position afterwards. The gas moves straight up if that cell is open, and
      then, from wherever it now is, diagonally up toward dir if that cell is open,
      else diagonally up the other way if that one is. */
  function GasRisen(s: seq<Particle>, x: int, y: int, dir: int): (r: (seq<Particle>, int, int))
    requires |s| == SIZE && InBounds(x, y)
  {
    if GasMayEnter(s, x, y - 1) then GasDiagonal(Swapped(s, Index(x, y), Index(x, y - 1)), x, y - 1, dir)
    else GasDiagonal(s, x, y, dir)
  }

  /** The diagonal step of the rising half, the gas at (x, cy) in grid s1: up toward
      dir if that cell is open, else up the other way if that one is. */
  function GasDiagonal(s1: seq<Particle>, x: int, cy: int, dir: int): (r: (seq<Particle>, int, int))
    requires |s1| == SIZE && InBounds(x, cy)
  {
    if GasMayEnter(s1, x + dir, cy - 1) then (Swapped(s1, Index(x, cy), Index(x + dir, cy - 1)), x + dir, cy - 1)
    else if GasMayEnter(s1, x - dir, cy - 1) then (Swapped(s1, Index(x, cy), Index(x - dir, cy - 1)), x - dir, cy - 1)
    else (s1, x, cy)
  }

  /** The sideways half of update_gas, for a gas at (x, y) that did not rise: swap
      toward dir if that cell is open; then, testing again from column x (which the
      source does not advance), swap whatever now stands at (x, y) with the cell on
      the other side if that one is open. The result is the grid and the gas's column. */
  function GasDrifted(s: seq<Particle>, x: int, y: int, dir: int): (r: (seq<Particle>, int))
    requires |s| == SIZE && InBounds(x, y)
  {
    var first := GasMayEnter(s, x + dir, y);
    var s1 := if first then Swapped(s, Index(x, y), Index(x + dir, y)) else s;
    if GasMayEnter(s1, x - dir, y) then
      (Swapped(s1, Index(x, y), Index(x - dir, y)), if first then x + dir else x - dir)
    else (s1, if first then x + dir else x)
  }

  /** update_gas on grid s with side dir: the grid and the gas's final position. */
  function GasMotion(s: seq<Particle>, x: int, y: int, dir: int): (r: (seq<Particle>, int, int))
    requires |s| == SIZE && InBounds(x, y)
  {
    var u := GasRisen(s, x, y, dir);
    if u.2 < y then u else var d := GasDrifted(s, x, y, dir); (d.0, d.1, y)
  }

  /** update_gas keeps the gas record whole and never displaces a solid or another
      gas; it changes only the cells at most one column aside and two rows up; it
      keeps the materials; and it rises exactly when one of the three cells above
      was open. */
  lemma GasMotionKeepsNeighbourhood(s: seq<Particle>, x: int, y: int, dir: int)
    requires |s| == SIZE && InBounds(x, y) && (dir == 1 || dir == -1)
    ensures var r := GasMotion(s, x, y, dir);
      && GasInv(s, r.0, x, y, r.1, r.2)
      && multiset(Types(r.0)) == multiset(Types(s))
      && (r.2 < y <==> GasMayEnter(s, x, y - 1) || GasMayEnter(s, x + dir, y - 1) || GasMayEnter(s, x - dir, y - 1))
  {
    GasRiseKeepsNeighbourhood(s, x, y, dir);
    if GasRisen(s, x, y, dir).2 == y {
      GasDriftKeepsNeighbourhood(s, x, y, dir);
    }
  }

  /** GasMotionKeepsNeighbourhood for the rising half; a gas that does not rise
      leaves the grid as it was. */
  lemma GasRiseKeepsNeighbourhood(s: seq<Particle>, x: int, y: int, dir: int)
    requires |s| == SIZE && InBounds(x, y) && (dir == 1 || dir == -1)
    ensures var u := GasRisen(s, x, y, dir);
      && GasInv(s, u.0, x, y, u.1, u.2)
      && multiset(Types(u.0)) == multiset(Types(s))
      && (u.2 < y <==> GasMayEnter(s, x, y - 1) || GasMayEnter(s, x + dir, y - 1) || GasMayEnter(s, x - dir, y - 1))
      && (u.2 == y ==> u.0 == s && u.1 == x)
  {
    GasRiseKeepsRecords(s, x, y, dir);
    GasRiseWhen(s, x, y, dir);
  }

  /** The first half of GasRiseKeepsNeighbourhood: GasInv and the materials. */
  lemma GasRiseKeepsRecords(s: seq<Particle>, x: int, y: int, dir: int)
    requires |s| == SIZE && InBounds(x, y) && (dir == 1 || dir == -1)
    ensures var u := GasRisen(s, x, y, dir);
      GasInv(s, u.0, x, y, u.1, u.2) && multiset(Types(u.0)) == multiset(Types(s))
  {
    assert GasInv(s, s, x, y, x, y);
    if GasMayEnter(s, x, y - 1) {
      GasStep(s, s, x, y, x, y, x, y - 1);
      SwapKeepsTypes(s, Index(x, y), Index(x, y - 1));
      GasDiagonalKeepsNeighbourhood(s, Swapped(s, Index(x, y), Index(x, y - 1)), x, y, y - 1, dir);
    } else {
      GasDiagonalKeepsNeighbourhood(s, s, x, y, y, dir);
    }
  }

  /** The second half of GasRiseKeepsNeighbourhood: the gas rises exactly when one
      of the three cells above is open, and otherwise nothing changes. */
  lemma GasRiseWhen(s: seq<Particle>, x: int, y: int, dir: int)
    requires |s| == SIZE && InBounds(x, y) && (dir == 1 || dir == -1)
    ensures var u := GasRisen(s, x, y, dir);
      && (u.2 < y <==> GasMayEnter(s, x, y - 1) || GasMayEnter(s, x + dir, y - 1) || GasMayEnter(s, x - dir, y - 1))
      && (u.2 == y ==> u.0 == s && u.1 == x)
  {
  }

  /** The diagonal step of the rising half, from (x, cy) in grid s1. */
  lemma GasDiagonalKeepsNeighbourhood(s: seq<Particle>, s1: seq<Particle>, x: int, y: int, cy: int, dir: int)
    requires |s| == SIZE && |s1| == SIZE && InBounds(x, y) && (dir == 1 || dir == -1)
    requires GasInv(s, s1, x, y, x, cy) && multiset(Types(s1)) == multiset(Types(s)) && y - 1 <= cy
    requires InBounds(x, cy)
    ensures var u := GasDiagonal(s1, x, cy, dir);
      && GasInv(s, u.0, x, y, u.1, u.2)
      && multiset(Types(u.0)) == multiset(Types(s))
  {
    if GasMayEnter(s1, x + dir, cy - 1) {
      GasStep(s, s1, x, y, x, cy, x + dir, cy - 1);
      SwapKeepsTypes(s1, Index(x, cy), Index(x + dir, cy - 1));
    } else if GasMayEnter(s1, x - dir, cy - 1) {
      GasStep(s, s1, x, y, x, cy, x - dir, cy - 1);
      SwapKeepsTypes(s1, Index(x, cy), Index(x - dir, cy - 1));
    }
  }

  /** GasMotionKeepsNeighbourhood for the sideways half. */
  lemma GasDriftKeepsNeighbourhood(s: seq<Particle>, x: int, y: int, dir: int)
    requires |s| == SIZE && InBounds(x, y) && (dir == 1 || dir == -1)
    ensures var d := GasDrifted(s, x, y, dir);
      GasInv(s, d.0, x, y, d.1, y) && multiset(Types(d.0)) == multiset(Types(s))
  {
    assert GasInv(s, s, x, y, x, y);
    var first := GasMayEnter(s, x + dir, y);
    var s1 := if first then Swapped(s, Index(x, y), Index(x + dir, y)) else s;
    if first {
      GasStep(s, s, x, y, x, y, x + dir, y);
      SwapKeepsTypes(s, Index(x, y), Index(x + dir, y));
    }
    if GasMayEnter(s1, x - dir, y) {
      if first {
        SwapInside(s, s1, x - 1, x + 1, y - 2, y, x, y, x - dir, y);
        SwapKeepsFlag(s, s1, Index(x, y), SolidFlag, Index(x, y), Index(x - dir, y));
        SwapKeepsFlag(s, s1, Index(x, y), GasFlag, Index(x, y), Index(x - dir, y));
      } else {
        GasStep(s, s1, x, y, x, y, x - dir, y);
      }
      SwapKeepsTypes(s1, Index(x, y), Index(x - dir, y));
    }
  }

  /** Flutter: a gas whose cell above is open, and the cell diagonally above that
      one toward dir too, rises both ways in one call. It ends two rows up, one
      column toward dir, and each of the two records it passed moves one step down
      along its path. */
  lemma GasFlutters(s: seq<Particle>, x: int, y: int, dir: int)
    requires |s| == SIZE && InBounds(x, y) && (dir == 1 || dir == -1)
    requires GasMayEnter(s, x, y - 1) && GasMayEnter(s, x + dir, y - 2)
    ensures var r := GasMotion(s, x, y, dir);
      && r.1 == x + dir && r.2 == y - 2
      && r.0[Index(x + dir, y - 2)] == s[Index(x, y)]
      && r.0[Index(x, y - 1)] == s[Index(x + dir, y - 2)]
      && r.0[Index(x, y)] == s[Index(x, y - 1)]
  {
    var s1 := Swapped(s, Index(x, y), Index(x, y - 1));
    assert s1[Index(x + dir, y - 2)] == s[Index(x + dir, y - 2)];
  }

  /** The drift quirk: a gas that cannot rise, with both cells beside it open, first
      swaps toward dir and then, still testing from its original column, swaps the
      record it displaced on to the other side. The gas ends one column toward dir,
      the record that was there ends on the far side, and the record from the far
      side ends in the gas's old cell. */
  lemma GasDriftQuirk(s: seq<Particle>, x: int, y: int, dir: int)
    requires |s| == SIZE && InBounds(x, y) && (dir == 1 || dir == -1)
    requires !GasMayEnter(s, x, y - 1) && !GasMayEnter(s, x + dir, y - 1) && !GasMayEnter(s, x - dir, y - 1)
    requires GasMayEnter(s, x + dir, y) && GasMayEnter(s, x - dir, y)
    ensures var r := GasMotion(s, x, y, dir);
      && r.1 == x + dir && r.2 == y
      && r.0[Index(x + dir, y)] == s[Index(x, y)]
      && r.0[Index(x - dir, y)] == s[Index(x + dir, y)]
      && r.0[Index(x, y)] == s[Index(x - dir, y)]
  {
    var s1 := Swapped(s, Index(x, y), Index(x + dir, y));
    assert s1[Index(x - dir, y)] == s[Index(x - dir, y)];
  }

  /** What update_gas does to grid s0, the gas at (x, y), the roll `roll` picking the
      side: t and (fx, fy) are what GasMotion gives, which GasMotionKeepsNeighbourhood
      describes. */
  ghost predicate GasUpdated(s0: seq<Particle>, t: seq<Particle>, x: int, y: int, roll: nat, fx: int, fy: int)
    requires |s0| == SIZE && |t| == SIZE && InBounds(x, y)
  {
    && (t, fx, fy) == GasMotion(s0, x, y, Side(roll))
    && GasInv(s0, t, x, y, fx, fy)
    && multiset(Types(t)) == multiset(Types(s0))
  }

  /** One move of update_gas: if (tx, ty) is open, the gas at (cx, cy) swaps into it. */
  method GasMove(sim: Simulation, cx: int, cy: int, tx: int, ty: int) returns (moved: bool)
    requires sim.Valid() && InBounds(cx, cy)
    modifies sim.cells
    ensures sim.Valid()
    ensures moved == GasMayEnter(old(sim.cells[..]), tx, ty)
    ensures sim.cells[..] == if moved then Swapped(old(sim.cells[..]), Index(cx, cy), Index(tx, ty)) else old(sim.cells[..])
  {
    moved := GasMayEnter(sim.cells[..], tx, ty);
    if moved {
      sim.Swap(cx, cy, tx, ty);
    }
  }

  /** The rising half of update_gas, in place. */
  method GasRise(sim: Simulation, x: int, y: int, dir: int) returns (cx: int, cy: int)
    requires sim.Valid() && InBounds(x, y)
    modifies sim.cells
    ensures sim.Valid()
    ensures (sim.cells[..], cx, cy) == GasRisen(old(sim.cells[..]), x, y, dir)
  {
    cy := y;
    var up := GasMove(sim, x, y, x, y - 1);
    if up {
      cy := y - 1;
    }
    cx, cy := GasRiseDiagonal(sim, x, cy, dir);
  }

  /** The diagonal step of the rising half, in place. */
  method GasRiseDiagonal(sim: Simulation, x: int, cy: int, dir: int) returns (fx: int, fy: int)
    requires sim.Valid() && InBounds(x, cy)
    modifies sim.cells
    ensures sim.Valid()
    ensures (sim.cells[..], fx, fy) == GasDiagonal(old(sim.cells[..]), x, cy, dir)
  {
    fx, fy := x, cy;
    var diag := GasMove(sim, x, cy, x + dir, cy - 1);
    if diag {
      fx, fy := x + dir, cy - 1;
    } else {
      diag := GasMove(sim, x, cy, x - dir, cy - 1);
      if diag {
        fx, fy := x - dir, cy - 1;
      }
    }
  }

  /** The sideways half of update_gas, in place: both swaps are made from (x, y). */
  method GasDrift(sim: Simulation, x: int, y: int, dir: int) returns (fx: int)
    requires sim.Valid() && InBounds(x, y)
    modifies sim.cells
    ensures sim.Valid()
    ensures (sim.cells[..], fx) == GasDrifted(old(sim.cells[..]), x, y, dir)
  {
    var first := GasMove(sim, x, y, x + dir, y);
    fx := if first then x + dir else x;
    var second := GasMove(sim, x, y, x - dir, y);
    if second && !first {
      fx := x - dir;
    }
  }

  /** update_gas. The first roll picks the side (even: +1). The gas may rise
      straight up and then diagonally in the same call. If it rose neither way it
      tries the chosen side and then, from its original column, the other side. */
  method UpdateGas(sim: Simulation, x: int, y: int) returns (ghost fx: int, ghost fy: int)
    requires sim.Valid() && InBounds(x, y)
    modifies sim.cells, sim.rng
    ensures sim.Valid() && sim.rng.draws == old(sim.rng.draws) + 1
    ensures GasUpdated(old(sim.cells[..]), sim.cells[..], x, y, sim.rng.rolls(old(sim.rng.draws)), fx, fy)
  {
    ghost var s := sim.cells[..];
    var roll := sim.rng.Next();
    var dir := Side(roll);
    var cx, cy := GasRise(sim, x, y, dir);
    fx, fy := cx, cy;
    if cy == y {
      fx := GasDrift(sim, x, y, dir);
    }
    GasMotionKeepsNeighbourhood(s, x, y, dir);
  }

  /** update_toxic_gas: the gas rule alone. */
  method UpdateToxicGas(sim: Simulation, x: int, y: int) returns (ghost fx: int, ghost fy: int)
    requires sim.Valid() && InBounds(x, y)
    modifies sim.cells, sim.rng
    ensures sim.Valid() && sim.rng.draws == old(sim.rng.draws) + 1
    ensures GasUpdated(old(sim.cells[..]), sim.cells[..], x, y, sim.rng.rolls(old(sim.rng.draws)), fx, fy)
  {
    fx, fy := UpdateGas(sim, x, y);
  }

  /** The health of a record that carries one (gas and fire records do). */
  function Health(p: Particle): int {
    if p.payload.Transform? then p.payload.health else 0
  }

  /** The record with its health lowered by one. */
  function Decayed(p: Particle): (q: Particle)
    requires p.payload.Transform?
    ensures Health(q) == Health(p) - 1 && q.material == p.material
    ensures WellFormed(p) ==> WellFormed(q)
  {
    p.(payload := p.payload.(health := p.payload.health - 1))
  }

  /** The grid update_steam and update_smoke hand on to update_gas: the record at
      (x, y) marked updated and one health lower. */
  function Aged(s: seq<Particle>, x: int, y: int): (r: seq<Particle>)
    requires |s| == SIZE && InBounds(x, y) && s[Index(x, y)].payload.Transform?
    ensures |r| == SIZE && r[Index(x, y)].updated && Health(r[Index(x, y)]) == Health(s[Index(x, y)]) - 1
    ensures forall k :: 0 <= k < SIZE && k != Index(x, y) ==> r[k] == s[k]
  {
    s[Index(x, y) := Decayed(s[Index(x, y)]).(updated := true)]
  }

  /** The shared body of update_steam and update_smoke: a record already updated
      this frame is left alone; otherwise it is marked, and at health <= 0 turned
      into `spent` at the same cell; otherwise its health drops by one and it moves
      as a gas. */
  method UpdateDecayingGas(sim: Simulation, x: int, y: int, spent: Particle) returns (ghost fx: int, ghost fy: int)
    requires sim.Valid() && InBounds(x, y) && WellFormed(spent)
    requires HasHealth(sim.At(x, y).material)
    modifies sim.cells, sim.rng
    ensures sim.Valid()
    ensures old(sim.At(x, y)).updated ==>
      sim.cells[..] == old(sim.cells[..]) && sim.rng.draws == old(sim.rng.draws)
    ensures !old(sim.At(x, y)).updated && Health(old(sim.At(x, y))) <= 0 ==>
      sim.cells[..] == old(sim.cells[..])[Index(x, y) := spent] && sim.rng.draws == old(sim.rng.draws)
    ensures !old(sim.At(x, y)).updated && Health(old(sim.At(x, y))) > 0 ==>
      && sim.rng.draws == old(sim.rng.draws) + 1
      && multiset(Types(sim.cells[..])) == multiset(Types(old(sim.cells[..])))
      && GasUpdated(Aged(old(sim.cells[..]), x, y), sim.cells[..], x, y, sim.rng.rolls(old(sim.rng.draws)), fx, fy)
  {
    fx, fy := x, y;
    var p := sim.At(x, y);
    if p.updated {
      return;
    }
    sim.Write(x, y, p.(updated := true));
    if Health(p) <= 0 {
      sim.Write(x, y, spent);
      return;
    }
    ghost var s := old(sim.cells[..]);
    sim.Write(x, y, Decayed(p.(updated := true)));
    assert sim.cells[..] == Aged(s, x, y);
    fx, fy := UpdateGas(sim, x, y);
  }

  /** update_steam: spent steam condenses into water (velocity zeroed). */
  method UpdateSteam(sim: Simulation, x: int, y: int) returns (ghost fx: int, ghost fy: int)
    requires sim.Valid() && InBounds(x, y) && sim.At(x, y).material == Steam
    modifies sim.cells, sim.rng
    ensures sim.Valid()
    ensures old(sim.At(x, y)).updated ==>
      sim.cells[..] == old(sim.cells[..]) && sim.rng.draws == old(sim.rng.draws)
    ensures !old(sim.At(x, y)).updated && Health(old(sim.At(x, y))) <= 0 ==>
      sim.cells[..] == old(sim.cells[..])[Index(x, y) := Created(Water)] && sim.rng.draws == old(sim.rng.draws)
    ensures !old(sim.At(x, y)).updated && Health(old(sim.At(x, y))) > 0 ==>
      && sim.rng.draws == old(sim.rng.draws) + 1
      && multiset(Types(sim.cells[..])) == multiset(Types(old(sim.cells[..])))
      && GasUpdated(Aged(old(sim.cells[..]), x, y), sim.cells[..], x, y, sim.rng.rolls(old(sim.rng.draws)), fx, fy)
  {
    fx, fy := UpdateDecayingGas(sim, x, y, Created(Water));
  }

  /** update_smoke: spent smoke vanishes. set_empty keeps the just-set marker and
      the rest of the record. */
  method UpdateSmoke(sim: Simulation, x: int, y: int) returns (ghost fx: int, ghost fy: int)
    requires sim.Valid() && InBounds(x, y) && sim.At(x, y).material == Smoke
    modifies sim.cells, sim.rng
    ensures sim.Valid()
    ensures old(sim.At(x, y)).updated ==>
      sim.cells[..] == old(sim.cells[..]) && sim.rng.draws == old(sim.rng.draws)
    ensures !old(sim.At(x, y)).updated && Health(old(sim.At(x, y))) <= 0 ==>
      && sim.cells[..] == old(sim.cells[..])[Index(x, y) := Emptied(old(sim.At(x, y)).(updated := true))]
      && sim.rng.draws == old(sim.rng.draws)
    ensures !old(sim.At(x, y)).updated && Health(old(sim.At(x, y))) > 0 ==>
      && sim.rng.draws == old(sim.rng.draws) + 1
      && multiset(Types(sim.cells[..])) == multiset(Types(old(sim.cells[..])))
      && GasUpdated(Aged(old(sim.cells[..]), x, y), sim.cells[..], x, y, sim.rng.rolls(old(sim.rng.draws)), fx, fy)
  {
    var p := sim.At(x, y);
    fx, fy := UpdateDecayingGas(sim, x, y, Emptied(p.(updated := true)));
  }
}
