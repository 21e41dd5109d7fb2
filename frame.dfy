/** The frame dispatcher: one frame scans every column, in an order that flips
    from frame to frame, and every row of a column from the bottom up, calling the
    rule of the material found in each cell; then it clears every cell's
    updated marker. */
module Frame {
  import opened Particles
  import opened SimConfig
  import opened Grid
  import LiquidRules
  import Solids
  import Gases
  import Fire

  /** The positions of column x from row hi - 1 down to row lo. */
  function ColumnScan(x: int, lo: int, hi: int): (r: seq<(int, int)>)
    decreases hi - lo
  {
    if lo >= hi then [] else ColumnScan(x, lo + 1, hi) + [(x, lo)]
  }

  /** The k-th position a frame with the given parity dispatches: column k / HEIGHT
      counted from the left edge on a true parity and from the right edge on a
      false one, and within the column row HEIGHT - 1 - k % HEIGHT. */
  function ScanPosition(dir: bool, k: int): (int, int) {
    ((if dir then k / HEIGHT else WIDTH - 1 - k / HEIGHT), HEIGHT - 1 - k % HEIGHT)
  }

  /** The order in which a frame with the given parity dispatches positions. */
  function FrameOrder(dir: bool): (r: seq<(int, int)>)
    ensures |r| == SIZE
  {
    seq(SIZE, k => ScanPosition(dir, k))
  }

  /** A column is scanned from the bottom row up: its i-th position is row hi - 1 - i. */
  lemma {:induction false} ColumnScanOrder(x: int, lo: int, hi: int)
    requires lo <= hi
    ensures |ColumnScan(x, lo, hi)| == hi - lo
    ensures forall i :: 0 <= i < hi - lo ==> ColumnScan(x, lo, hi)[i] == (x, hi - 1 - i)
    decreases hi - lo
  {
    if lo < hi {
      ColumnScanOrder(x, lo + 1, hi);
    }
  }

  /** The block of HEIGHT positions a frame dispatches after c whole columns is
      the bottom-up scan of one column: the c-th from the left edge on a true
      parity, from the right edge on a false one. */
  lemma FrameBlock(dir: bool, c: int)
    requires 0 <= c < WIDTH
    ensures FrameOrder(dir)[..(c + 1) * HEIGHT] ==
      FrameOrder(dir)[..c * HEIGHT] + ColumnScan(if dir then c else WIDTH - 1 - c, 0, HEIGHT)
  {
    var col := if dir then c else WIDTH - 1 - c;
    ColumnScanOrder(col, 0, HEIGHT);
    var lhs, rhs := FrameOrder(dir)[..(c + 1) * HEIGHT], FrameOrder(dir)[..c * HEIGHT] + ColumnScan(col, 0, HEIGHT);
    forall k | 0 <= k < (c + 1) * HEIGHT
      ensures lhs[k] == rhs[k]
    {
      if k >= c * HEIGHT {
        DivModInColumn(k, c);
      }
    }
  }

  /** Division and remainder by HEIGHT inside the c-th block of HEIGHT positions. */
  lemma DivModInColumn(k: int, c: int)
    requires c * HEIGHT <= k < (c + 1) * HEIGHT
    ensures k / HEIGHT == c && k % HEIGHT == k - c * HEIGHT
  {
  }

  /** Whichever the parity, a frame dispatches only in-bounds positions, every one
      of them, and none twice. */
  lemma FrameVisitsEachCellOnce(dir: bool)
    ensures |FrameOrder(dir)| == SIZE
    ensures forall k :: 0 <= k < SIZE ==> InBounds(FrameOrder(dir)[k].0, FrameOrder(dir)[k].1)
    ensures forall i, j :: 0 <= i < j < SIZE ==> FrameOrder(dir)[i] != FrameOrder(dir)[j]
    ensures forall a, b :: InBounds(a, b) ==> (a, b) in FrameOrder(dir)
  {
    var order := FrameOrder(dir);
    forall i, j | 0 <= i < j < SIZE
      ensures order[i] != order[j]
    {
      if i / HEIGHT == j / HEIGHT {
        assert i % HEIGHT != j % HEIGHT;
      }
    }
    forall a, b | InBounds(a, b)
      ensures (a, b) in order
    {
      var c := if dir then a else WIDTH - 1 - a;
      var k := c * HEIGHT + (HEIGHT - 1 - b);
      DivModInColumn(k, c);
      assert order[k] == ScanPosition(dir, k) == (a, b);
    }
  }

  /** Frames of opposite parity mirror each other: at every step they are in
      columns symmetric about the middle of the grid, at the same row. */
  lemma ParitiesMirrorColumns()
    ensures forall k :: 0 <= k < SIZE ==>
      FrameOrder(true)[k].0 == WIDTH - 1 - FrameOrder(false)[k].0 && FrameOrder(true)[k].1 == FrameOrder(false)[k].1
  {
  }

  /** Materials the dispatcher calls no rule for. */
  predicate Inert(t: ParticleType) {
    t.Empty? || t.Wood? || t.Stone?
  }

  /** The switch of inner_sim_loop for one position: the rule of the material in
      the cell, or nothing for empty, wood and stone. */
  method Dispatch(sim: Simulation, x: int, y: int)
    requires sim.Valid() && InBounds(x, y)
    modifies sim, sim.cells, sim.rng
    ensures sim.Valid() && sim.dir == old(sim.dir)
    ensures sim.visited == old(sim.visited) + [(x, y)]
    ensures Inert(old(sim.At(x, y).material)) ==>
      sim.cells[..] == old(sim.cells[..]) && sim.rng.draws == old(sim.rng.draws)
    ensures old(sim.At(x, y).material) in {Oil, Sand, Gunpowder, ToxicGas} ==>
      multiset(Types(sim.cells[..])) == multiset(Types(old(sim.cells[..])))
  {
    match sim.At(x, y).material {
    case Oil => DispatchLiquid(sim, x, y);
    case Water => DispatchLiquid(sim, x, y);
    case Acid => DispatchLiquid(sim, x, y);
    case Lava => DispatchLiquid(sim, x, y);
    case Sand => DispatchSolid(sim, x, y);
    case Gunpowder => DispatchSolid(sim, x, y);
    case ToxicGas => DispatchGas(sim, x, y);
    case Steam => DispatchGas(sim, x, y);
    case Smoke => DispatchGas(sim, x, y);
    case Fire =>
      Fire.UpdateFire(sim, x, y);
    case _ =>
    }
    sim.visited := sim.visited + [(x, y)];
  }

  /** The liquid arms of the switch. */
  method DispatchLiquid(sim: Simulation, x: int, y: int)
    requires sim.Valid() && InBounds(x, y) && sim.At(x, y).material in {Oil, Water, Acid, Lava}
    modifies sim.cells, sim.rng
    ensures sim.Valid()
    ensures old(sim.At(x, y).material) == Oil ==>
      multiset(Types(sim.cells[..])) == multiset(Types(old(sim.cells[..])))
  {
    match sim.At(x, y).material {
    case Oil =>
      var _, _ := LiquidRules.UpdateOil(sim, x, y);
    case Water =>
      var _, _, _ := LiquidRules.UpdateWater(sim, x, y);
    case Acid =>
      var _, _, _, _ := LiquidRules.UpdateAcid(sim, x, y);
    case Lava =>
      var _, _, _, _ := LiquidRules.UpdateLava(sim, x, y);
    }
  }

  /** The moveable-solid arms of the switch. */
  method DispatchSolid(sim: Simulation, x: int, y: int)
    requires sim.Valid() && InBounds(x, y) && sim.At(x, y).material in {Sand, Gunpowder}
    modifies sim.cells, sim.rng
    ensures sim.Valid()
    ensures multiset(Types(sim.cells[..])) == multiset(Types(old(sim.cells[..])))
  {
    if sim.At(x, y).material == Sand {
      var _, _, _, _ := Solids.UpdateSand(sim, x, y);
    } else {
      var _, _, _, _ := Solids.UpdateGunpowder(sim, x, y);
    }
  }

  /** The gas arms of the switch. */
  method DispatchGas(sim: Simulation, x: int, y: int)
    requires sim.Valid() && InBounds(x, y) && sim.At(x, y).material in {ToxicGas, Steam, Smoke}
    modifies sim.cells, sim.rng
    ensures sim.Valid()
    ensures old(sim.At(x, y).material) == ToxicGas ==>
      multiset(Types(sim.cells[..])) == multiset(Types(old(sim.cells[..])))
  {
    match sim.At(x, y).material {
    case ToxicGas =>
      var _, _ := Gases.UpdateToxicGas(sim, x, y);
    case Steam =>
      var _, _ := Gases.UpdateSteam(sim, x, y);
    case Smoke =>
      var _, _ := Gases.UpdateSmoke(sim, x, y);
    }
  }

  /** inner_sim_loop: dispatch every row of column x, from the bottom row up. */
  method InnerSimLoop(sim: Simulation, x: int)
    requires sim.Valid() && 0 <= x < WIDTH
    modifies sim, sim.cells, sim.rng
    ensures sim.Valid() && sim.dir == old(sim.dir)
    ensures sim.visited == old(sim.visited) + ColumnScan(x, 0, HEIGHT)
  {
    var y := HEIGHT - 1;
    while y >= 0
      invariant -1 <= y < HEIGHT
      invariant sim.Valid() && sim.dir == old(sim.dir)
      invariant sim.visited == old(sim.visited) + ColumnScan(x, y + 1, HEIGHT)
    {
      Dispatch(sim, x, y);
      y := y - 1;
    }
  }

  /** run_simulation: flip the parity, scan the columns left to right on a true
      parity and right to left on a false one, then clear every updated marker.
      `scanned` is the grid after the scan; the reset changes only the markers. */
  method RunSimulation(sim: Simulation) returns (ghost scanned: seq<Particle>)
    requires sim.Valid()
    modifies sim, sim.cells, sim.rng
    ensures sim.Valid() && sim.dir == !old(sim.dir)
    ensures sim.visited == FrameOrder(sim.dir)
    ensures |scanned| == SIZE
    ensures forall k :: 0 <= k < SIZE ==> sim.cells[k] == scanned[k].(updated := false)
  {
    sim.dir := !sim.dir;
    sim.visited := [];
    if sim.dir {
      var x := 0;
      while x < WIDTH
        invariant 0 <= x <= WIDTH
        invariant sim.Valid() && sim.dir
        invariant sim.visited == FrameOrder(true)[..x * HEIGHT]
      {
        FrameBlock(true, x);
        InnerSimLoop(sim, x);
        x := x + 1;
      }
    } else {
      var x := WIDTH - 1;
      while x >= 0
        invariant -1 <= x < WIDTH
        invariant sim.Valid() && !sim.dir
        invariant sim.visited == FrameOrder(false)[..(WIDTH - 1 - x) * HEIGHT]
      {
        FrameBlock(false, WIDTH - 1 - x);
        InnerSimLoop(sim, x);
        x := x - 1;
      }
    }
    scanned := sim.cells[..];
    ResetUpdated(sim);
  }

  /** The reset loop of run_simulation: clear `updated` in every cell, column by
      column, and change nothing else. */
  method ResetUpdated(sim: Simulation)
    requires sim.Valid()
    modifies sim.cells
    ensures sim.Valid()
    ensures forall k :: 0 <= k < SIZE ==> sim.cells[k] == old(sim.cells[k]).(updated := false)
  {
    var x := 0;
    while x < WIDTH
      invariant 0 <= x <= WIDTH && sim.Valid()
      invariant forall k :: 0 <= k < SIZE ==>
        sim.cells[k] == if k % WIDTH < x then old(sim.cells[k]).(updated := false) else old(sim.cells[k])
    {
      var y := 0;
      while y < HEIGHT
        invariant 0 <= y <= HEIGHT && sim.Valid()
        invariant forall k :: 0 <= k < SIZE ==>
          sim.cells[k] == if k % WIDTH < x || (k % WIDTH == x && k / WIDTH < y)
            then old(sim.cells[k]).(updated := false) else old(sim.cells[k])
      {
        sim.cells[x + y * WIDTH] := sim.cells[x + y * WIDTH].(updated := false);
        y := y + 1;
      }
      x := x + 1;
    }
  }
}
