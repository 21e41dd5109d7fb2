/** The grid store: a fixed WIDTH x HEIGHT array of particle records in row-major
    order, with the bounds test, whole-record swap and reset-to-empty; and the
    pseudo-random source, modelled as an explicit stream of rolls. */
module Grid {
  import opened Particles
  import opened SimConfig

  /** The single source of truth for valid positions. */
  predicate InBounds(x: int, y: int) {
    !(x < 0 || x > WIDTH - 1 || y < 0 || y > HEIGHT - 1)
  }

  /** The row-major position of (x, y); it determines x and y back. */
  function Index(x: int, y: int): (i: int)
    requires InBounds(x, y)
    ensures 0 <= i < SIZE
    ensures i % WIDTH == x && i / WIDTH == y
  {
    x + y * WIDTH
  }

  /** Distinct in-bounds positions have distinct indices. */
  lemma IndexInjective(x1: int, y1: int, x2: int, y2: int)
    requires InBounds(x1, y1) && InBounds(x2, y2)
    requires Index(x1, y1) == Index(x2, y2)
    ensures x1 == x2 && y1 == y2
  {
  }

  /** Every index of the array is the index of exactly one in-bounds position. */
  lemma IndexOnto(i: int)
    requires 0 <= i < SIZE
    ensures InBounds(i % WIDTH, i / WIDTH)
    ensures Index(i % WIDTH, i / WIDTH) == i
  {
  }

  /** The grid with the whole records at i and j exchanged. */
  function Swapped(s: seq<Particle>, i: int, j: int): (r: seq<Particle>)
    requires 0 <= i < |s| && 0 <= j < |s|
    ensures |r| == |s| && r[i] == s[j] && r[j] == s[i]
    ensures forall k :: 0 <= k < |s| && k != i && k != j ==> r[k] == s[k]
  {
    s[i := s[j]][j := s[i]]
  }

  /** Every record of the grid satisfies the record invariant. */
  predicate AllWellFormed(s: seq<Particle>) {
    forall k :: 0 <= k < |s| ==> WellFormed(s[k])
  }

  /** Swapping the same two cells twice restores the grid. */
  lemma SwapTwice(s: seq<Particle>, i: int, j: int)
    requires 0 <= i < |s| && 0 <= j < |s|
    ensures Swapped(Swapped(s, i, j), i, j) == s
  {
    var r := Swapped(Swapped(s, i, j), i, j);
    assert forall k :: 0 <= k < |s| ==> r[k] == s[k];
  }

  /** The materials of the grid, cell by cell. */
  function Types(s: seq<Particle>): seq<ParticleType> {
    seq(|s|, k requires 0 <= k < |s| => s[k].material)
  }

  /** A swap moves records around but keeps the multiset of materials. */
  lemma SwapKeepsTypes(s: seq<Particle>, i: int, j: int)
    requires 0 <= i < |s| && 0 <= j < |s|
    ensures multiset(Types(Swapped(s, i, j))) == multiset(Types(s))
  {
    var t := Types(s);
    var u: seq<ParticleType> := t[i := t[j]];
    assert Types(Swapped(s, i, j)) == u[j := t[i]];
    assert multiset(u) == multiset(t) - multiset{t[i]} + multiset{t[j]};
    assert multiset(u[j := t[i]]) == multiset(u) - multiset{u[j]} + multiset{t[i]};
  }

  /** Rewriting a cell without changing its material keeps the list of materials. */
  lemma RewriteKeepsTypes(s: seq<Particle>, i: int, p: Particle)
    requires 0 <= i < |s| && p.material == s[i].material
    ensures Types(s[i := p]) == Types(s)
  {
  }

  /** t agrees with s everywhere outside the box [x0, x1] x [y0, y1]. */
  ghost predicate SameOutside(s: seq<Particle>, t: seq<Particle>, x0: int, x1: int, y0: int, y1: int)
    requires |s| == SIZE && |t| == SIZE
  {
    forall a, b :: InBounds(a, b) && !(x0 <= a <= x1 && y0 <= b <= y1) ==>
      t[Index(a, b)] == s[Index(a, b)]
  }

  /** Swapping two cells inside the box keeps everything outside it. */
  lemma SwapInside(s: seq<Particle>, t: seq<Particle>, x0: int, x1: int, y0: int, y1: int,
                   xa: int, ya: int, xb: int, yb: int)
    requires |s| == SIZE && |t| == SIZE && SameOutside(s, t, x0, x1, y0, y1)
    requires InBounds(xa, ya) && x0 <= xa <= x1 && y0 <= ya <= y1
    requires InBounds(xb, yb) && x0 <= xb <= x1 && y0 <= yb <= y1
    ensures SameOutside(s, Swapped(t, Index(xa, ya), Index(xb, yb)), x0, x1, y0, y1)
  {
  }

  /** Rewriting one cell inside the box keeps everything outside it. */
  lemma WriteInside(s: seq<Particle>, t: seq<Particle>, x0: int, x1: int, y0: int, y1: int,
                    xa: int, ya: int, p: Particle)
    requires |s| == SIZE && |t| == SIZE && SameOutside(s, t, x0, x1, y0, y1)
    requires InBounds(xa, ya) && x0 <= xa <= x1 && y0 <= ya <= y1
    ensures SameOutside(s, t[Index(xa, ya) := p], x0, x1, y0, y1)
  {
  }

  /** The cells of column x below row cy are as they were in s0. */
  ghost predicate BelowSame(s0: seq<Particle>, t: seq<Particle>, x: int, cy: int)
    requires |s0| == SIZE && |t| == SIZE
  {
    forall r :: cy < r < HEIGHT && InBounds(x, r) ==> t[Index(x, r)] == s0[Index(x, r)]
  }

  /** Rewriting the mover's own cell and swapping it one row down keeps the cells
      below its new row untouched. */
  lemma BelowStep(s0: seq<Particle>, t: seq<Particle>, x: int, cy: int, p: Particle)
    requires |s0| == SIZE && |t| == SIZE && InBounds(x, cy) && InBounds(x, cy + 1)
    requires BelowSame(s0, t, x, cy)
    ensures BelowSame(s0, Swapped(t, Index(x, cy), Index(x, cy + 1)), x, cy + 1)
    ensures BelowSame(s0, Swapped(t[Index(x, cy) := p], Index(x, cy), Index(x, cy + 1)), x, cy + 1)
  {
  }

  /** Every cell other than `origin` that had flag f in s is unchanged in t. */
  ghost predicate KeepsFlag(s: seq<Particle>, t: seq<Particle>, origin: int, f: ParticleFlag)
    requires |s| == |t|
  {
    forall k :: 0 <= k < |s| && k != origin && s[k].flag == f ==> t[k] == s[k]
  }

  /** A mover at c (its origin, or a cell that did not have flag f at the start)
      that swaps into a cell not now flagged f keeps every originally f-flagged cell
      in place, and its new cell again did not have flag f at the start. */
  lemma SwapKeepsFlag(s: seq<Particle>, t: seq<Particle>, origin: int, f: ParticleFlag, c: int, j: int)
    requires |s| == |t| && 0 <= c < |s| && 0 <= j < |s|
    requires KeepsFlag(s, t, origin, f)
    requires c == origin || s[c].flag != f
    requires t[j].flag != f
    ensures KeepsFlag(s, Swapped(t, c, j), origin, f)
    ensures j == origin || s[j].flag != f
  {
  }

  /** set_empty's effect on one record: material, flag and colour become those of
      an empty cell; velocity, marker and payload stay as they were. */
  function Emptied(p: Particle): (q: Particle)
    ensures q.material == Empty && q.flag == EmptyFlag && q.color == EMPTY_COLOR
    ensures q.(material := p.material, flag := p.flag, color := p.color) == p
  {
    p.(material := Empty, flag := EmptyFlag, color := EMPTY_COLOR)
  }

  /** The record freshly allocated memory holds when read as a particle: every
      field zero, so material oil (ordinal 0) in the liquid phase (ordinal 0). */
  const ZERO_RECORD := Particle(Oil, LiquidFlag, Color(0, 0, 0), 0, 0, false, NoPayload)

  /** The side a roll picks for the rules that choose one (`rand() % 2 == 0 ? 1 : -1`). */
  function Side(roll: nat): (d: int)
    ensures d == 1 || d == -1
    ensures d == 1 <==> roll % 2 == 0
  {
    if roll % 2 == 0 then 1 else -1
  }

  /** The k-th roll of the stream rolls. */
  function Roll(rolls: nat -> nat, k: nat): nat {
    rolls(k)
  }

  /** The pseudo-random source: the k-th call of rand() returns rolls(k). */
  class Rng {
    const rolls: nat -> nat
    var draws: nat

    constructor (rolls: nat -> nat)
      ensures this.rolls == rolls && draws == 0
    {
      this.rolls := rolls;
      draws := 0;
    }

    /** One call of rand(). */
    method Next() returns (r: nat)
      modifies this
      ensures r == rolls(old(draws)) && draws == old(draws) + 1
    {
      r := rolls(draws);
      draws := draws + 1;
    }
  }

  /** The simulation context: the grid, the random source, the frame-parity flag
      of the dispatcher, and (for the proofs only) the positions dispatched so far
      in the current frame. */
  class Simulation {
    const cells: array<Particle>
    const rng: Rng
    var dir: bool
    ghost var visited: seq<(int, int)>

    ghost predicate Valid()
      reads this, cells
    {
      cells.Length == SIZE && forall k :: 0 <= k < SIZE ==> WellFormed(cells[k])
    }

    /** get_p: the record at an in-bounds position (the source does not check). */
    function At(x: int, y: int): Particle
      reads this, cells
      requires Valid() && InBounds(x, y)
    {
      cells[Index(x, y)]
    }

    /** init_simulation's grid part: allocate the grid, then reset every cell to empty
        column by column. The parity flag starts true, as its static initialiser does. */
    constructor Init(rolls: nat -> nat)
      ensures Valid() && fresh(cells) && fresh(rng)
      ensures forall k :: 0 <= k < SIZE ==>
        cells[k].material == Empty && cells[k].flag == EmptyFlag && cells[k].color == EMPTY_COLOR
      ensures dir && rng.rolls == rolls && rng.draws == 0 && visited == []
    {
      cells := new Particle[SIZE](_ => ZERO_RECORD);
      rng := new Rng(rolls);
      dir := true;
      visited := [];
      new;
      var x := 0;
      while x < WIDTH
        invariant 0 <= x <= WIDTH
        invariant Valid() && rng.rolls == rolls && rng.draws == 0 && dir && visited == []
        invariant forall k :: 0 <= k < SIZE && k % WIDTH < x ==>
          cells[k].material == Empty && cells[k].flag == EmptyFlag && cells[k].color == EMPTY_COLOR
      {
        var y := 0;
        while y < HEIGHT
          invariant 0 <= y <= HEIGHT
          invariant Valid() && rng.rolls == rolls && rng.draws == 0 && dir && visited == []
          invariant forall k :: 0 <= k < SIZE && (k % WIDTH < x || (k % WIDTH == x && k / WIDTH < y)) ==>
            cells[k].material == Empty && cells[k].flag == EmptyFlag && cells[k].color == EMPTY_COLOR
        {
          SetEmpty(x, y);
          y := y + 1;
        }
        x := x + 1;
      }
    }

    /** Exchanges the entire records at the two positions and nothing else. */
    method Swap(x1: int, y1: int, x2: int, y2: int)
      requires Valid() && InBounds(x1, y1) && InBounds(x2, y2)
      modifies cells
      ensures Valid()
      ensures cells[..] == Swapped(old(cells[..]), Index(x1, y1), Index(x2, y2))
      ensures multiset(Types(cells[..])) == multiset(Types(old(cells[..])))
    {
      var i, j := Index(x1, y1), Index(x2, y2);
      var temp := cells[i];
      cells[i] := cells[j];
      cells[j] := temp;
      SwapKeepsTypes(old(cells[..]), i, j);
    }

    /** Makes the cell at the position empty, leaving its other fields alone. */
    method SetEmpty(x: int, y: int)
      requires Valid() && InBounds(x, y)
      modifies cells
      ensures Valid()
      ensures cells[..] == old(cells[..])[Index(x, y) := Emptied(old(cells[Index(x, y)]))]
    {
      var idx := Index(x, y);
      cells[idx] := Emptied(cells[idx]);
    }

    /** `*get_p(x, y) = p`: overwrites one whole record. */
    method Write(x: int, y: int, p: Particle)
      requires Valid() && InBounds(x, y) && WellFormed(p)
      modifies cells
      ensures Valid()
      ensures cells[..] == old(cells[..])[Index(x, y) := p]
      ensures p.material == old(cells[Index(x, y)].material) ==> Types(cells[..]) == Types(old(cells[..]))
    {
      cells[Index(x, y)] := p;
      if p.material == old(cells[Index(x, y)].material) {
        RewriteKeepsTypes(old(cells[..]), Index(x, y), p);
      }
    }
  }
}
