/** The Game of Life of cw9: the neighbour count with clipped borders, the update of the
    grid, and what the update commutes with and depends on. */
module Grid {

  const WIDTH := 30
  const HEIGHT := 30
  const CELLS := WIDTH * HEIGHT

  /** Cells in row order; any value but zero is alive. */
  type Cells = g: seq<int> | |g| == CELLS witness seq(CELLS, _ => 0)

  predicate InGrid(r: int, c: int) {
    0 <= r < HEIGHT && 0 <= c < WIDTH
  }

  predicate Alive(g: Cells, r: int, c: int) {
    InGrid(r, c) && g[WIDTH * r + c] != 0
  }

  function Count(g: Cells, r: int, c: int): nat {
    if Alive(g, r, c) then 1 else 0
  }

  /** The eight places around (r, c). */
  function Around(r: int, c: int): seq<(int, int)> {
    [(r - 1, c - 1), (r - 1, c), (r - 1, c + 1), (r, c - 1), (r, c + 1), (r + 1, c - 1), (r + 1, c), (r + 1, c + 1)]
  }

  function CountAmong(g: Cells, places: seq<(int, int)>): nat {
    if places == [] then 0 else Count(g, places[0].0, places[0].1) + CountAmong(g, places[1..])
  }

  /** The live cells around (r, c); places outside the grid count as dead. */
  function Neighbours(g: Cells, r: int, c: int): nat {
    CountAmong(g, Around(r, c))
  }

  /** A live cell survives with two or three live neighbours; three make a cell live. */
  predicate Lives(g: Cells, r: int, c: int) {
    Neighbours(g, r, c) == 3 || (Alive(g, r, c) && Neighbours(g, r, c) == 2)
  }

  function Life(g: Cells): (g': Cells) {
    seq(CELLS, k requires 0 <= k < CELLS => if Lives(g, k / WIDTH, k % WIDTH) then 1 else 0)
  }

  function Generations(g: Cells, k: nat): Cells {
    if k == 0 then g else Life(Generations(g, k - 1))
  }

  lemma GenerationsNext(g: Cells, k: nat)
    requires k > 0
    ensures Generations(g, k) == Life(Generations(g, k - 1))
  {
  }

  // ----- The count is the number of live neighbours -----

  predicate Adjacent(r: int, c: int, r': int, c': int) {
    -1 <= r' - r <= 1 && -1 <= c' - c <= 1 && (r', c') != (r, c)
  }

  ghost function LiveNeighbours(g: Cells, r: int, c: int): set<(int, int)> {
    set r', c' | 0 <= r' < HEIGHT && 0 <= c' < WIDTH && Adjacent(r, c, r', c') && Alive(g, r', c') :: (r', c')
  }

  ghost function Among(g: Cells, places: seq<(int, int)>): set<(int, int)> {
    set p | p in places && Alive(g, p.0, p.1)
  }

  lemma {:induction false} CountIsCardinality(g: Cells, places: seq<(int, int)>)
    requires forall i, j :: 0 <= i < j < |places| ==> places[i] != places[j]
    ensures CountAmong(g, places) == |Among(g, places)|
  {
    if places == [] {
      assert Among(g, places) == {};
    } else {
      var p, rest := places[0], places[1..];
      CountIsCardinality(g, rest);
      assert p !in rest;
      assert Among(g, places) == Among(g, rest) + (if Alive(g, p.0, p.1) then {p} else {});
    }
  }

  lemma NeighboursAreCounted(g: Cells, r: int, c: int)
    ensures Neighbours(g, r, c) == |LiveNeighbours(g, r, c)|
  {
    CountIsCardinality(g, Around(r, c));
    LiveAround(g, r, c);
  }

  lemma LiveAround(g: Cells, r: int, c: int)
    ensures Among(g, Around(r, c)) == LiveNeighbours(g, r, c)
  {
    forall p: (int, int) ensures p in Around(r, c) <==> Adjacent(r, c, p.0, p.1) {
      if Adjacent(r, c, p.0, p.1) {
        AdjacentIsAround(r, c, p.0, p.1);
      }
    }
  }

  lemma AdjacentIsAround(r: int, c: int, r': int, c': int)
    requires Adjacent(r, c, r', c')
    ensures (r', c') in Around(r, c)
  {
    var a := Around(r, c);
    assert a[0] in a && a[1] in a && a[2] in a && a[3] in a && a[4] in a && a[5] in a && a[6] in a && a[7] in a;
  }

  lemma NeighboursSum(g: Cells, r: int, c: int)
    ensures Neighbours(g, r, c) == Row(g, r - 1, c, false) + Row(g, r, c, true) + Row(g, r + 1, c, false)
  {
    var a := Around(r, c);
    CountTail(g, a, 0);
    CountTail(g, a, 1);
    CountTail(g, a, 2);
    CountTail(g, a, 3);
    CountLastFour(g, a);
    assert a[0..] == a;
  }

  lemma CountLastFour(g: Cells, a: seq<(int, int)>)
    requires |a| == 8
    ensures CountAmong(g, a[4..]) == Count(g, a[4].0, a[4].1) + Count(g, a[5].0, a[5].1)
                                     + Count(g, a[6].0, a[6].1) + Count(g, a[7].0, a[7].1)
  {
    CountTail(g, a, 4);
    CountTail(g, a, 5);
    CountTail(g, a, 6);
    CountTail(g, a, 7);
    assert a[8..] == [];
  }

  lemma CountTail(g: Cells, a: seq<(int, int)>, k: nat)
    requires k < |a|
    ensures CountAmong(g, a[k..]) == Count(g, a[k].0, a[k].1) + CountAmong(g, a[k + 1..])
  {
    assert a[k..][1..] == a[k + 1..];
  }

  function Row(g: Cells, r: int, c: int, middle: bool): nat {
    Count(g, r, c - 1) + (if middle then 0 else Count(g, r, c)) + Count(g, r, c + 1)
  }

  /** Cells whose eight places agree pairwise have equally many live neighbours. */
  lemma {:induction false} CountPointwise(g: Cells, h: Cells, ps: seq<(int, int)>, qs: seq<(int, int)>)
    requires |ps| == |qs|
    requires forall k :: 0 <= k < |ps| ==> Count(g, ps[k].0, ps[k].1) == Count(h, qs[k].0, qs[k].1)
    ensures CountAmong(g, ps) == CountAmong(h, qs)
  {
    if ps == [] {
    } else {
      CountPointwise(g, h, ps[1..], qs[1..]);
    }
  }

  // ----- The code -----

  /** is_alive: the double loop over the offsets, skipping the cell itself and the outside. */
  method IsAlive(row: int, col: int, grid: array<int>) returns (alive: bool)
    requires grid.Length == CELLS && InGrid(row, col)
    ensures alive == Lives(grid[..], row, col)
  {
    ghost var g: Cells := grid[..];
    NeighboursSum(g, row, col);
    var count := 0;
    for i := -1 to 2
      invariant count == (if i > -1 then Row(g, row - 1, col, false) else 0)
                       + (if i > 0 then Row(g, row, col, true) else 0)
                       + (if i > 1 then Row(g, row + 1, col, false) else 0)
    {
      ghost var before := count;
      for j := -1 to 2
        invariant count == before + (if j > -1 then Count(g, row + i, col - 1) else 0)
                         + (if j > 0 && i != 0 then Count(g, row + i, col) else 0)
                         + (if j > 1 then Count(g, row + i, col + 1) else 0)
      {
        if i == 0 && j == 0 {
          continue;
        }
        var r := row + i;
        var c := col + j;
        if r < 0 || r >= HEIGHT || c < 0 || c >= WIDTH {
          continue;
        }
        if grid[WIDTH * r + c] != 0 {
          count := count + 1;
        }
      }
    }
    if grid[row * WIDTH + col] != 0 {
      if count == 2 || count == 3 {
        return true;
      } else {
        return false;
      }
    } else {
      if count == 3 {
        return true;
      } else {
        return false;
      }
    }
  }

  /** update_grid. */
  method UpdateGrid(src: array<int>, dst: array<int>)
    requires src != dst && src.Length == CELLS && dst.Length == CELLS
    modifies dst
    ensures dst[..] == Life(src[..])
  {
    for i := 0 to HEIGHT
      invariant forall k :: 0 <= k < WIDTH * i ==> dst[k] == Life(src[..])[k]
    {
      for j := 0 to WIDTH
        invariant forall k :: 0 <= k < WIDTH * i + j ==> dst[k] == Life(src[..])[k]
      {
        var alive := IsAlive(i, j, src);
        dst[i * WIDTH + j] := if alive then 1 else 0;
      }
    }
  }

  lemma LifeAt(g: Cells, r: int, c: int)
    requires InGrid(r, c)
    ensures Alive(Life(g), r, c) == Lives(g, r, c)
  {
    assert (WIDTH * r + c) / WIDTH == r && (WIDTH * r + c) % WIDTH == c;
  }

  /** The rule in terms of the sets: three live neighbours make a cell live, two keep it alive, and
      nothing else does. */
  lemma LivesByRule(g: Cells, r: int, c: int)
    ensures Lives(g, r, c) <==>
            |LiveNeighbours(g, r, c)| == 3 || (Alive(g, r, c) && |LiveNeighbours(g, r, c)| == 2)
  {
    NeighboursAreCounted(g, r, c);
  }

  lemma LifeRule(g: Cells, r: int, c: int)
    requires InGrid(r, c)
    ensures Life(g)[WIDTH * r + c] ==
            if |LiveNeighbours(g, r, c)| == 3 || (Alive(g, r, c) && |LiveNeighbours(g, r, c)| == 2) then 1 else 0
  {
    LifeAt(g, r, c);
    LivesByRule(g, r, c);
  }

  // ----- Light cone -----

  predicate AgreeWithin(g: Cells, h: Cells, r: int, c: int, d: nat) {
    forall r', c' :: InGrid(r', c') && r - d <= r' <= r + d && c - d <= c' <= c + d ==>
      Alive(g, r', c') == Alive(h, r', c')
  }

  lemma LivesLocally(g: Cells, h: Cells, r: int, c: int)
    requires InGrid(r, c) && AgreeWithin(g, h, r, c, 1)
    ensures Lives(g, r, c) == Lives(h, r, c)
  {
    var a := Around(r, c);
    forall k | 0 <= k < |a| ensures Count(g, a[k].0, a[k].1) == Count(h, a[k].0, a[k].1) {
      if InGrid(a[k].0, a[k].1) {
        assert Alive(g, a[k].0, a[k].1) == Alive(h, a[k].0, a[k].1);
      }
    }
    CountPointwise(g, h, a, a);
    assert Alive(g, r, c) == Alive(h, r, c);
  }

  /** What a cell is after k generations depends only on the cells within distance k. */
  lemma {:induction false} LightCone(g: Cells, h: Cells, r: int, c: int, k: nat)
    requires InGrid(r, c) && AgreeWithin(g, h, r, c, k)
    ensures Alive(Generations(g, k), r, c) == Alive(Generations(h, k), r, c)
    decreases k
  {
    if k == 0 {
    } else {
      var g', h' := Generations(g, k - 1), Generations(h, k - 1);
      forall r', c' | InGrid(r', c') && -1 <= r' - r <= 1 && -1 <= c' - c <= 1
        ensures Alive(g', r', c') == Alive(h', r', c')
      {
        SmallerCone(g, h, r, c, r', c', k);
        LightCone(g, h, r', c', k - 1);
      }
      NextLocally(g', h', r, c);
      GenerationsNext(g, k);
      GenerationsNext(h, k);
    }
  }

  lemma SmallerCone(g: Cells, h: Cells, r: int, c: int, r': int, c': int, k: nat)
    requires k > 0 && AgreeWithin(g, h, r, c, k) && -1 <= r' - r <= 1 && -1 <= c' - c <= 1
    ensures AgreeWithin(g, h, r', c', k - 1)
  {
  }

  lemma NextLocally(g: Cells, h: Cells, r: int, c: int)
    requires InGrid(r, c) && AgreeWithin(g, h, r, c, 1)
    ensures Alive(Life(g), r, c) == Alive(Life(h), r, c)
  {
    LivesLocally(g, h, r, c);
    LifeAt(g, r, c);
    LifeAt(h, r, c);
  }

  // ----- Symmetries -----

  datatype Symmetry = Transpose | FlipRows | FlipColumns

  function Map(s: Symmetry, r: int, c: int): (int, int) {
    match s
    case Transpose => (c, r)
    case FlipRows => (HEIGHT - 1 - r, c)
    case FlipColumns => (r, WIDTH - 1 - c)
  }

  function Apply(s: Symmetry, g: Cells): Cells {
    seq(CELLS, k requires 0 <= k < CELLS =>
      var (r, c) := Map(s, k / WIDTH, k % WIDTH);
      assert InGrid(r, c);
      g[WIDTH * r + c])
  }

  function ApplyAll(ss: seq<Symmetry>, g: Cells): Cells {
    if ss == [] then g else ApplyAll(ss[1..], Apply(ss[0], g))
  }

  lemma AliveApply(s: Symmetry, g: Cells, r: int, c: int)
    ensures Alive(Apply(s, g), r, c) == Alive(g, Map(s, r, c).0, Map(s, r, c).1)
  {
    if InGrid(r, c) {
      assert (WIDTH * r + c) / WIDTH == r && (WIDTH * r + c) % WIDTH == c;
    }
  }

  lemma NeighboursTransposed(g: Cells, h: Cells, r: int, c: int)
    requires forall r', c' :: Count(h, r', c') == Count(g, c', r')
    ensures Neighbours(h, r, c) == Neighbours(g, c, r)
  {
    NeighboursSum(h, r, c);
    NeighboursSum(g, c, r);
  }

  lemma NeighboursUpsideDown(g: Cells, h: Cells, r: int, c: int)
    requires forall r', c' :: Count(h, r', c') == Count(g, HEIGHT - 1 - r', c')
    ensures Neighbours(h, r, c) == Neighbours(g, HEIGHT - 1 - r, c)
  {
    NeighboursSum(h, r, c);
    NeighboursSum(g, HEIGHT - 1 - r, c);
  }

  lemma NeighboursMirrored(g: Cells, h: Cells, r: int, c: int)
    requires forall r', c' :: Count(h, r', c') == Count(g, r', WIDTH - 1 - c')
    ensures Neighbours(h, r, c) == Neighbours(g, r, WIDTH - 1 - c)
  {
    NeighboursSum(h, r, c);
    NeighboursSum(g, r, WIDTH - 1 - c);
  }

  /** Each symmetry permutes the eight places around a cell. */
  lemma NeighboursMapped(s: Symmetry, g: Cells, h: Cells, r: int, c: int)
    requires forall r', c' :: Count(h, r', c') == Count(g, Map(s, r', c').0, Map(s, r', c').1)
    ensures Neighbours(h, r, c) == Neighbours(g, Map(s, r, c).0, Map(s, r, c).1)
  {
    match s
    case Transpose =>
      assert forall r', c' :: Count(h, r', c') == Count(g, Map(s, r', c').0, Map(s, r', c').1) == Count(g, c', r');
      NeighboursTransposed(g, h, r, c);
    case FlipRows =>
      assert forall r', c' ::
          Count(h, r', c') == Count(g, Map(s, r', c').0, Map(s, r', c').1) == Count(g, HEIGHT - 1 - r', c');
      NeighboursUpsideDown(g, h, r, c);
    case FlipColumns =>
      assert forall r', c' ::
          Count(h, r', c') == Count(g, Map(s, r', c').0, Map(s, r', c').1) == Count(g, r', WIDTH - 1 - c');
      NeighboursMirrored(g, h, r, c);
  }

  /** Where the image of a cell comes from, as indices. */
  function Source(s: Symmetry, k: nat): (k': nat)
    requires k < CELLS
    ensures k' < CELLS
  {
    WIDTH * Map(s, k / WIDTH, k % WIDTH).0 + Map(s, k / WIDTH, k % WIDTH).1
  }

  lemma ApplyAt(s: Symmetry, g: Cells, k: nat)
    requires k < CELLS
    ensures Apply(s, g)[k] == g[Source(s, k)]
  {
  }

  lemma LivesMapped(s: Symmetry, g: Cells, k: nat)
    requires k < CELLS
    ensures Lives(Apply(s, g), k / WIDTH, k % WIDTH) == Lives(g, Source(s, k) / WIDTH, Source(s, k) % WIDTH)
  {
    var (r, c) := (k / WIDTH, k % WIDTH);
    var h := Apply(s, g);
    forall r', c' ensures Count(h, r', c') == Count(g, Map(s, r', c').0, Map(s, r', c').1) {
      AliveApply(s, g, r', c');
    }
    NeighboursMapped(s, g, h, r, c);
    AliveApply(s, g, r, c);
    SourceParts(s, k);
  }

  lemma SourceParts(s: Symmetry, k: nat)
    requires k < CELLS
    ensures (Source(s, k) / WIDTH, Source(s, k) % WIDTH) == Map(s, k / WIDTH, k % WIDTH)
  {
  }

  lemma LifeApply(s: Symmetry, g: Cells)
    ensures Life(Apply(s, g)) == Apply(s, Life(g))
  {
    var a, b := Life(Apply(s, g)), Apply(s, Life(g));
    forall k | 0 <= k < CELLS ensures a[k] == b[k] {
      LivesMapped(s, g, k);
      ApplyAt(s, Life(g), k);
    }
  }

  /** The generations commute with transposition, both reflections, and so with all their
      compositions, such as the rotations. */
  lemma {:induction false} GenerationsCommute(ss: seq<Symmetry>, g: Cells, k: nat)
    ensures Generations(ApplyAll(ss, g), k) == ApplyAll(ss, Generations(g, k))
    decreases |ss|, k
  {
    if ss == [] {
    } else {
      GenerationsCommute(ss[1..], Apply(ss[0], g), k);
      GenerationsApply(ss[0], g, k);
    }
  }

  lemma NextApply(s: Symmetry, g: Cells, h: Cells)
    requires h == Apply(s, g)
    ensures Life(h) == Apply(s, Life(g))
  {
    LifeApply(s, g);
  }

  lemma {:induction false} GenerationsApply(s: Symmetry, g: Cells, k: nat)
    ensures Generations(Apply(s, g), k) == Apply(s, Generations(g, k))
  {
    if k == 0 {
    } else {
      GenerationsApply(s, g, k - 1);
      GenerationsNext(g, k);
      GenerationsNext(Apply(s, g), k);
      NextApply(s, Generations(g, k - 1), Generations(Apply(s, g), k - 1));
    }
  }

  /** What the symmetries do to a cell. */
  lemma SymmetriesMove(g: Cells, r: int, c: int)
    requires InGrid(r, c)
    ensures Alive(Apply(Transpose, g), r, c) == Alive(g, c, r)
    ensures Alive(Apply(FlipRows, g), r, c) == Alive(g, HEIGHT - 1 - r, c)
    ensures Alive(Apply(FlipColumns, g), r, c) == Alive(g, r, WIDTH - 1 - c)
  {
    AliveApply(Transpose, g, r, c);
    AliveApply(FlipRows, g, r, c);
    AliveApply(FlipColumns, g, r, c);
  }

  /** Both reflections together turn the grid by 180 degrees, which reverses it. */
  lemma HalfTurn(g: Cells, k: nat)
    requires k < CELLS
    ensures ApplyAll([FlipRows, FlipColumns], g)[k] == g[CELLS - 1 - k]
  {
    var ss := [FlipRows, FlipColumns];
    assert ss[1..] == [FlipColumns] && ss[1..][1..] == [];
    assert ApplyAll(ss, g) == ApplyAll(ss[1..], Apply(FlipRows, g));
    assert ApplyAll(ss[1..], Apply(FlipRows, g)) == ApplyAll([], Apply(FlipColumns, Apply(FlipRows, g)));
    ApplyAt(FlipColumns, Apply(FlipRows, g), k);
    ApplyAt(FlipRows, g, Source(FlipColumns, k));
    SourceParts(FlipColumns, k);
  }
}
