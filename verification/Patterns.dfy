/** What the thresholds of the Game of Life rule lead to: a block stays, and a blinker blinks. */
module Patterns {
  import opened Grid

  /** A square of four cells, and three cells in a row or in a column. */
  datatype Pattern = Block | Lying | Standing

  /** The cell (i, j) belongs to the pattern at (r, c). */
  predicate In(p: Pattern, r: int, c: int, i: int, j: int) {
    match p
    case Block => r <= i <= r + 1 && c <= j <= c + 1
    case Lying => i == r && c - 1 <= j <= c + 1
    case Standing => r - 1 <= i <= r + 1 && j == c
  }

  /** The pattern is in the grid, and nothing else is alive. */
  ghost predicate Shows(g: Cells, p: Pattern, r: int, c: int) {
    forall i, j :: Alive(g, i, j) <==> In(p, r, c, i, j)
  }

  function Weight(p: Pattern, r: int, c: int, i: int, j: int): nat { if In(p, r, c, i, j) then 1 else 0 }

  /** The neighbours of a cell are those in the pattern. */
  lemma NeighboursInPattern(g: Cells, p: Pattern, r: int, c: int, i: int, j: int)
    requires Shows(g, p, r, c)
    ensures Neighbours(g, i, j) ==
            Weight(p, r, c, i - 1, j - 1) + Weight(p, r, c, i - 1, j) + Weight(p, r, c, i - 1, j + 1)
            + Weight(p, r, c, i, j - 1) + Weight(p, r, c, i, j + 1)
            + Weight(p, r, c, i + 1, j - 1) + Weight(p, r, c, i + 1, j) + Weight(p, r, c, i + 1, j + 1)
  {
    NeighboursSum(g, i, j);
  }

  lemma NextInBlock(g: Cells, r: int, c: int, i: int, j: int)
    requires Shows(g, Block, r, c)
    ensures Alive(Life(g), i, j) <==> In(Block, r, c, i, j)
  {
    assert Alive(g, i, j) <==> In(Block, r, c, i, j);
    if InGrid(i, j) {
      LifeAt(g, i, j);
      NeighboursInPattern(g, Block, r, c, i, j);
    }
  }

  lemma NextInBlinker(g: Cells, p: Pattern, q: Pattern, r: int, c: int, i: int, j: int)
    requires Shows(g, p, r, c) && ((p == Lying && q == Standing) || (p == Standing && q == Lying))
    requires InGrid(r - 1, c - 1) && InGrid(r + 1, c + 1)
    ensures Alive(Life(g), i, j) <==> In(q, r, c, i, j)
  {
    assert Alive(g, i, j) <==> In(p, r, c, i, j);
    if InGrid(i, j) {
      LifeAt(g, i, j);
      NeighboursInPattern(g, p, r, c, i, j);
    }
  }

  /** What the pattern becomes. */
  function Turned(p: Pattern): Pattern {
    match p
    case Block => Block
    case Lying => Standing
    case Standing => Lying
  }

  /** A blinker has room to turn when it does not touch the border on its long sides. */
  predicate Room(p: Pattern, r: int, c: int) {
    p.Block? || (InGrid(r - 1, c - 1) && InGrid(r + 1, c + 1))
  }

  lemma PatternTurns(g: Cells, p: Pattern, r: int, c: int)
    requires Shows(g, p, r, c) && Room(p, r, c)
    ensures Shows(Life(g), Turned(p), r, c)
  {
    forall i, j ensures Alive(Life(g), i, j) <==> In(Turned(p), r, c, i, j) {
      if p.Block? {
        NextInBlock(g, r, c, i, j);
      } else {
        NextInBlinker(g, p, Turned(p), r, c, i, j);
      }
    }
  }

  function Phase(p: Pattern, k: nat): Pattern { if k % 2 == 0 then p else Turned(p) }

  /** A block is still, and a blinker has period two, for ever. */
  lemma {:induction false} PatternsRepeat(g: Cells, p: Pattern, r: int, c: int, k: nat)
    requires Shows(g, p, r, c) && Room(p, r, c)
    ensures Shows(Generations(g, k), Phase(p, k), r, c)
  {
    if k == 0 {
    } else {
      PatternsRepeat(g, p, r, c, k - 1);
      PatternTurns(Generations(g, k - 1), Phase(p, k - 1), r, c);
      GenerationsNext(g, k);
      PhaseNext(p, k);
    }
  }

  lemma PhaseNext(p: Pattern, k: nat)
    requires k > 0
    ensures Turned(Phase(p, k - 1)) == Phase(p, k)
  {
    assert Turned(Turned(p)) == p;
  }
}
