/** The parallel program of cw9: workers own ranges of cell indices, compute the next
    generation from the foreground into the background in any interleaving, and the main
    thread swaps the two buffers after every round. */
module ParallelLife {
  import opened Grid
  import opened Modulo
  import opened Sums

  // ----- The ranges -----

  /** The indices a worker writes: start up to, not including, end. */
  datatype ThreadArg = ThreadArg(start: nat, end: nat)

  /** Line 63: the quotient is an integer before ceil sees it, so it is the floor. */
  function CellsPerThread(n: nat): nat
    requires n > 0
  {
    CELLS / n
  }

  function Range(cellsPerThread: nat, i: nat): ThreadArg {
    ThreadArg(i * cellsPerThread, (i + 1) * cellsPerThread)
  }

  /** Lines 66-71. */
  function Args(n: nat): seq<ThreadArg>
    requires n > 0
  {
    seq(n, i requires 0 <= i < n => Range(CellsPerThread(n), i))
  }

  /** How many cells the n workers have together. */
  function Covered(n: nat): nat
    requires n > 0
  {
    n * CellsPerThread(n)
  }

  predicate Owns(args: seq<ThreadArg>, w: nat, k: nat) {
    w < |args| && k < CELLS && args[w].start <= k < args[w].end
  }

  /** Ranges within the grid, one after the other. */
  predicate Proper(args: seq<ThreadArg>) {
    && (forall w :: 0 <= w < |args| ==> args[w].start <= args[w].end <= CELLS)
    && (forall v, w :: 0 <= v < w < |args| ==> args[v].end <= args[w].start)
  }

  /** The program's ranges are in bounds and disjoint, and end with the covered part. */
  lemma ArgsAreProper(n: nat)
    requires n > 0
    ensures Proper(Args(n)) && Covered(n) <= CELLS
    ensures forall w :: 0 <= w < n ==> Args(n)[w].end <= Covered(n)
  {
    var c := CellsPerThread(n);
    assert CELLS == n * c + CELLS % n;
    forall w | 0 <= w < n ensures Args(n)[w].start <= Args(n)[w].end <= Covered(n) {
      MulMonotone(w, w + 1, c);
      MulMonotone(w + 1, n, c);
    }
    forall v, w | 0 <= v < w < n ensures Args(n)[v].end <= Args(n)[w].start {
      MulMonotone(v + 1, w, c);
    }
  }

  /** Exactly the cells below n times the floor of 900 / n have a worker, and only one. */
  lemma CoveredIsOwned(n: nat, k: nat)
    requires n > 0 && k < CELLS
    ensures k < Covered(n) <==> exists w: nat :: Owns(Args(n), w, k)
    ensures forall v: nat, w: nat :: Owns(Args(n), v, k) && Owns(Args(n), w, k) ==> v == w
  {
    ArgsAreProper(n);
    if k < Covered(n) {
      var w := OwnerExists(n, k);
    }
  }

  lemma OwnerExists(n: nat, k: nat) returns (w: nat)
    requires n > 0 && k < CELLS && k < Covered(n)
    ensures Owns(Args(n), w, k)
  {
    w := k / CellsPerThread(n);
    Block(k, CellsPerThread(n), n);
  }

  lemma CoveredAll(n: nat)
    requires n > 0
    ensures Covered(n) == CELLS - CELLS % n
  {
    assert CELLS == n * (CELLS / n) + CELLS % n;
  }

  ghost predicate HasWorker(n: nat, k: nat)
    requires n > 0
  {
    exists w: nat :: Owns(Args(n), w, k)
  }

  /** The last 900 % n cells, and no others, have no worker, so that every cell has one exactly
      when n divides the number of cells. */
  lemma FullCoverage(n: nat)
    requires n > 0
    ensures forall k: nat :: k < CELLS ==> (HasWorker(n, k) <==> k < CELLS - CELLS % n)
    ensures (forall k: nat :: k < CELLS ==> HasWorker(n, k)) <==> CELLS % n == 0
  {
    CoveredAll(n);
    forall k: nat | k < CELLS ensures HasWorker(n, k) <==> k < CELLS - CELLS % n {
      CoveredIsOwned(n, k);
    }
    assert HasWorker(n, CELLS - 1) <==> CELLS - 1 < CELLS - CELLS % n;
  }

  // ----- One pass of all workers -----

  /** What a complete pass leaves in the background. */
  function Pass(front: Cells, back: Cells, n: nat): Cells
    requires n > 0
  {
    seq(CELLS, k requires 0 <= k < CELLS => if k < Covered(n) then Life(front)[k] else back[k])
  }

  /** While a pass is running worker w is about to write cell next[w]. */
  ghost predicate Running(front: Cells, back: Cells, args: seq<ThreadArg>, next: seq<nat>, now: Cells) {
    && |next| == |args|
    && (forall w :: 0 <= w < |args| ==> args[w].start <= next[w] <= args[w].end)
    && (forall w: nat, k: nat :: Owns(args, w, k) ==> now[k] == if k < next[w] then Life(front)[k] else back[k])
    && (forall k :: 0 <= k < CELLS && Unowned(args, k) ==> now[k] == back[k])
  }

  predicate Unowned(args: seq<ThreadArg>, k: int) {
    forall w :: 0 <= w < |args| ==> !(args[w].start <= k < args[w].end)
  }

  predicate AtStart(args: seq<ThreadArg>, next: seq<nat>) {
    |next| == |args| && forall w :: 0 <= w < |args| ==> next[w] == args[w].start
  }

  predicate AtEnd(args: seq<ThreadArg>, next: seq<nat>) {
    |next| == |args| && forall w :: 0 <= w < |args| ==> next[w] == args[w].end
  }

  /** The next write of worker w keeps it so, whatever the others have done. */
  lemma WriteKeepsRunning(front: Cells, back: Cells, args: seq<ThreadArg>, next: seq<nat>, now: Cells, w: nat)
    requires Proper(args) && Running(front, back, args, next, now) && w < |args| && next[w] < args[w].end
    ensures next[w] < CELLS
    ensures Running(front, back, args, next[w := next[w] + 1], now[next[w] := Life(front)[next[w]]])
  {
    assert Owns(args, w, next[w]);
  }

  lemma PassStarts(front: Cells, back: Cells, args: seq<ThreadArg>, next: seq<nat>)
    requires Proper(args) && AtStart(args, next)
    ensures Running(front, back, args, next, back)
  {
  }

  lemma PassEnds(front: Cells, back: Cells, n: nat, next: seq<nat>, now: Cells)
    requires n > 0 && Running(front, back, Args(n), next, now) && AtEnd(Args(n), next)
    ensures now == Pass(front, back, n)
  {
    forall k | 0 <= k < CELLS ensures now[k] == Pass(front, back, n)[k] {
      if k < Covered(n) {
        var w := OwnerExists(n, k);
      } else {
        ArgsAreProper(n);
        assert Unowned(Args(n), k);
      }
    }
  }

  /** Lines 66-71: the ranges, set up in a loop. */
  method SetUpArgs(n: nat) returns (args: seq<ThreadArg>)
    requires n > 0
    ensures args == Args(n)
  {
    var cellsPerThread := CELLS / n;
    args := [];
    for i := 0 to n
      invariant |args| == i && forall j :: 0 <= j < i ==> args[j] == Args(n)[j]
    {
      args := args + [Range(cellsPerThread, i)];
    }
  }

  /** Lines 27-29: one cell. */
  method WriteCell(foreground: array<int>, background: array<int>, i: nat)
    requires foreground != background && foreground.Length == CELLS && background.Length == CELLS && i < CELLS
    modifies background
    ensures background[..] == old(background[..])[i := Life(foreground[..])[i]]
  {
    var row := i / WIDTH;
    var col := i % WIDTH;
    var alive := IsAlive(row, col, foreground);
    background[i] := if alive then 1 else 0;
  }

  function Zipped(args: seq<ThreadArg>, next: seq<nat>): seq<(nat, nat)>
    requires |next| == |args|
  {
    seq(|args|, w requires 0 <= w < |args| => (next[w], args[w].end))
  }

  function Left(p: (nat, nat)): nat { if p.0 <= p.1 then p.1 - p.0 else 0 }

  /** One complete pass: until every worker is at the end of its range, any unfinished one is
      picked and writes its next cell (lines 25-30). */
  method ParallelPass(foreground: array<int>, background: array<int>, n: nat)
    requires n > 0 && foreground != background
    requires foreground.Length == CELLS && background.Length == CELLS
    modifies background
    ensures background[..] == Pass(foreground[..], old(background[..]), n)
  {
    var args := SetUpArgs(n);
    ArgsAreProper(n);
    var next: seq<nat> := seq(|args|, w requires 0 <= w < |args| => args[w].start);
    ghost var front: Cells, back: Cells := foreground[..], background[..];
    PassStarts(front, back, args, next);
    while exists w :: 0 <= w < |args| && next[w] < args[w].end
      invariant Running(front, back, args, next, background[..])
      decreases Total(Left, Zipped(args, next))
    {
      var w: nat :| w < |args| && next[w] < args[w].end;
      WriteKeepsRunning(front, back, args, next, background[..], w);
      TotalUpdate(Left, Zipped(args, next), w, (next[w] + 1, args[w].end));
      assert Zipped(args, next[w := next[w] + 1]) == Zipped(args, next)[w := (next[w] + 1, args[w].end)];
      WriteCell(foreground, background, next[w]);
      next := next[w := next[w] + 1];
    }
    PassEnds(front, back, n, next, background[..]);
  }

  // ----- Rounds -----

  /** Lines 83-101 on values: a pass, then the swap. */
  function Rounds(front: Cells, back: Cells, n: nat, k: nat): (Cells, Cells)
    requires n > 0
  {
    if k == 0 then (front, back)
    else var (f, b) := Rounds(front, back, n, k - 1); (Pass(f, b, n), f)
  }

  /** A cell without a worker shows what the two buffers first held there, one after the other: the
      swap exchanges them. */
  lemma {:induction false} UncoveredAlternates(front: Cells, back: Cells, n: nat, k: nat, cell: nat)
    requires n > 0 && Covered(n) <= cell < CELLS
    ensures Rounds(front, back, n, k).0[cell] == if k % 2 == 0 then front[cell] else back[cell]
    ensures Rounds(front, back, n, k).1[cell] == if k % 2 == 0 then back[cell] else front[cell]
  {
    if k == 0 {
    } else {
      UncoveredAlternates(front, back, n, k - 1, cell);
    }
  }

  /** After a round the background is the former foreground, and the foreground is, cell by cell, the
      next generation of it where a worker writes. */
  lemma RoundSwaps(front: Cells, back: Cells, n: nat, k: nat, cell: nat)
    requires n > 0 && k > 0 && cell < CELLS
    ensures Rounds(front, back, n, k).1 == Rounds(front, back, n, k - 1).0
    ensures HasWorker(n, cell) ==> Rounds(front, back, n, k).0[cell] == Life(Rounds(front, back, n, k - 1).0)[cell]
    ensures !HasWorker(n, cell) ==> Rounds(front, back, n, k).0[cell] == Rounds(front, back, n, k - 1).1[cell]
  {
    FullCoverage(n);
    CoveredAll(n);
  }

  /** The main loop for k rounds, each with one complete pass between signals and swap. */
  method RunRounds(front: array<int>, back: array<int>, n: nat, k: nat)
    returns (foreground: array<int>, background: array<int>)
    requires n > 0 && front != back
    requires front.Length == CELLS && back.Length == CELLS
    modifies front, back
    ensures (foreground, background) == if k % 2 == 0 then (front, back) else (back, front)
    ensures (foreground[..], background[..]) == old(Rounds(front[..], back[..], n, k))
  {
    foreground, background := front, back;
    for r := 0 to k
      invariant (foreground, background) == if r % 2 == 0 then (front, back) else (back, front)
      invariant foreground.Length == CELLS && background.Length == CELLS
      invariant (foreground[..], background[..]) == old(Rounds(front[..], back[..], n, r))
    {
      ParallelPass(foreground, background, n);
      var tmp := foreground;
      foreground := background;
      background := tmp;
    }
  }

  /** If n divides 900, k rounds show the k-th generation, whatever the background held. */
  lemma {:induction false} RoundsAreGenerations(front: Cells, back: Cells, n: nat, k: nat)
    requires n > 0 && CELLS % n == 0
    ensures Rounds(front, back, n, k).0 == Generations(front, k)
  {
    if k == 0 {
    } else {
      RoundsAreGenerations(front, back, n, k - 1);
      var (f, b) := Rounds(front, back, n, k - 1);
      FullPass(f, b, n);
      GenerationsNext(front, k);
    }
  }

  lemma FullPass(front: Cells, back: Cells, n: nat)
    requires n > 0 && CELLS % n == 0
    ensures Pass(front, back, n) == Life(front)
  {
    CoveredAll(n);
  }

  const EMPTY: Cells := seq(CELLS, _ => 0)

  const FULL: Cells := seq(CELLS, _ => 1)

  /** Exactly the thread counts that divide 900 make the program a Game of Life. */
  lemma CorrectIffDivides(n: nat)
    requires n > 0
    ensures CELLS % n == 0 <==>
            forall front: Cells, back: Cells, k: nat :: Rounds(front, back, n, k).0 == Generations(front, k)
  {
    if CELLS % n == 0 {
      forall front: Cells, back: Cells, k: nat ensures Rounds(front, back, n, k).0 == Generations(front, k) {
        RoundsAreGenerations(front, back, n, k);
      }
    } else {
      UncoveredCellStays(n);
    }
  }

  /** Otherwise the last cell is never written: over an empty grid it shows what the
      background held. */
  lemma UncoveredCellStays(n: nat)
    requires n > 0 && CELLS % n != 0
    ensures Rounds(EMPTY, FULL, n, 1).0 != Generations(EMPTY, 1)
  {
    assert CELLS == n * (CELLS / n) + CELLS % n;
    assert Covered(n) < CELLS;
    var (f, b) := Rounds(EMPTY, FULL, n, 0);
    assert Rounds(EMPTY, FULL, n, 1).0 == Pass(EMPTY, FULL, n);
    assert Pass(EMPTY, FULL, n)[CELLS - 1] == 1;
    EmptyStaysEmpty(CELLS - 1);
    assert Generations(EMPTY, 1) == Life(Generations(EMPTY, 0)) == Life(EMPTY);
  }

  lemma EmptyStaysEmpty(k: nat)
    requires k < CELLS
    ensures Life(EMPTY)[k] == 0
  {
    NeighboursSum(EMPTY, k / WIDTH, k % WIDTH);
    assert forall r, c :: Count(EMPTY, r, c) == 0;
  }
}
