/** When the monitor of cw10 goes on delivering, and the one way it gets lost. */
module MonitorProgress {
  import opened Monitor
  import opened Sums

  // ----- When the next delivery can still happen -----

  /** A released reindeer that has not yet left the wait loop. */
  predicate Released(d: Deer) {
    !d.counted && InLoop(d.pc)
  }

  /** The state is lost once a released reindeer will re-check a counter that is positive, or
      is about to become so because another reindeer already has the mutex at line 24. */
  ghost predicate Lost(s: State) {
    && (exists j :: 0 <= j < |s.deer| && Released(s.deer[j]))
    && (s.inQueue > 0 || exists i :: 0 <= i < |s.deer| && s.deer[i].pc.Arrive?)
  }

  /** A lost state stays lost, under any move: the counter never reaches the threshold again
      and no delivery follows. */
  lemma LostForever(s: State, m: Move)
    requires Inv(s) && Lost(s) && Enabled(s, m)
    ensures Lost(Next(s, m)) && Next(s, m).resets == s.resets
  {
    CounterBound(s);
    var j :| 0 <= j < |s.deer| && Released(s.deer[j]);
    assert DeerOk(s, j);
    QueueStays(s, m);
    if s.inQueue > 0 {
      StaysReleased(s, m, j);
    } else {
      var i :| 0 <= i < |s.deer| && s.deer[i].pc.Arrive?;
      assert DeerOk(s, i);
      StaysReleased(s, m, j);
      ArriveStays(s, m, i);
    }
  }

  /** Only the reset empties the queue. */
  lemma QueueStays(s: State, m: Move)
    requires Enabled(s, m) && !(m.SantaMove? && s.santa.Reset?)
    ensures Next(s, m).inQueue >= s.inQueue && Next(s, m).resets == s.resets
  {
  }

  lemma ArriveStays(s: State, m: Move, i: nat)
    requires Enabled(s, m) && i < |s.deer| && s.deer[i].pc.Arrive? && !(m.SantaMove? && s.santa.Reset?)
    ensures i < |Next(s, m).deer| && (Next(s, m).deer[i].pc.Arrive? || Next(s, m).inQueue > 0)
  {
  }

  /** A released reindeer gets away only by re-checking an empty queue. */
  lemma StaysReleased(s: State, m: Move, j: nat)
    requires Enabled(s, m) && j < |s.deer| && Released(s.deer[j]) && DeerOk(s, j)
    requires m == DeerMove(j) && s.deer[j].pc.CheckQueue? ==> s.inQueue > 0
    ensures Released(Next(s, m).deer[j])
  {
  }

  lemma {:induction false} LostRun(tr: seq<State>, ms: seq<Move>)
    requires IsRun(tr, ms) && Inv(tr[0]) && Lost(tr[0])
    ensures Lost(tr[|tr| - 1]) && tr[|tr| - 1].resets == tr[0].resets
  {
    if ms == [] {
    } else {
      var k := |ms| - 1;
      LostRun(tr[..|tr| - 1], ms[..k]);
      RunInv(tr[..|tr| - 1], ms[..k]);
      LastStep(tr, ms);
      LostForever(tr[k], ms[k]);
    }
  }

  /** The only way to get lost: a reindeer gets the mutex at line 23 while another one,
      released in the last round, has not re-checked the counter yet. */
  predicate OvertakesReleased(s: State, m: Move) {
    && m.DeerMove? && m.i < |s.deer| && s.deer[m.i].pc.Locking?
    && exists j :: 0 <= j < |s.deer| && Released(s.deer[j])
  }

  lemma HowToGetLost(s: State, m: Move)
    requires Inv(s) && !Lost(s) && Enabled(s, m)
    ensures Lost(Next(s, m)) <==> OvertakesReleased(s, m)
  {
    if OvertakesReleased(s, m) {
      OvertakingLoses(s, m);
    }
    if Lost(Next(s, m)) {
      LostByOvertaking(s, m);
    }
  }

  lemma OvertakingLoses(s: State, m: Move)
    requires Enabled(s, m) && OvertakesReleased(s, m)
    ensures Lost(Next(s, m))
  {
    var s' := Next(s, m);
    var j :| 0 <= j < |s.deer| && Released(s.deer[j]);
    assert Released(s'.deer[j]);
    assert s'.deer[m.i].pc.Arrive?;
  }

  lemma LostByOvertaking(s: State, m: Move)
    requires Inv(s) && !Lost(s) && Enabled(s, m) && Lost(Next(s, m))
    ensures OvertakesReleased(s, m)
  {
    var s' := Next(s, m);
    var j :| 0 <= j < |s'.deer| && Released(s'.deer[j]);
    assert DeerOk(s, j);
    ReleasedBefore(s, m, j);
    if s'.inQueue == 0 {
      var i :| 0 <= i < |s'.deer| && s'.deer[i].pc.Arrive?;
      ArriveByLocking(s, m, i);
    }
  }

  /** Only the reset releases reindeers, and it empties the queue. */
  lemma ReleasedBefore(s: State, m: Move, j: nat)
    requires Enabled(s, m) && j < |s.deer| && Released(Next(s, m).deer[j]) && DeerOk(s, j)
    requires SantaOk(s) && (s.mutex.ByDeer? ==> s.mutex.deer < |s.deer|)
    requires forall i :: 0 <= i < |s.deer| ==> DeerOk(s, i)
    ensures Released(s.deer[j])
         || (m.SantaMove? && s.santa.Reset? && forall i :: 0 <= i < |s.deer| ==> !Next(s, m).deer[i].pc.Arrive?)
    ensures !Released(s.deer[j]) ==> Next(s, m).inQueue == 0
    ensures Next(s, m).inQueue > 0 ==> s.inQueue > 0 || (m.DeerMove? && s.deer[m.i].pc.Arrive?)
  {
    forall i | 0 <= i < |s.deer| && s.mutex.BySanta? ensures !s.deer[i].pc.Arrive? {
      assert DeerOk(s, i);
    }
  }

  lemma ArriveByLocking(s: State, m: Move, i: nat)
    requires Enabled(s, m) && i < |s.deer| && Next(s, m).deer[i].pc.Arrive?
    ensures s.deer[i].pc.Arrive? || (m == DeerMove(i) && s.deer[i].pc.Locking?)
  {
  }

  // ----- Progress while not lost -----

  /** A bound on the moves a reindeer still makes before the next delivery. */
  function DeerRank(d: Deer): nat {
    match d.pc
    case Parked => if d.counted then 0 else 10
    case CheckQueue => if d.counted then 1 else 8
    case Woken => if d.counted then 2 else 9
    case Signal => 2
    case CheckNinth => 3
    case Arrive => 4
    case Locking => 5
    case Vacation => 6
    case Unlocking => 7
  }

  /** The same for Santa, who has less to do once the queue is full. */
  function SantaRank(pc: SantaPc, full: bool): nat {
    match pc
    case Broadcast => 10
    case SantaUnlocking => 9
    case Loop => if full then 6 else 8
    case SantaLocking => if full then 5 else 7
    case CheckReindeers => if full then 3 else 6
    case Asleep => 5
    case SantaWoken => if full then 4 else 7
    case Deliver => 2
    case Reset => 1
    case Done => 0
  }

  function Measure(s: State): nat {
    Total(DeerRank, s.deer) + SantaRank(s.santa, s.inQueue == |s.deer|)
  }

  lemma MeasureBound(s: State)
    ensures Measure(s) <= 10 * |s.deer| + 10
  {
    TotalBounded(DeerRank, s.deer, 10);
  }

  predicate Spurious(m: Move) { m.WakeDeer? || m.WakeSanta? }

  lemma DeerRankDrops(s: State, i: nat)
    requires Enabled(s, DeerMove(i)) && DeerOk(s, i)
    requires s.deer[i].counted ==> s.inQueue > 0
    requires Released(s.deer[i]) ==> s.inQueue == 0
    ensures DeerRank(DeerNext(s, i).deer[i]) < DeerRank(s.deer[i])
  {
  }

  lemma SantaRankKept(s: State, i: nat)
    requires Enabled(s, DeerMove(i)) && DeerOk(s, i) && (!s.deer[i].counted ==> s.inQueue < |s.deer|)
    ensures var s' := DeerNext(s, i);
            SantaRank(s'.santa, s'.inQueue == |s'.deer|) <= SantaRank(s.santa, s.inQueue == |s.deer|)
  {
  }

  lemma SantaMeasure(s: State)
    requires Inv(s) && Enabled(s, SantaMove) && !s.santa.Reset?
    ensures Measure(SantaNext(s)) < Measure(s)
  {
    var s' := SantaNext(s);
    CounterBound(s);
    if s.santa.Broadcast? {
      TotalMonotone(DeerRank, s'.deer, DeerRank, s.deer);
    }
  }

  lemma DeerMeasure(s: State, i: nat)
    requires Inv(s) && !Lost(s) && Enabled(s, DeerMove(i))
    ensures Measure(DeerNext(s, i)) < Measure(s)
  {
    var s' := DeerNext(s, i);
    CounterBound(s);
    assert DeerOk(s, i);
    assert s'.deer == s.deer[i := s'.deer[i]];
    TotalUpdate(DeerRank, s.deer, i, s'.deer[i]);
    DeerRankDrops(s, i);
    SantaRankKept(s, i);
  }

  lemma SpuriousMeasure(s: State, m: Move)
    requires Enabled(s, m) && Spurious(m)
    ensures Measure(Next(s, m)) <= Measure(s) + 2
  {
    if m.WakeDeer? {
      TotalUpdate(DeerRank, s.deer, m.i, Next(s, m).deer[m.i]);
    }
  }

  /** Until the next delivery, every move that is not a spurious wake-up gets closer to it,
      and a spurious one costs at most two moves. */
  lemma MeasureStep(s: State, m: Move)
    requires Inv(s) && !Lost(s) && Enabled(s, m) && Next(s, m).resets == s.resets
    ensures !Spurious(m) ==> Measure(Next(s, m)) < Measure(s)
    ensures Spurious(m) ==> Measure(Next(s, m)) <= Measure(s) + 2
  {
    match m
    case SantaMove => SantaMeasure(s);
    case DeerMove(i) => DeerMeasure(s, i);
    case _ => SpuriousMeasure(s, m);
  }

  ghost function SpuriousCount(ms: seq<Move>): nat {
    if ms == [] then 0 else SpuriousCount(ms[..|ms| - 1]) + (if Spurious(ms[|ms| - 1]) then 1 else 0)
  }

  ghost predicate NobodyOvertakes(tr: seq<State>, ms: seq<Move>)
    requires |tr| == |ms| + 1
  {
    forall k :: 0 <= k < |ms| ==> !OvertakesReleased(tr[k], ms[k])
  }

  lemma OvertakesSplit(tr: seq<State>, ms: seq<Move>)
    requires |tr| == |ms| + 1 && ms != [] && NobodyOvertakes(tr, ms)
    ensures NobodyOvertakes(tr[..|tr| - 1], ms[..|ms| - 1]) && !OvertakesReleased(tr[|ms| - 1], ms[|ms| - 1])
  {
    var tr', ms' := tr[..|tr| - 1], ms[..|ms| - 1];
    forall j | 0 <= j < |ms'| ensures !OvertakesReleased(tr'[j], ms'[j]) {
      assert !OvertakesReleased(tr[j], ms[j]);
    }
  }

  /** A run without delivery in which no reindeer overtakes a released one has a bounded
      number of moves, apart from spurious wake-ups. */
  lemma {:induction false} DeliveryIsDue(tr: seq<State>, ms: seq<Move>)
    requires IsRun(tr, ms) && Inv(tr[0]) && !Lost(tr[0]) && NobodyOvertakes(tr, ms)
    requires tr[|tr| - 1].resets == tr[0].resets
    ensures Inv(tr[|tr| - 1]) && !Lost(tr[|tr| - 1])
    ensures |ms| + Measure(tr[|tr| - 1]) <= Measure(tr[0]) + 3 * SpuriousCount(ms)
  {
    if ms == [] {
    } else {
      var k := |ms| - 1;
      var tr', ms' := tr[..|tr| - 1], ms[..k];
      OvertakesSplit(tr, ms);
      LastStep(tr, ms);
      ResetsGrow(tr', ms');
      ResetGrows(tr[k], ms[k]);
      DeliveryIsDue(tr', ms');
      StepInv(tr[k], ms[k]);
      HowToGetLost(tr[k], ms[k]);
      MeasureStep(tr[k], ms[k]);
    }
  }

  lemma ResetGrows(s: State, m: Move)
    requires Enabled(s, m)
    ensures Next(s, m).resets >= s.resets
  {
  }

  lemma {:induction false} ResetsGrow(tr: seq<State>, ms: seq<Move>)
    requires IsRun(tr, ms)
    ensures tr[|tr| - 1].resets >= tr[0].resets
  {
    if ms == [] {
    } else {
      var k := |ms| - 1;
      ResetsGrow(tr[..|tr| - 1], ms[..k]);
      LastStep(tr, ms);
      ResetGrows(tr[k], ms[k]);
    }
  }

  // ----- The whole program is bounded -----

  /** Moves left over all deliveries: what is left of this round, and a full round for each
      delivery still to come. */
  function MovesLeft(s: State): int {
    Measure(s) + (DELIVERIES - s.resets) * (10 * |s.deer| + 10)
  }

  /** A delivery uses up its round. */
  lemma MovesLeftStep(s: State, m: Move)
    requires Inv(s) && !Lost(s) && Enabled(s, m)
    ensures MovesLeft(Next(s, m)) <= MovesLeft(s) + (if Spurious(m) then 2 else -1)
  {
    var s' := Next(s, m);
    DeerKept(s, m);
    if s'.resets == s.resets {
      MeasureStep(s, m);
    } else {
      MeasureBound(s');
      ResetMeasured(s, m);
      OneRoundLess(DELIVERIES - s.resets, 10 * |s.deer| + 10);
    }
  }

  lemma ResetMeasured(s: State, m: Move)
    requires Enabled(s, m) && Next(s, m).resets != s.resets
    ensures m.SantaMove? && Next(s, m).resets == s.resets + 1 && Measure(s) >= 1
  {
  }

  lemma OneRoundLess(rounds: int, length: int)
    ensures (rounds - 1) * length == rounds * length - length
  {
  }

  lemma {:induction false} MovesAreBounded(tr: seq<State>, ms: seq<Move>)
    requires IsRun(tr, ms) && Inv(tr[0]) && !Lost(tr[0]) && NobodyOvertakes(tr, ms)
    ensures Inv(tr[|tr| - 1]) && !Lost(tr[|tr| - 1])
    ensures |ms| + MovesLeft(tr[|tr| - 1]) <= MovesLeft(tr[0]) + 3 * SpuriousCount(ms)
  {
    if ms == [] {
    } else {
      var k := |ms| - 1;
      OvertakesSplit(tr, ms);
      MovesAreBounded(tr[..|tr| - 1], ms[..k]);
      LastStep(tr, ms);
      StepInv(tr[k], ms[k]);
      HowToGetLost(tr[k], ms[k]);
      MovesLeftStep(tr[k], ms[k]);
    }
  }

  lemma NobodyReleased(s: State)
    requires Init(s)
    ensures Inv(s) && !Lost(s)
  {
    InitInv(s);
  }

  lemma FullProgram(s: State)
    requires s.resets == 0
    ensures MovesLeft(s) <= 50 * |s.deer| + 50
  {
    MeasureBound(s);
  }

  lemma SomeMovesLeft(s: State)
    requires SantaOk(s)
    ensures MovesLeft(s) >= 0
  {
    var rounds: nat, length: nat := DELIVERIES - s.resets, 10 * |s.deer| + 10;
    assert rounds * length >= 0;
  }

  /** The program makes its four deliveries unless a released reindeer is overtaken: a run in which
      none is has at most fifty moves for each reindeer and fifty more, plus three for each
      spurious wake-up, and while the fourth delivery is missing it can go on without a spurious
      wake-up or an overtaking. */
  lemma ProgramDelivers(tr: seq<State>, ms: seq<Move>)
    requires IsRun(tr, ms) && Init(tr[0]) && NobodyOvertakes(tr, ms)
    ensures |ms| <= 50 * |tr[0].deer| + 50 + 3 * SpuriousCount(ms)
    ensures var last := tr[|tr| - 1];
            last.resets == DELIVERIES || exists m :: Enabled(last, m) && !Spurious(m) && !OvertakesReleased(last, m)
  {
    var last := tr[|tr| - 1];
    NobodyReleased(tr[0]);
    MovesAreBounded(tr, ms);
    FullProgram(tr[0]);
    SomeMovesLeft(last);
    if last.resets < DELIVERIES {
      var m := GoodMove(last);
    }
  }

  /** Before the last delivery a state that is not lost is not stuck either: some move that is
      no spurious wake-up is enabled and does not get lost. */
  lemma NotStuck(s: State) returns (m: Move)
    requires Inv(s) && !Lost(s) && s.resets < DELIVERIES
    ensures Enabled(s, m) && !Spurious(m) && !Lost(Next(s, m))
  {
    m := GoodMove(s);
    HowToGetLost(s, m);
  }

  lemma GoodMove(s: State) returns (m: Move)
    requires Inv(s) && !Lost(s) && s.resets < DELIVERIES
    ensures Enabled(s, m) && !Spurious(m) && !OvertakesReleased(s, m)
  {
    if s.mutex.BySanta? {
      return SantaMove;
    }
    if s.mutex.ByDeer? {
      assert DeerOk(s, s.mutex.deer);
      return DeerMove(s.mutex.deer);
    }
    if i: nat :| i < |s.deer| && s.deer[i].pc.Woken? {
      return DeerMove(i);
    }
    forall j | 0 <= j < |s.deer| ensures Released(s.deer[j]) ==> s.deer[j].pc.Parked? && s.inQueue > 0 {
      assert DeerOk(s, j);
    }
    if i: nat :| i < |s.deer| && !s.deer[i].pc.Parked? {
      assert DeerOk(s, i);
      return DeerMove(i);
    }
    AllParked(s);
    return SantaMove;
  }

  /** When every reindeer is parked, all are counted, so Santa is up. */
  lemma AllParked(s: State)
    requires Inv(s) && !Lost(s) && s.mutex.Free?
    requires forall i :: 0 <= i < |s.deer| ==> s.deer[i].pc.Parked?
    ensures s.inQueue == |s.deer| && !s.santa.Asleep?
  {
    CounterBound(s);
    forall i | 0 <= i < |s.deer| ensures s.deer[i].counted {
      assert DeerOk(s, i);
      if !s.deer[i].counted {
        assert Released(s.deer[i]);
      }
    }
    AllCounted(s.deer);
  }

  lemma {:induction false} AllCounted(deer: seq<Deer>)
    requires forall i :: 0 <= i < |deer| ==> deer[i].counted
    ensures Total(Counted, deer) == |deer|
  {
    if deer == [] {
    } else {
      AllCounted(deer[1..]);
    }
  }

  /** Just after line 61 every reindeer is released and none is lost. */
  ghost predicate JustDelivered(s: State) {
    && Inv(s) && !Lost(s) && s.santa.Broadcast?
    && forall i :: 0 <= i < |s.deer| ==> Released(s.deer[i])
  }

  lemma DeliveryReleases(s: State, m: Move)
    requires Inv(s) && Enabled(s, m) && Next(s, m).resets != s.resets
    ensures JustDelivered(Next(s, m)) && Next(s, m).resets == s.resets + 1
  {
    StepInv(s, m);
    var s' := Next(s, m);
    CountedIsArrived(s);
    SantaNeedsAll(s);
    forall i | 0 <= i < |s.deer| ensures Released(s'.deer[i]) {
      assert DeerOk(s, i);
    }
  }

  lemma Prepend(s: State, m: Move, tr: seq<State>, ms: seq<Move>)
    requires IsRun(tr, ms) && StepBy(s, m, tr[0])
    ensures IsRun([s] + tr, [m] + ms)
  {
    var tr', ms' := [s] + tr, [m] + ms;
    forall k | 0 <= k < |ms'| ensures StepBy(tr'[k], ms'[k], tr'[k + 1]) {
      if k > 0 {
        assert StepBy(tr[k - 1], ms[k - 1], tr[k]);
      }
    }
  }

  /** The run that follows the moves `NotStuck` picks, up to line 61. */
  lemma {:induction false} ReachDelivery(s: State) returns (tr: seq<State>, ms: seq<Move>)
    requires Inv(s) && !Lost(s) && s.resets < DELIVERIES
    ensures IsRun(tr, ms) && tr[0] == s
    ensures var last := tr[|tr| - 1];
            JustDelivered(last) && last.resets == s.resets + 1 && |last.deer| == |s.deer|
    decreases Measure(s)
  {
    var m := Closer(s);
    var s' := Next(s, m);
    if s'.resets == s.resets {
      var tr', ms' := ReachDelivery(s');
      Prepend(s, m, tr', ms');
      tr, ms := [s] + tr', [m] + ms';
    } else {
      DeliveryReleases(s, m);
      tr, ms := [s, s'], [m];
    }
  }

  lemma Closer(s: State) returns (m: Move)
    requires Inv(s) && !Lost(s) && s.resets < DELIVERIES
    ensures Enabled(s, m) && Inv(Next(s, m)) && !Lost(Next(s, m)) && |Next(s, m).deer| == |s.deer|
    ensures Next(s, m).resets == s.resets ==> Measure(Next(s, m)) < Measure(s)
  {
    m := NotStuck(s);
    StepInv(s, m);
    if Next(s, m).resets == s.resets {
      MeasureStep(s, m);
    }
  }

  ghost predicate CanDeliver(s: State) {
    exists tr: seq<State>, ms: seq<Move> :: IsRun(tr, ms) && tr[0] == s && tr[|tr| - 1].resets > s.resets
  }

  /** Exactly the states that are not lost can still reach the next delivery. */
  lemma CanDeliverUnlessLost(s: State)
    requires Inv(s) && s.resets < DELIVERIES
    ensures CanDeliver(s) <==> !Lost(s)
  {
    if Lost(s) {
      forall tr: seq<State>, ms: seq<Move> | IsRun(tr, ms) && tr[0] == s ensures tr[|tr| - 1].resets == s.resets {
        LostRun(tr, ms);
      }
    } else {
      var tr, ms := ReachDelivery(s);
    }
  }

  lemma Extend(tr: seq<State>, ms: seq<Move>, m: Move) returns (tr': seq<State>, ms': seq<Move>)
    requires IsRun(tr, ms) && Enabled(tr[|tr| - 1], m)
    ensures IsRun(tr', ms') && tr'[0] == tr[0] && tr'[|tr'| - 1] == Next(tr[|tr| - 1], m)
    ensures ms' == ms + [m]
  {
    tr', ms' := tr + [Next(tr[|tr| - 1], m)], ms + [m];
    forall k | 0 <= k < |ms'| ensures StepBy(tr'[k], ms'[k], tr'[k + 1]) {
      if k < |ms| {
        assert StepBy(tr[k], ms[k], tr[k + 1]);
      }
    }
  }

  /** The program can get lost: with two or more reindeers there is a run in which the first
      one is back and overtakes the second, still waiting for the mutex after the first
      delivery. */
  lemma LostIsReachable(s: State) returns (tr: seq<State>, ms: seq<Move>)
    requires Init(s) && |s.deer| >= 2
    ensures IsRun(tr, ms) && tr[0] == s
    ensures Lost(tr[|tr| - 1]) && tr[|tr| - 1].resets == 1
  {
    InitInv(s);
    tr, ms := ReachDelivery(s);
    var s0 := tr[|tr| - 1];
    assert Released(s0.deer[0]) && Released(s0.deer[1]);
    assert DeerOk(s0, 0) && DeerOk(s0, 1);
    tr, ms := Extend(tr, ms, SantaMove);   // broadcast
    tr, ms := Extend(tr, ms, SantaMove);   // unlock
    tr, ms := Overtake(tr, ms);
  }

  lemma Overtake(tr: seq<State>, ms: seq<Move>) returns (tr': seq<State>, ms': seq<Move>)
    requires IsRun(tr, ms) && |tr[|tr| - 1].deer| >= 2
    requires var s := tr[|tr| - 1];
             && s.mutex.Free? && s.inQueue == 0 && s.deer[0].pc.Woken? && Released(s.deer[1])
    ensures IsRun(tr', ms') && tr'[0] == tr[0]
    ensures Lost(tr'[|tr'| - 1]) && tr'[|tr'| - 1].resets == tr[|tr| - 1].resets
  {
    tr', ms' := Extend(tr, ms, DeerMove(0));   // take the mutex again
    tr', ms' := Extend(tr', ms', DeerMove(0)); // the counter is zero
    tr', ms' := Extend(tr', ms', DeerMove(0)); // unlock
    tr', ms' := Extend(tr', ms', DeerMove(0)); // vacation
    tr', ms' := Extend(tr', ms', DeerMove(0)); // lock
    var s' := tr'[|tr'| - 1];
    assert s'.deer[0].pc.Arrive? && Released(s'.deer[1]);
  }

  /** Nothing else is needed for all deliveries: some run makes them all. */
  lemma AllDeliveriesReachable(s: State) returns (tr: seq<State>, ms: seq<Move>)
    requires Inv(s) && !Lost(s)
    ensures IsRun(tr, ms) && tr[0] == s
    ensures tr[|tr| - 1].resets == DELIVERIES
    decreases DELIVERIES - s.resets
  {
    if s.resets == DELIVERIES {
      return [s], [];
    }
    var tr0, ms0 := ReachDelivery(s);
    var tr1, ms1 := AllDeliveriesReachable(tr0[|tr0| - 1]);
    Chain(tr0, ms0, tr1, ms1);
    tr, ms := tr0 + tr1[1..], ms0 + ms1;
  }

  lemma Chain(tr0: seq<State>, ms0: seq<Move>, tr1: seq<State>, ms1: seq<Move>)
    requires IsRun(tr0, ms0) && IsRun(tr1, ms1) && tr1[0] == tr0[|tr0| - 1]
    ensures var tr := tr0 + tr1[1..]; IsRun(tr, ms0 + ms1) && tr[0] == tr0[0] && tr[|tr| - 1] == tr1[|tr1| - 1]
  {
    var tr, ms := tr0 + tr1[1..], ms0 + ms1;
    forall k | 0 <= k < |ms| ensures StepBy(tr[k], ms[k], tr[k + 1]) {
      if k < |ms0| {
        assert StepBy(tr0[k], ms0[k], tr0[k + 1]);
      } else {
        assert StepBy(tr1[k - |ms0|], ms1[k - |ms0|], tr1[k - |ms0| + 1]);
      }
    }
  }
}
