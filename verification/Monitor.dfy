/** The Santa and reindeer monitor of cw10: one mutex, two condition variables, a counter,
    and workers that come back for the next round.  Waiting on a condition variable is
    parking in its wait set, being woken (by a signal, a broadcast, or for no reason), and
    taking the mutex again.  The number of reindeers is also the threshold, 9 in the
    program. */
module Monitor {
  import opened Sums

  const DELIVERIES := 4

  /** Lines of reindeer_mechanic. */
  datatype DeerPc =
    | Vacation       // 21
    | Locking        // 23
    | Arrive         // 24
    | CheckNinth     // 27
    | Signal         // 29
    | CheckQueue     // 32
    | Parked         // 33, in the wait set
    | Woken          // 33, taking the mutex again
    | Unlocking      // 36

  /** Lines of santa_mechanic. */
  datatype SantaPc =
    | Loop               // 44
    | SantaLocking       // 45
    | CheckReindeers     // 47
    | Asleep             // 48, in the wait set
    | SantaWoken         // 48, taking the mutex again
    | Deliver            // 51-60
    | Reset              // 61
    | Broadcast          // 63
    | SantaUnlocking     // 64
    | Done               // 66

  /** `counted` and `arrivals` are history: whether this reindeer's increment is in the
      counter, and how often it executed line 24. */
  datatype Deer = Deer(pc: DeerPc, counted: bool, arrivals: nat)

  datatype Owner = Free | BySanta | ByDeer(deer: nat)

  /** `resets` is history: how often line 61 was executed. */
  datatype State = State(deer: seq<Deer>, santa: SantaPc, mutex: Owner, inQueue: nat, delivered: nat, resets: nat)

  /** Spurious wake-ups are moves of their own. */
  datatype Move = DeerMove(i: nat) | SantaMove | WakeDeer(i: nat) | WakeSanta

  predicate Init(s: State) {
    && |s.deer| > 0
    && (forall i :: 0 <= i < |s.deer| ==> s.deer[i] == Deer(Vacation, false, 0))
    && s.santa == Loop && s.mutex == Free && s.inQueue == 0 && s.delivered == 0 && s.resets == 0
  }

  predicate Enabled(s: State, m: Move) {
    match m
    case DeerMove(i) =>
      && i < |s.deer|
      && !s.deer[i].pc.Parked?
      && (s.deer[i].pc.Locking? || s.deer[i].pc.Woken? ==> s.mutex.Free?)
    case SantaMove =>
      && !s.santa.Asleep? && !s.santa.Done?
      && (s.santa.SantaLocking? || s.santa.SantaWoken? ==> s.mutex.Free?)
    case WakeDeer(i) => i < |s.deer| && s.deer[i].pc.Parked?
    case WakeSanta => s.santa.Asleep?
  }

  function SetPc(s: State, i: nat, pc: DeerPc): State
    requires i < |s.deer|
  {
    s.(deer := s.deer[i := s.deer[i].(pc := pc)])
  }

  function DeerNext(s: State, i: nat): State
    requires Enabled(s, DeerMove(i))
  {
    match s.deer[i].pc
    case Vacation => SetPc(s, i, Locking)
    case Locking => SetPc(s, i, Arrive).(mutex := ByDeer(i))
    case Arrive => s.(inQueue := s.inQueue + 1, deer := s.deer[i := Deer(CheckNinth, true, s.deer[i].arrivals + 1)])
    case CheckNinth => if s.inQueue == |s.deer| then SetPc(s, i, Signal) else SetPc(s, i, CheckQueue)
    case Signal => SetPc(s, i, CheckQueue).(santa := if s.santa.Asleep? then SantaWoken else s.santa)
    case CheckQueue => if s.inQueue > 0 then SetPc(s, i, Parked).(mutex := Free) else SetPc(s, i, Unlocking)
    case Woken => SetPc(s, i, CheckQueue).(mutex := ByDeer(i))
    case Unlocking => SetPc(s, i, Vacation).(mutex := Free)
  }

  function Uncount(deer: seq<Deer>): seq<Deer> {
    seq(|deer|, i requires 0 <= i < |deer| => deer[i].(counted := false))
  }

  function WakeAll(deer: seq<Deer>): seq<Deer> {
    seq(|deer|, i requires 0 <= i < |deer| => if deer[i].pc.Parked? then deer[i].(pc := Woken) else deer[i])
  }

  function SantaNext(s: State): State
    requires Enabled(s, SantaMove)
  {
    match s.santa
    case Loop => s.(santa := if s.delivered < DELIVERIES then SantaLocking else Done)
    case SantaLocking => s.(santa := CheckReindeers, mutex := BySanta)
    case CheckReindeers => if s.inQueue < |s.deer| then s.(santa := Asleep, mutex := Free) else s.(santa := Deliver)
    case SantaWoken => s.(santa := CheckReindeers, mutex := BySanta)
    case Deliver => s.(santa := Reset, delivered := s.delivered + 1)
    case Reset => s.(santa := Broadcast, inQueue := 0, resets := s.resets + 1, deer := Uncount(s.deer))
    case Broadcast => s.(santa := SantaUnlocking, deer := WakeAll(s.deer))
    case SantaUnlocking => s.(santa := Loop, mutex := Free)
  }

  function Next(s: State, m: Move): State
    requires Enabled(s, m)
  {
    match m
    case DeerMove(i) => DeerNext(s, i)
    case SantaMove => SantaNext(s)
    case WakeDeer(i) => SetPc(s, i, Woken)
    case WakeSanta => s.(santa := SantaWoken)
  }

  predicate StepBy(s: State, m: Move, s': State) {
    Enabled(s, m) && s' == Next(s, m)
  }

  /** A run from any state, with the moves that make it. */
  ghost predicate IsRun(tr: seq<State>, ms: seq<Move>) {
    && |tr| == |ms| + 1
    && forall k :: 0 <= k < |ms| ==> StepBy(tr[k], ms[k], tr[k + 1])
  }

  // ----- The invariant -----

  predicate DeerHolds(pc: DeerPc) {
    pc.Arrive? || pc.CheckNinth? || pc.Signal? || pc.CheckQueue? || pc.Unlocking?
  }

  predicate SantaHolds(pc: SantaPc) {
    pc.CheckReindeers? || pc.Deliver? || pc.Reset? || pc.Broadcast? || pc.SantaUnlocking?
  }

  /** Inside the wait loop at lines 32-34. */
  predicate InLoop(pc: DeerPc) {
    pc.CheckQueue? || pc.Parked? || pc.Woken?
  }

  function Counted(d: Deer): nat { if d.counted then 1 else 0 }

  ghost predicate DeerOk(s: State, i: nat)
    requires i < |s.deer|
  {
    var d := s.deer[i];
    && (DeerHolds(d.pc) <==> s.mutex == ByDeer(i))
    && (d.counted ==> InLoop(d.pc) || d.pc.CheckNinth? || d.pc.Signal?)
    && (d.pc.CheckNinth? || d.pc.Signal? ==> d.counted)
    && (d.pc.Signal? ==> s.inQueue == |s.deer|)
    && (d.pc.Parked? && s.inQueue == 0 ==> s.santa.Broadcast?)
    && d.arrivals == s.resets + Counted(d)
  }

  ghost predicate SantaOk(s: State) {
    && (SantaHolds(s.santa) <==> s.mutex == BySanta)
    && (s.santa.Deliver? || s.santa.Reset? ==> s.inQueue == |s.deer|)
    && (s.santa.Broadcast? || s.santa.SantaUnlocking? ==> s.inQueue == 0)
    && s.delivered == s.resets + (if s.santa.Reset? then 1 else 0)
    && s.delivered <= DELIVERIES
    && (s.santa.Done? ==> s.delivered == DELIVERIES)
    && (s.santa.SantaLocking? || s.santa.CheckReindeers? || s.santa.Asleep? || s.santa.SantaWoken? || s.santa.Deliver?
        ==> s.delivered < DELIVERIES)
  }

  /** Santa sleeps through a full queue only while the ninth reindeer is about to wake him. */
  ghost predicate WakeupComing(s: State) {
    s.santa.Asleep? && s.inQueue == |s.deer| ==>
      s.mutex.ByDeer? && s.mutex.deer < |s.deer| &&
      (s.deer[s.mutex.deer].pc.CheckNinth? || s.deer[s.mutex.deer].pc.Signal?)
  }

  ghost predicate Inv(s: State) {
    && |s.deer| > 0
    && (s.mutex.ByDeer? ==> s.mutex.deer < |s.deer|)
    && s.inQueue == Total(Counted, s.deer)
    && (forall i :: 0 <= i < |s.deer| ==> DeerOk(s, i))
    && SantaOk(s)
    && WakeupComing(s)
  }

  lemma InitInv(s: State)
    requires Init(s)
    ensures Inv(s)
  {
    TotalZero(Counted, s.deer);
  }

  /** The counter is at most the number of reindeers; one that is not counted leaves room and
      one that is keeps it positive. */
  lemma CounterBound(s: State)
    requires Inv(s)
    ensures s.inQueue <= |s.deer|
    ensures forall i :: 0 <= i < |s.deer| && !s.deer[i].counted ==> s.inQueue < |s.deer|
    ensures forall i :: 0 <= i < |s.deer| && s.deer[i].counted ==> s.inQueue > 0
  {
    TotalBounded(Counted, s.deer, 1);
    forall i | 0 <= i < |s.deer| && s.deer[i].counted ensures s.inQueue > 0 {
      TotalIncludes(Counted, s.deer, i);
    }
    forall i | 0 <= i < |s.deer| && !s.deer[i].counted ensures s.inQueue < |s.deer| {
      var all := s.deer[i := s.deer[i].(counted := true)];
      TotalUpdate(Counted, s.deer, i, s.deer[i].(counted := true));
      TotalBounded(Counted, all, 1);
    }
  }

  lemma DeerMoveOwn(s: State, i: nat)
    requires Enabled(s, DeerMove(i)) && DeerOk(s, i)
    requires s.deer[i].counted ==> s.inQueue > 0
    ensures DeerOk(DeerNext(s, i), i)
  {
  }

  lemma DeerMoveOther(s: State, i: nat, j: nat)
    requires Enabled(s, DeerMove(i)) && j < |s.deer| && DeerOk(s, i) && DeerOk(s, j) && i != j
    ensures DeerOk(DeerNext(s, i), j)
  {
  }

  lemma DeerMoveSanta(s: State, i: nat)
    requires Enabled(s, DeerMove(i)) && DeerOk(s, i) && SantaOk(s) && WakeupComing(s)
    requires !s.deer[i].counted ==> s.inQueue < |s.deer|
    ensures SantaOk(DeerNext(s, i)) && WakeupComing(DeerNext(s, i))
  {
  }

  lemma DeerMoveTotal(s: State, i: nat)
    requires Enabled(s, DeerMove(i)) && DeerOk(s, i) && s.inQueue == Total(Counted, s.deer)
    ensures var s' := DeerNext(s, i);
            && |s'.deer| == |s.deer| && s'.inQueue == Total(Counted, s'.deer)
            && (s'.mutex == s.mutex || s'.mutex == Free || s'.mutex == ByDeer(i))
  {
    var d := DeerNext(s, i).deer[i];
    assert DeerNext(s, i).deer == s.deer[i := d];
    TotalUpdate(Counted, s.deer, i, d);
  }

  lemma DeerMoveInv(s: State, i: nat)
    requires Inv(s) && Enabled(s, DeerMove(i))
    ensures Inv(DeerNext(s, i))
  {
    CounterBound(s);
    assert DeerOk(s, i);
    DeerMoveTotal(s, i);
    DeerMoveOwn(s, i);
    DeerMoveSanta(s, i);
    var s' := DeerNext(s, i);
    forall j | 0 <= j < |s'.deer| && j != i ensures DeerOk(s', j) {
      assert DeerOk(s, j);
      DeerMoveOther(s, i, j);
    }
  }

  lemma SantaMoveTotal(s: State)
    requires Enabled(s, SantaMove) && s.inQueue == Total(Counted, s.deer)
    ensures var s' := SantaNext(s);
            |s'.deer| == |s.deer| && s'.inQueue == Total(Counted, s'.deer) && (s'.mutex == s.mutex || !s'.mutex.ByDeer?)
  {
    var s' := SantaNext(s);
    if s.santa.Reset? {
      TotalZero(Counted, s'.deer);
    } else if s.santa.Broadcast? {
      TotalMonotone(Counted, s.deer, Counted, s'.deer);
      TotalMonotone(Counted, s'.deer, Counted, s.deer);
    }
  }

  lemma SantaMoveDeer(s: State, j: nat)
    requires Enabled(s, SantaMove) && j < |s.deer| && DeerOk(s, j) && SantaOk(s)
    requires s.santa.Reset? ==> s.deer[j].counted
    ensures j < |SantaNext(s).deer| && DeerOk(SantaNext(s), j)
  {
  }

  lemma SantaMoveOwn(s: State)
    requires Enabled(s, SantaMove) && SantaOk(s) && WakeupComing(s) && s.inQueue <= |s.deer|
    ensures SantaOk(SantaNext(s)) && WakeupComing(SantaNext(s))
  {
  }

  lemma SantaMoveInv(s: State)
    requires Inv(s) && Enabled(s, SantaMove)
    ensures Inv(SantaNext(s))
  {
    CounterBound(s);
    SantaMoveTotal(s);
    SantaMoveOwn(s);
    var s' := SantaNext(s);
    forall j | 0 <= j < |s'.deer| ensures DeerOk(s', j) {
      assert DeerOk(s, j);
      SantaMoveDeer(s, j);
    }
  }

  lemma StepInv(s: State, m: Move)
    requires Inv(s) && Enabled(s, m)
    ensures Inv(Next(s, m))
  {
    match m
    case DeerMove(i) => DeerMoveInv(s, i);
    case SantaMove => SantaMoveInv(s);
    case WakeDeer(i) =>
      var s' := Next(s, m);
      TotalUpdate(Counted, s.deer, i, s'.deer[i]);
      forall j | 0 <= j < |s'.deer| ensures DeerOk(s', j) {
        assert DeerOk(s, j);
      }
    case WakeSanta =>
      var s' := Next(s, m);
      forall j | 0 <= j < |s'.deer| ensures DeerOk(s', j) {
        assert DeerOk(s, j);
      }
  }

  lemma LastStep(tr: seq<State>, ms: seq<Move>)
    requires IsRun(tr, ms) && ms != []
    ensures var k := |ms| - 1;
            IsRun(tr[..|tr| - 1], ms[..k]) && Enabled(tr[k], ms[k]) && tr[|tr| - 1] == Next(tr[k], ms[k])
  {
    var k := |ms| - 1;
    assert StepBy(tr[k], ms[k], tr[k + 1]);
  }

  lemma DeerKept(s: State, m: Move)
    requires Enabled(s, m)
    ensures |Next(s, m).deer| == |s.deer|
  {
  }

  lemma {:induction false} RunInv(tr: seq<State>, ms: seq<Move>)
    requires IsRun(tr, ms) && Inv(tr[0])
    ensures Inv(tr[|tr| - 1]) && |tr[|tr| - 1].deer| == |tr[0].deer|
  {
    if ms == [] {
    } else {
      var k := |ms| - 1;
      LastStep(tr, ms);
      RunInv(tr[..|tr| - 1], ms[..k]);
      StepInv(tr[k], ms[k]);
      DeerKept(tr[k], ms[k]);
    }
  }

  // ----- What the counter means -----

  /** The reindeers that arrived since the last reset. */
  ghost function Arrived(s: State): set<nat> {
    set i: nat | i < |s.deer| && s.deer[i].arrivals > s.resets
  }

  ghost function CountedSet(deer: seq<Deer>): set<nat> {
    set i: nat | i < |deer| && deer[i].counted
  }

  lemma {:induction false} CountedCardinality(deer: seq<Deer>)
    ensures Total(Counted, deer) == |CountedSet(deer)|
  {
    if deer == [] {
      assert CountedSet(deer) == {};
    } else {
      var n := |deer| - 1;
      TotalLast(Counted, deer);
      CountedCardinality(deer[..n]);
      CountedLast(deer);
    }
  }

  /** The last reindeer is an element of its own. */
  lemma CountedLast(deer: seq<Deer>)
    requires deer != []
    ensures var n := |deer| - 1; |CountedSet(deer)| == |CountedSet(deer[..n])| + Counted(deer[n])
  {
    var n: nat := |deer| - 1;
    var before := CountedSet(deer[..n]);
    assert n !in before;
    assert forall i: nat :: i < n ==> deer[..n][i] == deer[i];
    assert CountedSet(deer) == before + if deer[n].counted then {n} else {};
  }

  lemma CountedIsArrived(s: State)
    requires Inv(s)
    ensures CountedSet(s.deer) == Arrived(s)
    ensures forall i :: 0 <= i < |s.deer| ==> (i in Arrived(s) <==> s.deer[i].counted)
  {
    forall i: nat | i < |s.deer| ensures s.deer[i].counted <==> s.deer[i].arrivals > s.resets {
      assert DeerOk(s, i);
    }
  }

  /** The counter is the number of distinct reindeers that arrived since the last reset, all
      of them between line 24 and the end of the wait loop. */
  lemma CounterIsArrived(s: State)
    requires Inv(s)
    ensures s.inQueue == |Arrived(s)| <= |s.deer|
    ensures forall i <- Arrived(s) :: InLoop(s.deer[i].pc) || s.deer[i].pc.CheckNinth? || s.deer[i].pc.Signal?
    ensures forall i :: 0 <= i < |s.deer| ==> s.deer[i].arrivals == s.resets + (if i in Arrived(s) then 1 else 0)
  {
    CounterBound(s);
    CountedCardinality(s.deer);
    CountedIsArrived(s);
    forall i | 0 <= i < |s.deer|
      ensures s.deer[i].counted ==> InLoop(s.deer[i].pc) || s.deer[i].pc.CheckNinth? || s.deer[i].pc.Signal?
      ensures s.deer[i].arrivals == s.resets + Counted(s.deer[i])
    {
      assert DeerOk(s, i);
    }
  }

  /** Santa leaves his wait loop only when every reindeer is back. */
  lemma SantaNeedsAll(s: State)
    requires Inv(s) && (s.santa.Deliver? || s.santa.Reset?)
    ensures forall i :: 0 <= i < |s.deer| ==> i in Arrived(s)
  {
    CounterBound(s);
    CountedIsArrived(s);
  }

  /** No lost wake-up: with the mutex free and Santa asleep the queue is not full. */
  lemma NoLostWakeup(s: State)
    requires Inv(s) && s.mutex.Free? && s.santa.Asleep?
    ensures s.inQueue < |s.deer|
  {
    CounterBound(s);
  }

  /** All of it in every run of the program. */
  lemma RunSafe(tr: seq<State>, ms: seq<Move>)
    requires IsRun(tr, ms) && Init(tr[0])
    ensures var s := tr[|tr| - 1];
            && s.inQueue == |Arrived(s)| <= |s.deer|
            && (forall i :: 0 <= i < |s.deer| ==> s.deer[i].arrivals == s.resets + (if i in Arrived(s) then 1 else 0))
            && (s.santa.Deliver? || s.santa.Reset? ==> s.inQueue == |s.deer|)
            && (s.mutex.Free? && s.santa.Asleep? ==> s.inQueue < |s.deer|)
            && s.resets <= s.delivered <= DELIVERIES
            && (s.santa.Done? ==> s.resets == DELIVERIES)
  {
    InitInv(tr[0]);
    RunInv(tr, ms);
    CounterIsArrived(tr[|tr| - 1]);
    CounterBound(tr[|tr| - 1]);
  }

  /** Who waits for what: a reindeer when it is in the wait set, or wants the mutex while someone is
      between taking it and giving it back; Santa likewise, and when he is done; and nobody else. */
  lemma WhoWaits(s: State)
    requires Inv(s)
    ensures forall i: nat :: i < |s.deer| ==>
              (!Enabled(s, DeerMove(i)) <==>
                 s.deer[i].pc.Parked? || ((s.deer[i].pc.Locking? || s.deer[i].pc.Woken?) && SomeoneInside(s)))
    ensures !Enabled(s, SantaMove) <==>
              s.santa.Asleep? || s.santa.Done? || ((s.santa.SantaLocking? || s.santa.SantaWoken?) && SomeoneInside(s))
  {
    if s.mutex.ByDeer? {
      assert DeerOk(s, s.mutex.deer);
    } else if s.mutex.Free? {
      forall j | 0 <= j < |s.deer| ensures !DeerHolds(s.deer[j].pc) {
        assert DeerOk(s, j);
      }
    }
  }

  predicate SomeoneInside(s: State) {
    SantaHolds(s.santa) || exists j :: 0 <= j < |s.deer| && DeerHolds(s.deer[j].pc)
  }

  /** A sleeper may wake at any time for no reason; where there is no reason, it goes back to sleep and
      nothing has changed. */
  lemma WakingForNothing(s: State, i: nat)
    requires i < |s.deer| && s.deer[i].pc.Parked?
    ensures Enabled(s, WakeDeer(i))
    ensures s.mutex.Free? && s.inQueue > 0 ==>
              var s1 := Next(s, WakeDeer(i));
              Enabled(s1, DeerMove(i)) && Enabled(Next(s1, DeerMove(i)), DeerMove(i))
              && Next(Next(s1, DeerMove(i)), DeerMove(i)) == s
  {
    if s.mutex.Free? && s.inQueue > 0 {
      var s3 := Next(Next(Next(s, WakeDeer(i)), DeerMove(i)), DeerMove(i));
      assert s3.deer == s.deer;
    }
  }

  lemma SantaWakingForNothing(s: State)
    requires s.santa.Asleep?
    ensures Enabled(s, WakeSanta)
    ensures s.mutex.Free? && s.inQueue < |s.deer| ==>
              var s1 := Next(s, WakeSanta);
              Enabled(s1, SantaMove) && Enabled(Next(s1, SantaMove), SantaMove)
              && Next(Next(s1, SantaMove), SantaMove) == s
  {
  }

  /** Past line 24 and not yet on vacation. */
  predicate Staying(pc: DeerPc) { !pc.Vacation? && !pc.Locking? && !pc.Arrive? }

  lemma StepStays(s: State, m: Move, i: nat)
    requires Enabled(s, m) && i < |s.deer| && Staying(s.deer[i].pc)
    ensures i < |Next(s, m).deer| && Next(s, m).deer[i].arrivals == s.deer[i].arrivals
    ensures Staying(Next(s, m).deer[i].pc) || Next(s, m).deer[i].pc.Vacation?
  {
  }

  /** A reindeer that has arrived does not arrive again before it has been on vacation. */
  lemma {:induction false} NoArrivalWithoutVacation(tr: seq<State>, ms: seq<Move>, i: nat)
    requires IsRun(tr, ms) && i < |tr[0].deer| && Staying(tr[0].deer[i].pc)
    requires forall k :: 0 <= k < |tr| && i < |tr[k].deer| ==> !tr[k].deer[i].pc.Vacation?
    ensures i < |tr[|tr| - 1].deer| && tr[|tr| - 1].deer[i].arrivals == tr[0].deer[i].arrivals
    ensures Staying(tr[|tr| - 1].deer[i].pc)
  {
    if ms == [] {
    } else {
      var k := |ms| - 1;
      LastStep(tr, ms);
      NoArrivalWithoutVacation(tr[..|tr| - 1], ms[..k], i);
      StepStays(tr[k], ms[k], i);
    }
  }
}
