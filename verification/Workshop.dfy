/** The globals of cw10 and the lines of its two thread functions as updates in place, each
    proved to make exactly the step of the protocol in Monitor. */
module WorkshopMemory {
  import opened Monitor
  import opened MonitorProgress

  class Workshop {
    var reindeersInQueue: nat
    var deliveredPresents: nat
    var mutex: Owner
    var santa: SantaPc
    var deer: seq<Deer>
    // History, not part of the source: how often line 61 was executed.
    var resets: nat

    ghost function View(): State
      reads this
    {
      State(deer, santa, mutex, reindeersInQueue, deliveredPresents, resets)
    }

    /** All threads at the top of their loops. */
    constructor (reindeers: nat)
      requires reindeers > 0
      ensures Init(View()) && |deer| == reindeers
    {
      reindeersInQueue, deliveredPresents, resets := 0, 0, 0;
      mutex, santa := Free, Loop;
      deer := seq(reindeers, _ => Deer(Vacation, false, 0));
    }

    method GoTo(i: nat, pc: DeerPc)
      requires i < |deer|
      modifies this`deer
      ensures View() == old(SetPc(View(), i, pc))
    {
      deer := deer[i := deer[i].(pc := pc)];
    }

    /** The next line of reindeer_mechanic in thread i. */
    method ReindeerLine(i: nat)
      requires Enabled(View(), DeerMove(i))
      modifies this
      ensures View() == old(Next(View(), DeerMove(i)))
    {
      match deer[i].pc
      case Vacation =>
        GoTo(i, Locking);
      case Locking =>
        mutex := ByDeer(i);
        GoTo(i, Arrive);
      case Arrive =>
        reindeersInQueue := reindeersInQueue + 1;
        deer := deer[i := Deer(CheckNinth, true, deer[i].arrivals + 1)];
      case CheckNinth =>
        GoTo(i, if reindeersInQueue == |deer| then Signal else CheckQueue);
      case Signal =>
        if santa.Asleep? {
          santa := SantaWoken;
        }
        GoTo(i, CheckQueue);
      case CheckQueue =>
        if reindeersInQueue > 0 {
          mutex := Free;
          GoTo(i, Parked);
        } else {
          GoTo(i, Unlocking);
        }
      case Woken =>
        mutex := ByDeer(i);
        GoTo(i, CheckQueue);
      case Unlocking =>
        mutex := Free;
        GoTo(i, Vacation);
    }

    /** The next line of santa_mechanic. */
    method SantaLine()
      requires Enabled(View(), SantaMove)
      modifies this
      ensures View() == old(Next(View(), SantaMove))
    {
      match santa
      case Loop =>
        santa := if deliveredPresents < DELIVERIES then SantaLocking else Done;
      case SantaLocking =>
        mutex := BySanta;
        santa := CheckReindeers;
      case CheckReindeers =>
        if reindeersInQueue < |deer| {
          mutex := Free;
          santa := Asleep;
        } else {
          santa := Deliver;
        }
      case SantaWoken =>
        mutex := BySanta;
        santa := CheckReindeers;
      case Deliver =>
        deliveredPresents := deliveredPresents + 1;
        santa := Reset;
      case Reset =>
        reindeersInQueue := 0;
        resets := resets + 1;
        deer := Uncount(deer);
        santa := Broadcast;
      case Broadcast =>
        WakeEveryone();
        santa := SantaUnlocking;
      case SantaUnlocking =>
        mutex := Free;
        santa := Loop;
    }

    /** pthread_cond_broadcast: every thread in the wait set is woken. */
    method WakeEveryone()
      modifies this`deer
      ensures deer == WakeAll(old(deer))
    {
      for i := 0 to |deer|
        invariant |deer| == |old(deer)|
        invariant forall k :: 0 <= k < i ==> deer[k] == WakeAll(old(deer))[k]
        invariant forall k :: i <= k < |deer| ==> deer[k] == old(deer)[k]
      {
        if deer[i].pc.Parked? {
          GoTo(i, Woken);
        }
      }
    }

    /** One move, passed over when it is not possible at its turn. */
    method Play(m: Move)
      modifies this
      ensures View() == old(Played(View(), m))
    {
      match m
      case DeerMove(i) =>
        if i < |deer| && !deer[i].pc.Parked? && (deer[i].pc.Locking? || deer[i].pc.Woken? ==> mutex.Free?) {
          ReindeerLine(i);
        }
      case SantaMove =>
        if !santa.Asleep? && !santa.Done? && (santa.SantaLocking? || santa.SantaWoken? ==> mutex.Free?) {
          SantaLine();
        }
      case WakeDeer(i) =>
        if i < |deer| && deer[i].pc.Parked? {
          GoTo(i, Woken);
        }
      case WakeSanta =>
        if santa.Asleep? {
          santa := SantaWoken;
        }
    }

    /** Any sequence of moves, spurious wake-ups included, ends with the counter at the number of
        reindeers that arrived since the last reset, and Santa past his wait loop only when that
        is all of them. */
    method Run(moves: seq<Move>)
      requires Inv(View())
      modifies this
      ensures View() == old(PlayedAll(View(), moves)) && Inv(View())
      ensures reindeersInQueue == |Arrived(View())| <= |deer|
      ensures forall i :: 0 <= i < |deer| ==> deer[i].arrivals == resets + (if i in Arrived(View()) then 1 else 0)
      ensures santa.Deliver? || santa.Reset? ==> reindeersInQueue == |deer|
      ensures mutex.Free? && santa.Asleep? ==> reindeersInQueue < |deer|
      ensures resets <= deliveredPresents <= DELIVERIES && (santa.Done? ==> resets == DELIVERIES)
    {
      ghost var before := View();
      for k := 0 to |moves|
        invariant View() == PlayedAll(before, moves[..k])
      {
        assert moves[..k + 1][..k] == moves[..k];
        Play(moves[k]);
      }
      assert moves == moves[..|moves|];
      PlayedAllInv(before, moves);
      CounterIsArrived(View());
      CounterBound(View());
    }
  }

  function Played(s: State, m: Move): State {
    if Enabled(s, m) then Next(s, m) else s
  }

  function PlayedAll(s: State, moves: seq<Move>): State {
    if moves == [] then s else Played(PlayedAll(s, moves[..|moves| - 1]), moves[|moves| - 1])
  }

  /** Whatever moves are played, the workshop ends in a state of the protocol's invariant. */
  lemma {:induction false} PlayedAllInv(s: State, moves: seq<Move>)
    requires Inv(s)
    ensures Inv(PlayedAll(s, moves))
  {
    if moves == [] {
    } else {
      var k := |moves| - 1;
      PlayedAllInv(s, moves[..k]);
      var now := PlayedAll(s, moves[..k]);
      if Enabled(now, moves[k]) {
        StepInv(now, moves[k]);
      }
    }
  }

  /** The moves that were possible at their turn make a run of the protocol. */
  lemma {:induction false} PlayedIsRun(s: State, moves: seq<Move>) returns (tr: seq<State>, ms: seq<Move>)
    ensures IsRun(tr, ms) && tr[0] == s && tr[|tr| - 1] == PlayedAll(s, moves)
    ensures forall k :: 0 <= k < |ms| ==> ms[k] in moves
  {
    if moves == [] {
      tr, ms := [s], [];
    } else {
      var k := |moves| - 1;
      tr, ms := PlayedIsRun(s, moves[..k]);
      if Enabled(PlayedAll(s, moves[..k]), moves[k]) {
        var tr', ms' := Extend(tr, ms, moves[k]);
        assert forall j :: 0 <= j < |ms'| ==> ms'[j] in moves;
        tr, ms := tr', ms';
      }
    }
  }
}
