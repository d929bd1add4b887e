/** The shared memory of cw8 and the lines of the two loops as updates in place, each proved
    to make exactly the step of the protocol in PrintBuffer. */
module SharedMemory {
  import opened PrintBuffer
  import opened PrintSchedule
  import opened Sums

  /** The Buffer of buffer.h with the processes that work on it. */
  class SharedBuffer {
    const capacity: nat
    const tasks: array2<char>
    var inPos: nat
    var outPos: nat
    var empty: nat
    var full: nat
    var used: nat
    var procs: seq<Pc>
    // History, not part of the source: what was composed, stored, fetched and printed so far.
    var composed: seq<Task>
    var stored: seq<Task>
    var taken: seq<Task>
    var printed: seq<Task>

    ghost function Slot(i: nat): seq<char>
      requires i < tasks.Length0
      reads tasks
    {
      seq(tasks.Length1, j requires 0 <= j < tasks.Length1 reads tasks => tasks[i, j])
    }

    ghost function Ring(): seq<seq<char>>
      reads tasks
    {
      seq(tasks.Length0, i requires 0 <= i < tasks.Length0 reads tasks => Slot(i))
    }

    ghost function View(): State
      reads this, tasks
    {
      State(Ring(), inPos, outPos, empty, full, used, procs, composed, stored, taken, printed)
    }

    twostate lemma RingKept()
      requires unchanged(tasks)
      ensures Ring() == old(Ring())
    {
      assert forall i :: 0 <= i < tasks.Length0 ==> Slot(i) == old(Slot(i));
    }

    ghost predicate Shape() {
      tasks.Length0 == capacity > 0 && tasks.Length1 == TASK_BYTES
    }

    /** The set-up of printers.c lines 53-61, before the processes start. */
    constructor (capacity: nat, procs: seq<Pc>)
      requires capacity > 0
      requires forall p :: 0 <= p < |procs| ==> procs[p].WaitEmpty? || procs[p].WaitFull?
      ensures Shape() && fresh(tasks)
      ensures Init(View()) && this.capacity == capacity && this.procs == procs
    {
      this.capacity := capacity;
      tasks := new char[capacity, TASK_BYTES];
      empty, full, used := capacity, 0, 1;
      inPos, outPos := 0, 0;
      this.procs := procs;
      composed, stored, taken, printed := [], [], [], [];
    }

    /** One byte of the strcpy at client.c line 48. */
    method StoreByte(p: nat, ghost choice: Task)
      requires Shape() && Enabled(View(), p) && InBounds(View(), p)
      requires procs[p].Store?
      modifies this`procs, this`stored, tasks
      ensures View() == old(Next(View(), p, choice))
    {
      ghost var before := View();
      var Store(task, slot, k) := procs[p];
      tasks[slot, k] := task[k];
      if task[k] == '\0' {
        procs := procs[p := BumpIn];
        stored := stored + [task];
      } else {
        procs := procs[p := Store(task, slot, k + 1)];
      }
      assert forall i :: 0 <= i < tasks.Length0 && i != slot ==> Slot(i) == old(Slot(i));
      assert Slot(slot) == old(Slot(slot))[k := task[k]];
      assert Ring() == before.ring[slot := before.ring[slot][k := task[k]]];
    }

    /** Any line of the client loop. */
    method ClientLine(p: nat, choice: Task)
      requires Shape() && Enabled(View(), p) && InBounds(View(), p)
      requires IsClient(procs[p])
      modifies this, tasks
      ensures View() == old(Next(View(), p, choice))
    {
      ghost var before := View();
      match procs[p]
      case WaitEmpty =>
        empty := empty - 1;
        procs := procs[p := ClientWaitUsed];
      case ClientWaitUsed =>
        used := used - 1;
        procs := procs[p := Compose];
      case Compose =>
        procs := procs[p := Store(choice, inPos, 0)];
        composed := composed + [choice];
      case Store(_, _, _) =>
        StoreByte(p, choice);
        return;
      case BumpIn =>
        inPos := (inPos + 1) % capacity;
        procs := procs[p := ClientPostUsed];
      case ClientPostUsed =>
        used := used + 1;
        procs := procs[p := PostFull];
      case PostFull =>
        full := full + 1;
        procs := procs[p := WaitEmpty];
      RingKept();
    }

    /** One byte of the strcpy at printers.c line 79. */
    method FetchByte(p: nat, ghost choice: Task)
      requires Shape() && Enabled(View(), p) && InBounds(View(), p)
      requires procs[p].Fetch?
      modifies this`procs, this`taken
      ensures View() == old(Next(View(), p, choice))
    {
      ghost var before := View();
      var Fetch(slot, got) := procs[p];
      var c := tasks[slot, |got|];
      assert c == Slot(slot)[|got|];
      if c == '\0' {
        procs := procs[p := BumpOut(got + [c], |taken|)];
        taken := taken + [got + [c]];
      } else {
        procs := procs[p := Fetch(slot, got + [c])];
      }
      RingKept();
    }

    /** Any line of the printer loop. */
    method PrinterLine(p: nat, ghost choice: Task)
      requires Shape() && Enabled(View(), p) && InBounds(View(), p)
      requires !IsClient(procs[p])
      modifies this
      ensures View() == old(Next(View(), p, choice))
    {
      ghost var before := View();
      match procs[p]
      case WaitFull =>
        full := full - 1;
        procs := procs[p := PrinterWaitUsed];
      case PrinterWaitUsed =>
        used := used - 1;
        procs := procs[p := Aim];
      case Aim =>
        procs := procs[p := Fetch(outPos, [])];
      case Fetch(_, _) =>
        FetchByte(p, choice);
        return;
      case BumpOut(task, nth) =>
        outPos := (outPos + 1) % capacity;
        procs := procs[p := PrinterPostUsed(task, nth)];
      case PrinterPostUsed(task, nth) =>
        used := used + 1;
        procs := procs[p := PostEmpty(task, nth)];
      case PostEmpty(task, nth) =>
        empty := empty + 1;
        procs := procs[p := Print(task, nth)];
      case Print(task, _) =>
        printed := printed + [task];
        procs := procs[p := WaitFull];
      RingKept();
    }

    /** One turn of process p: its next line, unless it is blocked at a semaphore. */
    method Turn(p: nat, choice: Task)
      requires Shape() && p < |procs| && InBounds(View(), p) && IsTask(choice)
      modifies this, tasks
      ensures View() == old(Turned(View(), p, choice))
    {
      var blocked := match procs[p] {
        case WaitEmpty => empty == 0
        case WaitFull => full == 0
        case ClientWaitUsed => used == 0
        case PrinterWaitUsed => used == 0
        case _ => false
      };
      if !blocked {
        if IsClient(procs[p]) {
          ClientLine(p, choice);
        } else {
          PrinterLine(p, choice);
        }
      }
    }

    /** Runs the system under any schedule of processes and task choices, and ends with the tasks
        in FIFO order, every slot accounted for and the ring within its capacity. */
    method Run(schedule: seq<(nat, Task)>)
      requires Shape() && Inv(View()) && IsSchedule(schedule, |procs|)
      modifies this, tasks
      ensures View() == old(After(View(), schedule, |schedule|)) && Inv(View())
      ensures taken <= stored <= composed && |composed| <= |stored| + 1
      ensures |stored| - |taken| == full + Total(Unposted, procs) + Total(Unread, procs) <= capacity
      ensures empty + Total(HasEmpty, procs) + full + Total(HasFull, procs) == capacity
      ensures used + Total(Critical, procs) == 1
      ensures composed == old(composed) + old(Made(View(), schedule, |schedule|))
      ensures multiset(taken) == multiset(printed) + HeldTasks(procs)
    {
      ghost var before := View();
      for i := 0 to |schedule|
        invariant View() == After(before, schedule, i)
      {
        AfterInv(before, schedule, i);
        InvInBounds(View(), schedule[i].0);
        Turn(schedule[i].0, schedule[i].1);
      }
      AfterInv(before, schedule, |schedule|);
      AfterComposes(before, schedule, |schedule|);
      Fifo(View());
    }
  }
}
