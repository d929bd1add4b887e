/** The bounded print buffer of cw8: any number of client processes store tasks in a
    ring of slots and any number of printer processes fetch them, under the three
    semaphores `empty`, `full` and `used`.  Every process has a program counter and the
    system moves one source line (one byte of a string copy) at a time. */
module PrintBuffer {
  import opened Modulo
  import opened Sums

  const TASK_BYTES := 11

  type Task = seq<char>

  /** A string as a client composes it: ten lower-case letters and a terminator. */
  predicate IsTask(t: Task) {
    && |t| == TASK_BYTES
    && t[10] == '\0'
    && forall k :: 0 <= k < 10 ==> 'a' <= t[k] <= 'z'
  }

  /** Where a process is, with its local variables.  The first seven are lines of
      client.c, the rest lines of printers.c.  `nth` is history: which stored task it is. */
  datatype Pc =
    | WaitEmpty                                // 38
    | ClientWaitUsed                           // 39
    | Compose                                  // 41-47
    | Store(task: Task, slot: nat, k: nat)     // 48, k bytes copied
    | BumpIn                                   // 49
    | ClientPostUsed                           // 51
    | PostFull                                 // 52
    | WaitFull                                 // 75
    | PrinterWaitUsed                          // 76
    | Aim                                      // 79, before the copy starts
    | Fetch(slot: nat, got: Task)              // 79, |got| bytes copied
    | BumpOut(task: Task, nth: nat)            // 80
    | PrinterPostUsed(task: Task, nth: nat)    // 85
    | PostEmpty(task: Task, nth: nat)          // 86
    | Print(task: Task, nth: nat)              // 91-99

  predicate IsClient(pc: Pc) {
    pc.WaitEmpty? || pc.ClientWaitUsed? || pc.Compose? || pc.Store? || pc.BumpIn? || pc.ClientPostUsed? || pc.PostFull?
  }

  predicate Holds(pc: Pc) {
    pc.BumpOut? || pc.PrinterPostUsed? || pc.PostEmpty? || pc.Print?
  }

  /** `composed`, `stored`, `taken` and `printed` are history: what the clients made up, all tasks
      whose copy into, or out of, the ring is complete, and all that were printed, each in order. */
  datatype State = State(
    ring: seq<seq<char>>, inPos: nat, outPos: nat,
    empty: nat, full: nat, used: nat,
    procs: seq<Pc>, composed: seq<Task>, stored: seq<Task>, taken: seq<Task>, printed: seq<Task>)

  /** The state after the semaphores and cursors are set up, with any initial bytes in the
      ring and any number of processes at the top of their loops. */
  predicate Init(s: State) {
    && |s.ring| > 0
    && (forall i :: 0 <= i < |s.ring| ==> |s.ring[i]| == TASK_BYTES)
    && s.inPos == 0 && s.outPos == 0
    && s.empty == |s.ring| && s.full == 0 && s.used == 1
    && (forall p :: 0 <= p < |s.procs| ==> s.procs[p].WaitEmpty? || s.procs[p].WaitFull?)
    && s.composed == [] && s.stored == [] && s.taken == [] && s.printed == []
  }

  /** A process is blocked only at a semaphore that is zero. */
  predicate Enabled(s: State, p: nat) {
    && p < |s.procs|
    && match s.procs[p]
       case WaitEmpty => s.empty > 0
       case WaitFull => s.full > 0
       case ClientWaitUsed => s.used > 0
       case PrinterWaitUsed => s.used > 0
       case _ => true
  }

  /** All array accesses of process p are in bounds. */
  predicate InBounds(s: State, p: nat)
    requires p < |s.procs|
  {
    match s.procs[p]
    case Store(task, slot, k) => slot < |s.ring| && k < |task| && k < |s.ring[slot]|
    case Fetch(slot, got) => slot < |s.ring| && |got| < |s.ring[slot]|
    case BumpIn => |s.ring| > 0
    case BumpOut(_, _) => |s.ring| > 0
    case _ => true
  }

  /** One step of process p.  `choice` is what a client makes up to print. */
  function Next(s: State, p: nat, choice: Task): State
    requires Enabled(s, p) && InBounds(s, p)
  {
    match s.procs[p]
    case WaitEmpty => s.(empty := s.empty - 1, procs := s.procs[p := ClientWaitUsed])
    case ClientWaitUsed => s.(used := s.used - 1, procs := s.procs[p := Compose])
    case Compose => s.(procs := s.procs[p := Store(choice, s.inPos, 0)], composed := s.composed + [choice])
    case Store(task, slot, k) =>
      var s' := s.(ring := s.ring[slot := s.ring[slot][k := task[k]]]);
      if task[k] == '\0' then s'.(procs := s.procs[p := BumpIn], stored := s.stored + [task])
      else s'.(procs := s.procs[p := Store(task, slot, k + 1)])
    case BumpIn => s.(inPos := (s.inPos + 1) % |s.ring|, procs := s.procs[p := ClientPostUsed])
    case ClientPostUsed => s.(used := s.used + 1, procs := s.procs[p := PostFull])
    case PostFull => s.(full := s.full + 1, procs := s.procs[p := WaitEmpty])
    case WaitFull => s.(full := s.full - 1, procs := s.procs[p := PrinterWaitUsed])
    case PrinterWaitUsed => s.(used := s.used - 1, procs := s.procs[p := Aim])
    case Aim => s.(procs := s.procs[p := Fetch(s.outPos, [])])
    case Fetch(slot, got) =>
      var c := s.ring[slot][|got|];
      if c == '\0' then s.(procs := s.procs[p := BumpOut(got + [c], |s.taken|)], taken := s.taken + [got + [c]])
      else s.(procs := s.procs[p := Fetch(slot, got + [c])])
    case BumpOut(task, nth) =>
      s.(outPos := (s.outPos + 1) % |s.ring|, procs := s.procs[p := PrinterPostUsed(task, nth)])
    case PrinterPostUsed(task, nth) => s.(used := s.used + 1, procs := s.procs[p := PostEmpty(task, nth)])
    case PostEmpty(task, nth) => s.(empty := s.empty + 1, procs := s.procs[p := Print(task, nth)])
    case Print(task, _) => s.(procs := s.procs[p := WaitFull], printed := s.printed + [task])
  }

  predicate StepBy(s: State, p: nat, choice: Task, s': State) {
    && IsTask(choice)
    && Enabled(s, p) && InBounds(s, p)
    && s' == Next(s, p, choice)
  }

  ghost predicate Step(s: State, s': State) {
    exists p: nat, choice :: StepBy(s, p, choice, s')
  }

  /** A run: any interleaving from an initial state. */
  ghost predicate IsRun(tr: seq<State>) {
    && tr != []
    && Init(tr[0])
    && forall i :: 0 <= i < |tr| - 1 ==> Step(tr[i], tr[i + 1])
  }

  // ----- Regions of the two loops, as weights to be totalled over the processes -----

  function Critical(pc: Pc): nat {
    if pc.Compose? || pc.Store? || pc.BumpIn? || pc.ClientPostUsed?
      || pc.Aim? || pc.Fetch? || pc.BumpOut? || pc.PrinterPostUsed? then 1 else 0
  }

  /** Clients between lines 38 and 52. */
  function HasEmpty(pc: Pc): nat {
    if IsClient(pc) && !pc.WaitEmpty? then 1 else 0
  }

  /** Printers between lines 75 and 86. */
  function HasFull(pc: Pc): nat {
    if !IsClient(pc) && !pc.WaitFull? && !pc.Print? then 1 else 0
  }

  /** Clients that stored a task and have not posted `full`. */
  function Unposted(pc: Pc): nat {
    if pc.BumpIn? || pc.ClientPostUsed? || pc.PostFull? then 1 else 0
  }

  /** Printers that took a `full` token and have not read their task. */
  function Unread(pc: Pc): nat {
    if pc.PrinterWaitUsed? || pc.Aim? || pc.Fetch? then 1 else 0
  }

  function InBehind(pc: Pc): nat { if pc.BumpIn? then 1 else 0 }

  function OutBehind(pc: Pc): nat { if pc.BumpOut? then 1 else 0 }

  // ----- The invariant -----

  /** Conservation of semaphore tokens. */
  ghost predicate Tokens(s: State) {
    && s.used + Total(Critical, s.procs) == 1
    && s.empty + Total(HasEmpty, s.procs) + s.full + Total(HasFull, s.procs) == |s.ring|
    && |s.stored| - |s.taken| == s.full + Total(Unposted, s.procs) + Total(Unread, s.procs)
  }

  /** The two cursors count stores and fetches modulo the capacity. */
  ghost predicate Cursors(s: State) {
    && |s.ring| > 0
    && Total(InBehind, s.procs) <= |s.stored| && Total(OutBehind, s.procs) <= |s.taken|
    && s.inPos == (|s.stored| - Total(InBehind, s.procs)) % |s.ring|
    && s.outPos == (|s.taken| - Total(OutBehind, s.procs)) % |s.ring|
  }

  /** What was taken is a prefix of what was stored, and the ring holds the rest. */
  ghost predicate Contents(s: State) {
    && |s.ring| > 0
    && (forall i :: 0 <= i < |s.ring| ==> |s.ring[i]| == TASK_BYTES)
    && (forall j :: 0 <= j < |s.stored| ==> IsTask(s.stored[j]))
    && s.taken <= s.stored
    && (forall j :: |s.taken| <= j < |s.stored| ==> s.ring[j % |s.ring|] == s.stored[j])
  }

  /** What a process knows about its locals. */
  ghost predicate Local(s: State, pc: Pc) {
    if pc.Store? then
      && IsTask(pc.task) && pc.slot == s.inPos < |s.ring| && pc.k < TASK_BYTES
      && |s.ring[pc.slot]| == TASK_BYTES && s.ring[pc.slot][..pc.k] == pc.task[..pc.k]
    else if pc.Fetch? then
      && pc.slot == s.outPos < |s.ring| && |pc.got| < TASK_BYTES
      && |s.ring[pc.slot]| == TASK_BYTES && pc.got == s.ring[pc.slot][..|pc.got|]
    else
      Holds(pc) ==> pc.nth < |s.taken| && s.taken[pc.nth] == pc.task
  }

  ghost predicate Locals(s: State) {
    forall p :: 0 <= p < |s.procs| ==> Local(s, s.procs[p])
  }

  /** What was composed is what is stored, and what is being stored right now. */
  ghost predicate Composed(s: State) {
    && (forall p :: 0 <= p < |s.procs| && s.procs[p].Store? ==> s.composed == s.stored + [s.procs[p].task])
    && ((forall p :: 0 <= p < |s.procs| ==> !s.procs[p].Store?) ==> s.composed == s.stored)
  }

  /** No stored task is held by two printers. */
  ghost predicate Distinct(s: State) {
    forall p, q :: 0 <= p < q < |s.procs| && Holds(s.procs[p]) && Holds(s.procs[q]) ==> s.procs[p].nth != s.procs[q].nth
  }

  function OneHeld(pc: Pc): multiset<Task> {
    if Holds(pc) then multiset{pc.task} else multiset{}
  }

  /** The tasks that printers have fetched and not printed yet. */
  function HeldTasks(procs: seq<Pc>): multiset<Task> {
    if procs == [] then multiset{} else OneHeld(procs[0]) + HeldTasks(procs[1..])
  }

  /** Every task fetched is printed, or held by a printer that will print it. */
  ghost predicate Accounted(s: State) {
    multiset(s.taken) == multiset(s.printed) + HeldTasks(s.procs)
  }

  ghost predicate Inv(s: State) {
    Tokens(s) && Cursors(s) && Contents(s) && Locals(s) && Composed(s) && Distinct(s) && Accounted(s)
  }

  // ----- Counting lemmas -----

  lemma Recount(procs: seq<Pc>, p: nat, pc: Pc)
    requires p < |procs|
    ensures var procs' := procs[p := pc];
            && Total(Critical, procs') + Critical(procs[p]) == Total(Critical, procs) + Critical(pc)
            && Total(HasEmpty, procs') + HasEmpty(procs[p]) == Total(HasEmpty, procs) + HasEmpty(pc)
            && Total(HasFull, procs') + HasFull(procs[p]) == Total(HasFull, procs) + HasFull(pc)
            && Total(Unposted, procs') + Unposted(procs[p]) == Total(Unposted, procs) + Unposted(pc)
            && Total(Unread, procs') + Unread(procs[p]) == Total(Unread, procs) + Unread(pc)
            && Total(InBehind, procs') + InBehind(procs[p]) == Total(InBehind, procs) + InBehind(pc)
            && Total(OutBehind, procs') + OutBehind(procs[p]) == Total(OutBehind, procs) + OutBehind(pc)
  {
    TotalUpdate(Critical, procs, p, pc);
    TotalUpdate(HasEmpty, procs, p, pc);
    TotalUpdate(HasFull, procs, p, pc);
    TotalUpdate(Unposted, procs, p, pc);
    TotalUpdate(Unread, procs, p, pc);
    TotalUpdate(InBehind, procs, p, pc);
    TotalUpdate(OutBehind, procs, p, pc);
  }

  /** At most one process is between taking and giving back `used`. */
  lemma MutualExclusion(s: State, p: nat, q: nat)
    requires Tokens(s) && p < |s.procs| && q < |s.procs|
    requires Critical(s.procs[p]) == 1 && Critical(s.procs[q]) == 1
    ensures p == q && s.used == 0
  {
    TotalIncludes(Critical, s.procs, p);
    if p < q {
      TotalIncludesTwo(Critical, s.procs, p, q);
    } else if q < p {
      TotalIncludesTwo(Critical, s.procs, q, p);
    }
  }

  /** Only the process in the critical section can be behind with a cursor. */
  lemma BehindIsMe(s: State, p: nat)
    requires Tokens(s) && p < |s.procs| && Critical(s.procs[p]) == 1
    ensures Total(InBehind, s.procs) == InBehind(s.procs[p])
    ensures Total(OutBehind, s.procs) == OutBehind(s.procs[p])
  {
    if Total(InBehind, s.procs[p := WaitEmpty]) > 0 {
      var q := TotalWitness(InBehind, s.procs[p := WaitEmpty]);
      MutualExclusion(s, p, q);
    }
    if Total(OutBehind, s.procs[p := WaitEmpty]) > 0 {
      var q := TotalWitness(OutBehind, s.procs[p := WaitEmpty]);
      MutualExclusion(s, p, q);
    }
    Recount(s.procs, p, WaitEmpty);
  }

  /** The ring never holds more than its capacity, and has room for a client that has a
      token and has not stored yet. */
  lemma Room(s: State)
    requires Tokens(s)
    ensures 0 <= |s.stored| - |s.taken| <= |s.ring|
    ensures forall p :: 0 <= p < |s.procs| && HasEmpty(s.procs[p]) == 1 && Unposted(s.procs[p]) == 0
              ==> |s.stored| - |s.taken| < |s.ring|
  {
    TotalMonotone(Unposted, s.procs, HasEmpty, s.procs);
    TotalMonotone(Unread, s.procs, HasFull, s.procs);
    forall p | 0 <= p < |s.procs| && HasEmpty(s.procs[p]) == 1 && Unposted(s.procs[p]) == 0
      ensures |s.stored| - |s.taken| < |s.ring|
    {
      var rest := s.procs[p := WaitEmpty];
      Recount(s.procs, p, WaitEmpty);
      TotalMonotone(Unposted, rest, HasEmpty, rest);
    }
  }

  lemma {:induction false} NothingHeld(procs: seq<Pc>)
    requires forall p :: 0 <= p < |procs| ==> !Holds(procs[p])
    ensures HeldTasks(procs) == multiset{}
  {
    if procs == [] {
    } else {
      NothingHeld(procs[1..]);
    }
  }

  lemma {:induction false} HeldUpdate(procs: seq<Pc>, p: nat, pc: Pc, task: Task)
    requires p < |procs|
    ensures HeldTasks(procs[p := pc])[task] + OneHeld(procs[p])[task] == HeldTasks(procs)[task] + OneHeld(pc)[task]
  {
    if p == 0 {
      assert procs[p := pc][1..] == procs[1..];
    } else {
      assert procs[p := pc][1..] == procs[1..][p - 1 := pc];
      HeldUpdate(procs[1..], p - 1, pc, task);
    }
  }

  // ----- The invariant holds in every reachable state -----

  lemma InitInv(s: State)
    requires Init(s)
    ensures Inv(s)
  {
    TotalZero(Critical, s.procs);
    TotalZero(HasEmpty, s.procs);
    TotalZero(HasFull, s.procs);
    TotalZero(Unposted, s.procs);
    TotalZero(Unread, s.procs);
    TotalZero(InBehind, s.procs);
    TotalZero(OutBehind, s.procs);
    NothingHeld(s.procs);
  }

  /** The invariant rules out every access outside the ring or a slot. */
  lemma InvInBounds(s: State, p: nat)
    requires Inv(s) && p < |s.procs|
    ensures InBounds(s, p)
  {
    assert Local(s, s.procs[p]);
  }

  /** A step replaces one program counter; semaphores and histories move with its weights. */
  lemma NextProcs(s: State, p: nat, choice: Task)
    requires Enabled(s, p) && InBounds(s, p)
    ensures var s' := Next(s, p, choice);
            p < |s'.procs| && s'.procs == s.procs[p := s'.procs[p]] && |s'.ring| == |s.ring|
  {
  }

  lemma NextSemaphores(s: State, p: nat, choice: Task)
    requires Enabled(s, p) && InBounds(s, p)
    ensures var s' := Next(s, p, choice);
            p < |s'.procs| &&
            var pc, pc' := s.procs[p], s'.procs[p];
            && s'.used + Critical(pc') == s.used + Critical(pc)
            && s'.empty + HasEmpty(pc') + s'.full + HasFull(pc') == s.empty + HasEmpty(pc) + s.full + HasFull(pc)
  {
  }

  lemma NextHistories(s: State, p: nat, choice: Task)
    requires Enabled(s, p) && InBounds(s, p)
    ensures var s' := Next(s, p, choice);
            p < |s'.procs| &&
            var pc, pc' := s.procs[p], s'.procs[p];
            && |s'.stored| - |s'.taken| - s'.full - Unposted(pc') - Unread(pc')
               == |s.stored| - |s.taken| - s.full - Unposted(pc) - Unread(pc)
            && |s'.stored| - InBehind(pc') == |s.stored|
            && |s'.taken| - OutBehind(pc') == |s.taken|
  {
  }

  lemma StepUsed(s: State, p: nat, choice: Task)
    requires s.used + Total(Critical, s.procs) == 1 && Enabled(s, p) && InBounds(s, p)
    ensures var s' := Next(s, p, choice); s'.used + Total(Critical, s'.procs) == 1
  {
    NextProcs(s, p, choice);
    NextSemaphores(s, p, choice);
    TotalUpdate(Critical, s.procs, p, Next(s, p, choice).procs[p]);
  }

  lemma StepSlots(s: State, p: nat, choice: Task)
    requires s.empty + Total(HasEmpty, s.procs) + s.full + Total(HasFull, s.procs) == |s.ring|
    requires Enabled(s, p) && InBounds(s, p)
    ensures var s' := Next(s, p, choice);
            s'.empty + Total(HasEmpty, s'.procs) + s'.full + Total(HasFull, s'.procs) == |s'.ring|
  {
    NextProcs(s, p, choice);
    NextSemaphores(s, p, choice);
    var pc' := Next(s, p, choice).procs[p];
    TotalUpdate(HasEmpty, s.procs, p, pc');
    TotalUpdate(HasFull, s.procs, p, pc');
  }

  lemma StepOccupancy(s: State, p: nat, choice: Task)
    requires |s.stored| - |s.taken| == s.full + Total(Unposted, s.procs) + Total(Unread, s.procs)
    requires Enabled(s, p) && InBounds(s, p)
    ensures var s' := Next(s, p, choice);
            |s'.stored| - |s'.taken| == s'.full + Total(Unposted, s'.procs) + Total(Unread, s'.procs)
  {
    NextProcs(s, p, choice);
    NextHistories(s, p, choice);
    var pc' := Next(s, p, choice).procs[p];
    TotalUpdate(Unposted, s.procs, p, pc');
    TotalUpdate(Unread, s.procs, p, pc');
  }

  lemma StepTokens(s: State, p: nat, choice: Task)
    requires Tokens(s) && Enabled(s, p) && InBounds(s, p)
    ensures Tokens(Next(s, p, choice))
  {
    StepUsed(s, p, choice);
    StepSlots(s, p, choice);
    StepOccupancy(s, p, choice);
  }

  /** What each cursor stands for moves only when the cursor is bumped. */
  lemma StepBehind(s: State, p: nat, choice: Task)
    requires Enabled(s, p) && InBounds(s, p)
    ensures var s' := Next(s, p, choice);
            && |s'.stored| - Total(InBehind, s'.procs) == |s.stored| - Total(InBehind, s.procs) + InBehind(s.procs[p])
            && |s'.taken| - Total(OutBehind, s'.procs) == |s.taken| - Total(OutBehind, s.procs) + OutBehind(s.procs[p])
  {
    NextProcs(s, p, choice);
    NextHistories(s, p, choice);
    var pc' := Next(s, p, choice).procs[p];
    TotalUpdate(InBehind, s.procs, p, pc');
    TotalUpdate(OutBehind, s.procs, p, pc');
  }

  lemma NextCursors(s: State, p: nat, choice: Task)
    requires |s.ring| > 0 && Enabled(s, p) && InBounds(s, p)
    ensures var s' := Next(s, p, choice);
            && |s'.ring| == |s.ring|
            && s'.inPos == (if s.procs[p].BumpIn? then (s.inPos + 1) % |s.ring| else s.inPos)
            && s'.outPos == (if s.procs[p].BumpOut? then (s.outPos + 1) % |s.ring| else s.outPos)
  {
  }

  lemma StepCursors(s: State, p: nat, choice: Task)
    requires Cursors(s) && Enabled(s, p) && InBounds(s, p)
    ensures Cursors(Next(s, p, choice))
  {
    NextCursors(s, p, choice);
    StepBehind(s, p, choice);
    if s.procs[p].BumpIn? {
      ModBump(|s.stored| - Total(InBehind, s.procs), |s.ring|);
    } else if s.procs[p].BumpOut? {
      ModBump(|s.taken| - Total(OutBehind, s.procs), |s.ring|);
    }
  }

  /** The slot a client writes holds no unread task. */
  lemma NoOverwrite(s: State, p: nat)
    requires Inv(s) && p < |s.procs| && s.procs[p].Store?
    ensures s.procs[p].slot == |s.stored| % |s.ring|
    ensures forall j :: |s.taken| <= j < |s.stored| ==> j % |s.ring| != s.procs[p].slot
  {
    assert Local(s, s.procs[p]);
    BehindIsMe(s, p);
    Room(s);
    forall j | |s.taken| <= j < |s.stored| ensures j % |s.ring| != s.procs[p].slot {
      ModDistinct(j, |s.stored|, |s.ring|);
    }
  }

  /** The slot a printer reads holds the oldest unread task. */
  lemma FetchesOldest(s: State, p: nat)
    requires Inv(s) && p < |s.procs| && s.procs[p].Fetch?
    ensures |s.taken| < |s.stored|
    ensures s.ring[s.procs[p].slot] == s.stored[|s.taken|]
    ensures s.procs[p].got == s.stored[|s.taken|][..|s.procs[p].got|]
  {
    assert Local(s, s.procs[p]);
    BehindIsMe(s, p);
    TotalIncludes(Unread, s.procs, p);
    assert s.ring[|s.taken| % |s.ring|] == s.stored[|s.taken|];
  }

  /** Writing one more byte of the slot leaves the unread slots alone. */
  lemma StoreByteContents(s: State, p: nat, choice: Task)
    requires Inv(s) && Enabled(s, p) && InBounds(s, p) && s.procs[p].Store?
    ensures var s' := Next(s, p, choice);
            && |s'.ring| == |s.ring| && s'.taken == s.taken
            && (forall i :: 0 <= i < |s'.ring| ==> |s'.ring[i]| == TASK_BYTES)
            && (forall j :: |s.taken| <= j < |s.stored| ==> s'.ring[j % |s.ring|] == s.stored[j])
  {
    NoOverwrite(s, p);
  }

  /** The last byte completes the slot. */
  lemma StoreLastByte(s: State, p: nat, choice: Task)
    requires Inv(s) && Enabled(s, p) && InBounds(s, p) && FinishesStore(s.procs[p])
    ensures Next(s, p, choice).ring[|s.stored| % |s.ring|] == s.procs[p].task && IsTask(s.procs[p].task)
  {
    var pc := s.procs[p];
    assert Local(s, pc);
    NoOverwrite(s, p);
    var slot' := s.ring[pc.slot][pc.k := pc.task[pc.k]];
    assert pc.k == 10;
    assert slot'[..10] == pc.task[..10];
    assert slot' == slot'[..10] + [slot'[10]] && pc.task == pc.task[..10] + [pc.task[10]];
  }

  lemma ContentsAfterStore(s: State, s': State, added: seq<Task>)
    requires Contents(s) && |s'.ring| == |s.ring| && s'.taken == s.taken && s'.stored == s.stored + added
    requires forall i :: 0 <= i < |s'.ring| ==> |s'.ring[i]| == TASK_BYTES
    requires forall j :: |s.taken| <= j < |s.stored| ==> s'.ring[j % |s.ring|] == s.stored[j]
    requires added == [] || (|added| == 1 && IsTask(added[0]) && s'.ring[|s.stored| % |s.ring|] == added[0])
    ensures Contents(s')
  {
  }

  lemma StoreContents(s: State, p: nat, choice: Task)
    requires Inv(s) && Enabled(s, p) && InBounds(s, p) && s.procs[p].Store?
    ensures Contents(Next(s, p, choice))
  {
    StoreByteContents(s, p, choice);
    if FinishesStore(s.procs[p]) {
      StoreLastByte(s, p, choice);
      ContentsAfterStore(s, Next(s, p, choice), [s.procs[p].task]);
    } else {
      ContentsAfterStore(s, Next(s, p, choice), []);
    }
  }

  lemma FetchContents(s: State, p: nat, choice: Task)
    requires Inv(s) && Enabled(s, p) && InBounds(s, p) && s.procs[p].Fetch?
    ensures Contents(Next(s, p, choice))
  {
    var pc := s.procs[p];
    assert Local(s, pc);
    FetchesOldest(s, p);
    var c := s.ring[pc.slot][|pc.got|];
    if c == '\0' {
      assert |pc.got| == 10;
      assert pc.got + [c] == s.stored[|s.taken|];
    }
  }

  lemma StepContents(s: State, p: nat, choice: Task)
    requires Inv(s) && Enabled(s, p) && InBounds(s, p)
    ensures Contents(Next(s, p, choice))
  {
    if s.procs[p].Store? {
      StoreContents(s, p, choice);
    } else if s.procs[p].Fetch? {
      FetchContents(s, p, choice);
    }
  }

  lemma StepLocals(s: State, p: nat, choice: Task)
    requires Inv(s) && IsTask(choice) && Enabled(s, p) && InBounds(s, p)
    ensures Locals(Next(s, p, choice))
  {
    var s' := Next(s, p, choice);
    forall q | 0 <= q < |s'.procs| ensures Local(s', s'.procs[q]) {
      assert Local(s, s.procs[q]);
      if q == p {
        StepOwnLocal(s, p, choice);
      } else if Critical(s.procs[p]) == 1 && Critical(s.procs[q]) == 1 {
        MutualExclusion(s, p, q);
      }
    }
  }

  lemma StoreOwnLocal(s: State, p: nat, choice: Task)
    requires Enabled(s, p) && InBounds(s, p) && s.procs[p].Store? && Local(s, s.procs[p])
    ensures Local(Next(s, p, choice), Next(s, p, choice).procs[p])
  {
    var pc := s.procs[p];
    var slot, byte := s.ring[pc.slot], pc.task[pc.k];
    assert slot[pc.k := byte][..pc.k + 1] == slot[..pc.k] + [byte] == pc.task[..pc.k + 1];
  }

  lemma FetchOwnLocal(s: State, p: nat, choice: Task)
    requires Inv(s) && Enabled(s, p) && InBounds(s, p) && s.procs[p].Fetch?
    ensures Local(Next(s, p, choice), Next(s, p, choice).procs[p])
  {
    var pc := s.procs[p];
    assert Local(s, pc);
    FetchesOldest(s, p);
    var c := s.ring[pc.slot][|pc.got|];
    assert pc.got + [c] == s.ring[pc.slot][..|pc.got| + 1];
  }

  lemma OtherOwnLocal(s: State, p: nat, choice: Task)
    requires Cursors(s) && Contents(s) && IsTask(choice) && Enabled(s, p) && InBounds(s, p) && Local(s, s.procs[p])
    requires !s.procs[p].Store? && !s.procs[p].Fetch?
    ensures Local(Next(s, p, choice), Next(s, p, choice).procs[p])
  {
  }

  lemma StepOwnLocal(s: State, p: nat, choice: Task)
    requires Inv(s) && IsTask(choice) && Enabled(s, p) && InBounds(s, p)
    ensures Local(Next(s, p, choice), Next(s, p, choice).procs[p])
  {
    assert Local(s, s.procs[p]);
    if s.procs[p].Store? {
      StoreOwnLocal(s, p, choice);
    } else if s.procs[p].Fetch? {
      FetchOwnLocal(s, p, choice);
    } else {
      OtherOwnLocal(s, p, choice);
    }
  }

  lemma StepComposed(s: State, p: nat, choice: Task)
    requires Tokens(s) && Composed(s) && Enabled(s, p) && InBounds(s, p)
    ensures Composed(Next(s, p, choice))
  {
    var pc, s' := s.procs[p], Next(s, p, choice);
    if pc.Compose? || pc.Store? {
      forall q | 0 <= q < |s.procs| && q != p ensures !s.procs[q].Store? {
        if s.procs[q].Store? {
          MutualExclusion(s, p, q);
        }
      }
      assert pc.Compose? ==> s.composed == s.stored && s'.composed == s.composed + [choice];
      assert pc.Store? ==> s.composed == s.stored + [pc.task];
      assert s'.procs[p].Store? || s'.composed == s'.stored;
    } else {
      StoresKept(s, p, choice);
    }
  }

  lemma StoresKept(s: State, p: nat, choice: Task)
    requires Enabled(s, p) && InBounds(s, p) && !s.procs[p].Compose? && !s.procs[p].Store?
    ensures var s' := Next(s, p, choice);
            && s'.composed == s.composed && s'.stored == s.stored && |s'.procs| == |s.procs|
            && forall q :: 0 <= q < |s.procs| ==>
                 s'.procs[q].Store? == s.procs[q].Store? && (s.procs[q].Store? ==> s'.procs[q] == s.procs[q])
  {
  }

  lemma StepDistinct(s: State, p: nat, choice: Task)
    requires Locals(s) && Distinct(s) && Enabled(s, p) && InBounds(s, p)
    ensures Distinct(Next(s, p, choice))
  {
    assert forall q :: 0 <= q < |s.procs| ==> Local(s, s.procs[q]);
  }

  /** How a step may change what is fetched, printed and held. */
  predicate Prints(s: State, s': State, p: nat) {
    && p < |s.procs| == |s'.procs| && s'.procs == s.procs[p := s'.procs[p]]
    && var pc, pc' := s.procs[p], s'.procs[p];
    if Holds(pc') && !Holds(pc) then s'.taken == s.taken + [pc'.task] && s'.printed == s.printed
    else if Holds(pc) && !Holds(pc') then s'.taken == s.taken && s'.printed == s.printed + [pc.task]
    else s'.taken == s.taken && s'.printed == s.printed && OneHeld(pc') == OneHeld(pc)
  }

  /** A step fetches a task, prints the one it holds, or leaves both alone. */
  lemma NextPrints(s: State, p: nat, choice: Task)
    requires Enabled(s, p) && InBounds(s, p)
    ensures Prints(s, Next(s, p, choice), p)
  {
    NextProcs(s, p, choice);
  }

  lemma MultisetLast(q: seq<Task>, x: Task)
    ensures multiset(q + [x]) == multiset(q) + multiset{x}
  {
  }

  lemma StepAccounted(s: State, p: nat, choice: Task)
    requires Accounted(s) && Enabled(s, p) && InBounds(s, p)
    ensures Accounted(Next(s, p, choice))
  {
    NextPrints(s, p, choice);
    AccountedNext(s, Next(s, p, choice), p);
  }

  lemma AccountedNext(s: State, s': State, p: nat)
    requires Accounted(s) && Prints(s, s', p)
    ensures Accounted(s')
  {
    forall task: Task
      ensures multiset(s'.taken)[task] == multiset(s'.printed)[task] + HeldTasks(s'.procs)[task]
    {
      CountAccounted(s, s', p, task);
    }
  }

  lemma CountAccounted(s: State, s': State, p: nat, task: Task)
    requires Accounted(s) && Prints(s, s', p)
    ensures multiset(s'.taken)[task] == multiset(s'.printed)[task] + HeldTasks(s'.procs)[task]
  {
    var pc, pc' := s.procs[p], s'.procs[p];
    HeldUpdate(s.procs, p, pc', task);
    if Holds(pc') {
      MultisetLast(s.taken, pc'.task);
    } else if Holds(pc) {
      MultisetLast(s.printed, pc.task);
    }
  }

  lemma StepInv(s: State, s': State)
    requires Inv(s) && Step(s, s')
    ensures Inv(s')
  {
    var p: nat, choice :| StepBy(s, p, choice, s');
    StepTokens(s, p, choice);
    StepCursors(s, p, choice);
    StepContents(s, p, choice);
    StepLocals(s, p, choice);
    StepComposed(s, p, choice);
    StepDistinct(s, p, choice);
    StepAccounted(s, p, choice);
  }

  lemma RunSplit(tr: seq<State>)
    requires IsRun(tr) && |tr| > 1
    ensures IsRun(tr[..|tr| - 1]) && Step(tr[|tr| - 2], tr[|tr| - 1])
  {
    assert Step(tr[|tr| - 2], tr[|tr| - 2 + 1]);
  }

  lemma {:induction false} RunInv(tr: seq<State>)
    requires IsRun(tr)
    ensures Inv(tr[|tr| - 1])
  {
    if |tr| == 1 {
      InitInv(tr[0]);
    } else {
      RunSplit(tr);
      RunInv(tr[..|tr| - 1]);
      StepInv(tr[|tr| - 2], tr[|tr| - 1]);
    }
  }

  /** In every run every slot of the ring is accounted for by a token or a process that has
      one, and every task stored and not fetched by a posted token or a process between its
      copy and its post, or its token and its copy. */
  lemma RunConservesTokens(tr: seq<State>)
    requires IsRun(tr)
    ensures var s := tr[|tr| - 1];
            && |s.ring| == s.empty + Total(HasEmpty, s.procs) + s.full + Total(HasFull, s.procs)
            && |s.stored| - |s.taken| == s.full + Total(Unposted, s.procs) + Total(Unread, s.procs)
            && 0 <= |s.stored| - |s.taken| <= |s.ring|
            && s.used + Total(Critical, s.procs) == 1
            && (forall p :: 0 <= p < |s.procs| ==> InBounds(s, p))
  {
    RunInv(tr);
    var s := tr[|tr| - 1];
    Room(s);
    forall p | 0 <= p < |s.procs| ensures InBounds(s, p) {
      InvInBounds(s, p);
    }
  }

  // ----- Refinement of a bounded FIFO queue -----

  /** The abstract queue: tasks stored and not yet fetched, oldest first. */
  function Queue(s: State): seq<Task>
    requires |s.taken| <= |s.stored|
  {
    s.stored[|s.taken|..]
  }

  predicate FinishesStore(pc: Pc) {
    pc.Store? && pc.k < |pc.task| && pc.task[pc.k] == '\0'
  }

  predicate FinishesFetch(s: State, pc: Pc) {
    && pc.Fetch? && pc.slot < |s.ring| && |pc.got| < |s.ring[pc.slot]|
    && s.ring[pc.slot][|pc.got|] == '\0'
  }

  /** Every step is a put into a queue that is not full, a get of the oldest task by the
      stepping printer, or invisible. */
  lemma StepRefinesFifo(s: State, p: nat, choice: Task)
    requires Inv(s) && IsTask(choice) && Enabled(s, p) && InBounds(s, p)
    ensures var s' := Next(s, p, choice);
            && |s'.taken| <= |s'.stored|
            && if FinishesStore(s.procs[p]) then
                 |Queue(s)| < |s.ring| && Queue(s') == Queue(s) + [s.procs[p].task]
               else if FinishesFetch(s, s.procs[p]) then
                 Queue(s) != [] && Queue(s) == [s'.procs[p].task] + Queue(s')
               else Queue(s') == Queue(s)
  {
    assert Local(s, s.procs[p]);
    if s.procs[p].Store? {
      Room(s);
    } else if s.procs[p].Fetch? {
      FetchesOldest(s, p);
      StepContents(s, p, choice);
    }
  }

  /** The fetched tasks are the stored tasks, in order, up to the ones still in the ring, and these
      are the composed tasks, up to one still being stored. */
  lemma Fifo(s: State)
    requires Inv(s)
    ensures s.taken <= s.stored <= s.composed
    ensures |s.composed| <= |s.stored| + 1
    ensures |s.stored| - |s.taken| <= |s.ring|
  {
    Room(s);
    if p :| 0 <= p < |s.procs| && s.procs[p].Store? {
      assert s.composed == s.stored + [s.procs[p].task];
    }
  }

  /** In every run the tasks are in that order, and each printer holds one complete stored task
      of its own. */
  lemma RunIsFifo(tr: seq<State>)
    requires IsRun(tr)
    ensures var s := tr[|tr| - 1];
            && s.taken <= s.stored <= s.composed
            && |s.composed| <= |s.stored| + 1
            && |s.stored| - |s.taken| <= |s.ring|
            && (forall p :: 0 <= p < |s.procs| && Holds(s.procs[p]) ==>
                  && s.procs[p].nth < |s.taken|
                  && s.procs[p].task == s.stored[s.procs[p].nth]
                  && IsTask(s.procs[p].task))
            && (forall p, q :: 0 <= p < q < |s.procs| && Holds(s.procs[p]) && Holds(s.procs[q]) ==>
                  s.procs[p].nth != s.procs[q].nth)
  {
    RunInv(tr);
    var s := tr[|tr| - 1];
    Fifo(s);
    forall p | 0 <= p < |s.procs| && Holds(s.procs[p])
      ensures s.procs[p].nth < |s.taken| && s.procs[p].task == s.stored[s.procs[p].nth] && IsTask(s.procs[p].task)
    {
      assert Local(s, s.procs[p]);
    }
  }

  /** In every run every fetched task is printed once, or still held by the printer that fetched it. */
  lemma RunPrints(tr: seq<State>)
    requires IsRun(tr)
    ensures var s := tr[|tr| - 1]; multiset(s.taken) == multiset(s.printed) + HeldTasks(s.procs)
  {
    RunInv(tr);
  }

  /** The cursors differ by the occupancy of the ring, modulo the capacity, once the pending
      bumps are counted. */
  lemma CursorsMeasureOccupancy(s: State)
    requires Cursors(s) && |s.taken| <= |s.stored|
    ensures (s.inPos + Total(InBehind, s.procs) - s.outPos - Total(OutBehind, s.procs) - |Queue(s)|) % |s.ring| == 0
  {
    var i: nat, o: nat := |s.stored| - Total(InBehind, s.procs), |s.taken| - Total(OutBehind, s.procs);
    var gap := s.inPos + Total(InBehind, s.procs) - s.outPos - Total(OutBehind, s.procs) - |Queue(s)|;
    assert gap == i % |s.ring| - o % |s.ring| - (i - o);
    ModDifference(i, o, |s.ring|);
  }

  // ----- Progress -----

  lemma NextRole(s: State, p: nat, choice: Task)
    requires Enabled(s, p) && InBounds(s, p)
    ensures p < |Next(s, p, choice).procs| && IsClient(Next(s, p, choice).procs[p]) == IsClient(s.procs[p])
  {
  }

  /** A process keeps its role. */
  lemma RolesKept(s: State, s': State)
    requires Step(s, s')
    ensures |s'.procs| == |s.procs|
    ensures forall p :: 0 <= p < |s.procs| ==> IsClient(s'.procs[p]) == IsClient(s.procs[p])
  {
    var p: nat, choice :| StepBy(s, p, choice, s');
    NextProcs(s, p, choice);
    NextRole(s, p, choice);
  }

  /** Who waits for what: a client at line 38 exactly when every slot has its token with a process or
      in `full`, a printer at line 75 exactly when every stored task is still unposted or already
      claimed, a process at `used` exactly when another one is in the critical section, and nobody
      else. */
  lemma WhoWaits(s: State, p: nat)
    requires Tokens(s) && p < |s.procs|
    ensures !Enabled(s, p) <==>
            || (s.procs[p].WaitEmpty? && Total(HasEmpty, s.procs) + s.full + Total(HasFull, s.procs) == |s.ring|)
            || (s.procs[p].WaitFull? && |s.stored| - |s.taken| == Total(Unposted, s.procs) + Total(Unread, s.procs))
            || ((s.procs[p].ClientWaitUsed? || s.procs[p].PrinterWaitUsed?)
                && exists q :: 0 <= q < |s.procs| && Critical(s.procs[q]) == 1)
  {
    if q :| 0 <= q < |s.procs| && Critical(s.procs[q]) == 1 {
      TotalIncludes(Critical, s.procs, q);
    } else {
      TotalZero(Critical, s.procs);
    }
  }

  /** With a client and a printer, some process can always take a step. */
  lemma NeverStuck(s: State, client: nat, printer: nat) returns (p: nat)
    requires Inv(s)
    requires client < |s.procs| && IsClient(s.procs[client])
    requires printer < |s.procs| && !IsClient(s.procs[printer])
    ensures Enabled(s, p)
  {
    if Enabled(s, client) {
      return client;
    }
    if Enabled(s, printer) {
      return printer;
    }
    if s.used == 0 {
      p := TotalWitness(Critical, s.procs);
    } else if Total(HasEmpty, s.procs) > 0 {
      p := TotalWitness(HasEmpty, s.procs);
    } else {
      assert s.empty == 0 && s.full == 0;
      p := TotalWitness(HasFull, s.procs);
    }
  }

  /** The program as it is configured: ten slots, five clients and three printers. */
  predicate Configured(s: State) {
    && Init(s)
    && |s.ring| == 10 && |s.procs| == 8
    && (forall p :: 0 <= p < 5 ==> s.procs[p].WaitEmpty?)
    && (forall p :: 5 <= p < 8 ==> s.procs[p].WaitFull?)
  }

  lemma ProgramNeverStuck(tr: seq<State>)
    requires IsRun(tr) && Configured(tr[0])
    ensures var s := tr[|tr| - 1]; exists s' :: Step(s, s')
  {
    RunNeverStuck(tr, 0, 5);
  }

  lemma RunNeverStuck(tr: seq<State>, client: nat, printer: nat)
    requires IsRun(tr)
    requires client < |tr[0].procs| && tr[0].procs[client].WaitEmpty?
    requires printer < |tr[0].procs| && tr[0].procs[printer].WaitFull?
    ensures var s := tr[|tr| - 1]; exists s' :: Step(s, s')
  {
    var s := tr[|tr| - 1];
    RunInv(tr);
    RunKeepsRoles(tr);
    var p := NeverStuck(s, client, printer);
    InvInBounds(s, p);
    var choice: Task := ['a', 'a', 'a', 'a', 'a', 'a', 'a', 'a', 'a', 'a', '\0'];
    assert StepBy(s, p, choice, Next(s, p, choice));
    assert Step(s, Next(s, p, choice));
  }

  lemma {:induction false} RunKeepsRoles(tr: seq<State>)
    requires IsRun(tr)
    ensures |tr[|tr| - 1].procs| == |tr[0].procs|
    ensures forall p :: 0 <= p < |tr[0].procs| ==> IsClient(tr[|tr| - 1].procs[p]) == IsClient(tr[0].procs[p])
  {
    if |tr| == 1 {
    } else {
      RunSplit(tr);
      RunKeepsRoles(tr[..|tr| - 1]);
      RolesKept(tr[|tr| - 2], tr[|tr| - 1]);
    }
  }

  // ----- Draining -----

  /** Steps a printer still has to make before it is back at line 75. */
  function Pending(pc: Pc): nat {
    match pc
    case PrinterWaitUsed => 18
    case Aim => 17
    case Fetch(_, got) => if |got| <= 11 then 16 - |got| else 5
    case BumpOut(_, _) => 4
    case PrinterPostUsed(_, _) => 3
    case PostEmpty(_, _) => 2
    case Print(_, _) => 1
    case _ => 0
  }

  function Work(s: State): nat { 19 * s.full + Total(Pending, s.procs) }

  ghost predicate PrinterStep(s: State, s': State) {
    exists p: nat, choice :: StepBy(s, p, choice, s') && !IsClient(s.procs[p])
  }

  predicate ClientsAtTop(s: State) {
    forall p :: 0 <= p < |s.procs| && IsClient(s.procs[p]) ==> s.procs[p].WaitEmpty?
  }

  predicate PrintersStuck(s: State) {
    forall p :: 0 <= p < |s.procs| && !IsClient(s.procs[p]) ==> !Enabled(s, p)
  }

  lemma StepWork(s: State, p: nat, choice: Task)
    requires Enabled(s, p) && InBounds(s, p) && !IsClient(s.procs[p]) && Local(s, s.procs[p])
    ensures Work(Next(s, p, choice)) < Work(s)
  {
    var s' := Next(s, p, choice);
    var pc' := s'.procs[p];
    assert s'.procs == s.procs[p := pc'];
    TotalUpdate(Pending, s.procs, p, pc');
  }

  lemma PrinterStepFrame(s: State, s': State)
    requires PrinterStep(s, s')
    ensures Step(s, s')
    ensures s'.stored == s.stored && |s'.procs| == |s.procs| && |s'.ring| == |s.ring|
    ensures forall p :: 0 <= p < |s.procs| ==> IsClient(s'.procs[p]) == IsClient(s.procs[p])
    ensures ClientsAtTop(s) ==> ClientsAtTop(s')
  {
    var p: nat, choice :| StepBy(s, p, choice, s') && !IsClient(s.procs[p]);
  }

  lemma PrinterStepWorks(s: State, s': State)
    requires Inv(s) && PrinterStep(s, s')
    ensures Inv(s') && Work(s') < Work(s)
  {
    PrinterStepFrame(s, s');
    var p: nat, choice :| StepBy(s, p, choice, s') && !IsClient(s.procs[p]);
    StepWork(s, p, choice);
    StepInv(s, s');
  }

  /** With the clients idle, printers stop only when everything stored has been fetched and
      all tokens are back. */
  lemma StuckIsDrained(s: State)
    requires Inv(s) && ClientsAtTop(s) && PrintersStuck(s)
    requires exists p :: 0 <= p < |s.procs| && !IsClient(s.procs[p])
    ensures s.taken == s.stored && s.empty == |s.ring|
    ensures multiset(s.printed) == multiset(s.stored)
  {
    assert forall p :: 0 <= p < |s.procs| ==> Critical(s.procs[p]) == 0;
    TotalZero(Critical, s.procs);
    assert forall p :: 0 <= p < |s.procs| && !IsClient(s.procs[p]) ==> s.procs[p].WaitFull?;
    TotalZero(HasEmpty, s.procs);
    TotalZero(HasFull, s.procs);
    TotalZero(Unposted, s.procs);
    TotalZero(Unread, s.procs);
    NothingHeld(s.procs);
  }

  lemma WorkBound(s: State)
    requires Inv(s)
    ensures Work(s) <= 19 * |s.ring| + |s.procs|
  {
    forall p | 0 <= p < |s.procs| ensures Pending(s.procs[p]) <= PendingBound(s.procs[p]) {
      assert Local(s, s.procs[p]);
    }
    TotalMonotone(Pending, s.procs, PendingBound, s.procs);
    PendingBoundTotal(s.procs);
  }

  function PendingBound(pc: Pc): nat { 18 * HasFull(pc) + 1 }

  lemma {:induction false} PendingBoundTotal(procs: seq<Pc>)
    ensures Total(PendingBound, procs) == 18 * Total(HasFull, procs) + |procs|
  {
    if procs == [] {
    } else {
      PendingBoundTotal(procs[1..]);
    }
  }

  /** A run of printer steps only. */
  ghost predicate IsPrinterRun(tr: seq<State>) {
    && tr != []
    && forall i :: 0 <= i < |tr| - 1 ==> PrinterStep(tr[i], tr[i + 1])
  }

  ghost predicate Draining(s: State) {
    Inv(s) && ClientsAtTop(s) && exists p :: 0 <= p < |s.procs| && !IsClient(s.procs[p])
  }

  lemma PrinterStepDrains(s: State, s': State)
    requires Draining(s) && PrinterStep(s, s')
    ensures Draining(s') && Work(s') < Work(s) && s'.stored == s.stored
  {
    PrinterStepFrame(s, s');
    PrinterStepWorks(s, s');
    var p :| 0 <= p < |s.procs| && !IsClient(s.procs[p]);
    assert !IsClient(s'.procs[p]);
  }

  lemma PrinterRunSplit(tr: seq<State>)
    requires IsPrinterRun(tr) && |tr| > 1
    ensures IsPrinterRun(tr[..|tr| - 1]) && PrinterStep(tr[|tr| - 2], tr[|tr| - 1])
  {
    var tr' := tr[..|tr| - 1];
    forall i | 0 <= i < |tr'| - 1 ensures PrinterStep(tr'[i], tr'[i + 1]) {
      assert PrinterStep(tr[i], tr[i + 1]);
    }
    assert PrinterStep(tr[|tr| - 2], tr[|tr| - 2 + 1]);
  }

  lemma {:induction false} PrinterRunDrains(tr: seq<State>)
    requires IsPrinterRun(tr) && Draining(tr[0])
    ensures var last := tr[|tr| - 1];
            Draining(last) && last.stored == tr[0].stored && |tr| - 1 + Work(last) <= Work(tr[0])
  {
    if |tr| == 1 {
    } else {
      PrinterRunSplit(tr);
      PrinterRunDrains(tr[..|tr| - 1]);
      PrinterStepDrains(tr[|tr| - 2], tr[|tr| - 1]);
    }
  }

  /** Printer-only runs are bounded by the work in their first state, and one that cannot be
      extended has fetched every stored task. */
  lemma PrintersDrain(tr: seq<State>)
    requires IsPrinterRun(tr) && Draining(tr[0])
    ensures |tr| - 1 <= Work(tr[0]) <= 19 * |tr[0].ring| + |tr[0].procs|
    ensures PrintersStuck(tr[|tr| - 1]) ==>
              tr[|tr| - 1].taken == tr[0].stored && multiset(tr[|tr| - 1].printed) == multiset(tr[0].stored)
  {
    WorkBound(tr[0]);
    PrinterRunDrains(tr);
    if PrintersStuck(tr[|tr| - 1]) {
      StuckIsDrained(tr[|tr| - 1]);
    }
  }
}
