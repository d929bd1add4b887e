/** The print buffer under schedules: a schedule names the process whose turn it is and what a client
    makes up in its turn. */
module PrintSchedule {
  import opened PrintBuffer

  /** Any order of turns among that many processes, with what a client makes up in its turn. */
  predicate IsSchedule(schedule: seq<(nat, Task)>, processes: nat) {
    forall k :: 0 <= k < |schedule| ==> schedule[k].0 < processes && IsTask(schedule[k].1)
  }

  /** One turn on values. */
  function Turned(s: State, p: nat, choice: Task): State {
    if Enabled(s, p) && InBounds(s, p) && IsTask(choice) then Next(s, p, choice) else s
  }

  /** The state the first n turns of a schedule lead to. */
  function After(s: State, schedule: seq<(nat, Task)>, n: nat): State
    requires n <= |schedule|
  {
    if n == 0 then s else Turned(After(s, schedule, n - 1), schedule[n - 1].0, schedule[n - 1].1)
  }

  lemma TurnedInv(s: State, p: nat, choice: Task)
    requires Inv(s)
    ensures Inv(Turned(s, p, choice)) && |Turned(s, p, choice).procs| == |s.procs|
  {
    var s' := Turned(s, p, choice);
    if s' != s {
      assert StepBy(s, p, choice, s');
      StepInv(s, s');
      RolesKept(s, s');
    }
  }

  /** Wherever a schedule leads, the invariant holds. */
  lemma {:induction false} AfterInv(s: State, schedule: seq<(nat, Task)>, n: nat)
    requires Inv(s) && n <= |schedule|
    ensures Inv(After(s, schedule, n)) && |After(s, schedule, n).procs| == |s.procs|
  {
    if n == 0 {
    } else {
      AfterInv(s, schedule, n - 1);
      TurnedInv(After(s, schedule, n - 1), schedule[n - 1].0, schedule[n - 1].1);
    }
  }

  lemma TurnExtends(tr: seq<State>, p: nat, choice: Task) returns (tr': seq<State>)
    requires IsRun(tr)
    ensures IsRun(tr') && tr'[0] == tr[0] && tr'[|tr'| - 1] == Turned(tr[|tr| - 1], p, choice)
  {
    var now := tr[|tr| - 1];
    var s := Turned(now, p, choice);
    tr' := tr;
    if s != now {
      assert StepBy(now, p, choice, s);
      ExtendRun(tr, s);
      tr' := tr + [s];
    }
  }

  lemma ExtendRun(tr: seq<State>, s: State)
    requires IsRun(tr) && Step(tr[|tr| - 1], s)
    ensures IsRun(tr + [s])
  {
    var tr' := tr + [s];
    forall i | 0 <= i < |tr'| - 1 ensures Step(tr'[i], tr'[i + 1]) {
      if i < |tr| - 1 {
        assert Step(tr[i], tr[i + 1]);
      }
    }
  }

  /** The turns that were not blocked make a run of the protocol. */
  lemma {:induction false} AfterIsRun(s: State, schedule: seq<(nat, Task)>, n: nat) returns (tr: seq<State>)
    requires Init(s) && n <= |schedule|
    ensures IsRun(tr) && tr[0] == s && tr[|tr| - 1] == After(s, schedule, n)
  {
    if n == 0 {
      tr := [s];
    } else {
      tr := AfterIsRun(s, schedule, n - 1);
      tr := TurnExtends(tr, schedule[n - 1].0, schedule[n - 1].1);
    }
  }

  lemma {:induction false} AfterPrefix(s: State, schedule: seq<(nat, Task)>, turn: (nat, Task), n: nat)
    requires n <= |schedule|
    ensures After(s, schedule + [turn], n) == After(s, schedule, n)
  {
    if n == 0 {
    } else {
      AfterPrefix(s, schedule, turn, n - 1);
    }
  }

  /** One more turn at the end. */
  lemma AfterTurn(s: State, schedule: seq<(nat, Task)>, turn: (nat, Task))
    ensures After(s, schedule + [turn], |schedule| + 1) == Turned(After(s, schedule, |schedule|), turn.0, turn.1)
  {
    AfterPrefix(s, schedule, turn, |schedule|);
  }

  lemma StepIsTurn(s: State, t: State) returns (turn: (nat, Task))
    requires Step(s, t)
    ensures Turned(s, turn.0, turn.1) == t && turn.0 < |s.procs| == |t.procs| && IsTask(turn.1)
  {
    var p: nat, choice :| StepBy(s, p, choice, t);
    NextProcs(s, p, choice);
    turn := (p, choice);
  }

  /** And every run is that of a schedule. */
  lemma {:induction false} RunIsAfter(tr: seq<State>) returns (schedule: seq<(nat, Task)>)
    requires IsRun(tr)
    ensures After(tr[0], schedule, |schedule|) == tr[|tr| - 1] && IsSchedule(schedule, |tr[0].procs|)
    ensures |tr[|tr| - 1].procs| == |tr[0].procs|
  {
    if |tr| == 1 {
      schedule := [];
    } else {
      RunSplit(tr);
      schedule := RunIsAfter(tr[..|tr| - 1]);
      var turn := StepIsTurn(tr[|tr| - 2], tr[|tr| - 1]);
      AfterTurn(tr[0], schedule, turn);
      schedule := schedule + [turn];
    }
  }

  // ----- What is composed is what the clients make up -----

  /** What the first n turns made up: the choices of the turns that a client had at lines 41-47. */
  function Made(s: State, schedule: seq<(nat, Task)>, n: nat): seq<Task>
    requires n <= |schedule|
  {
    if n == 0 then []
    else
      var (p, choice) := schedule[n - 1];
      Made(s, schedule, n - 1) + (if Composes(After(s, schedule, n - 1), p, choice) then [choice] else [])
  }

  predicate Composes(s: State, p: nat, choice: Task) {
    p < |s.procs| && s.procs[p].Compose? && IsTask(choice)
  }

  lemma TurnComposes(s: State, p: nat, choice: Task)
    ensures Turned(s, p, choice).composed == s.composed + (if Composes(s, p, choice) then [choice] else [])
  {
  }

  lemma {:induction false} AfterComposes(s: State, schedule: seq<(nat, Task)>, n: nat)
    requires n <= |schedule|
    ensures After(s, schedule, n).composed == s.composed + Made(s, schedule, n)
  {
    if n == 0 {
    } else {
      AfterComposes(s, schedule, n - 1);
      TurnComposes(After(s, schedule, n - 1), schedule[n - 1].0, schedule[n - 1].1);
    }
  }

  /** The schedule leads where the run does, and the tasks stored on the way are, in order, what the
      clients made up in it, up to the last one, which may still be on its way into the ring. */
  ghost predicate StoresChoices(tr: seq<State>, schedule: seq<(nat, Task)>)
    requires tr != []
  {
    var s, t := tr[0], tr[|tr| - 1];
    && After(s, schedule, |schedule|) == t
    && t.composed == Made(s, schedule, |schedule|)
    && t.taken <= t.stored <= Made(s, schedule, |schedule|)
    && |Made(s, schedule, |schedule|)| <= |t.stored| + 1
  }

  /** Every run stores, and so fetches, what its clients made up. */
  lemma RunStoresChoices(tr: seq<State>)
    requires IsRun(tr)
    ensures exists schedule: seq<(nat, Task)> :: StoresChoices(tr, schedule)
  {
    var schedule := RunIsAfter(tr);
    AfterComposes(tr[0], schedule, |schedule|);
    RunIsFifo(tr);
    assert StoresChoices(tr, schedule);
  }

  // ----- One process alone -----

  /** n turns of process p, and of nobody else. */
  function Solo(s: State, p: nat, choice: Task, n: nat): State {
    if n == 0 then s else Turned(Solo(s, p, choice, n - 1), p, choice)
  }

  lemma {:induction false} SoloInv(s: State, p: nat, choice: Task, n: nat)
    requires Inv(s)
    ensures Inv(Solo(s, p, choice, n))
  {
    if n == 0 {
    } else {
      SoloInv(s, p, choice, n - 1);
      TurnedInv(Solo(s, p, choice, n - 1), p, choice);
    }
  }

  /** The state t follows s in turns of process p alone. */
  ghost predicate Leads(s: State, p: nat, choice: Task, t: State) {
    exists n: nat :: Solo(s, p, choice, n) == t
  }

  lemma LeadsSelf(s: State, p: nat, choice: Task)
    ensures Leads(s, p, choice, s)
  {
    assert Solo(s, p, choice, 0) == s;
  }

  lemma LeadsInv(s: State, p: nat, choice: Task, t: State)
    requires Inv(s) && Leads(s, p, choice, t)
    ensures Inv(t)
  {
    var n: nat :| Solo(s, p, choice, n) == t;
    SoloInv(s, p, choice, n);
  }

  lemma LeadsNext(s: State, p: nat, choice: Task, t: State)
    requires Leads(s, p, choice, t) && Enabled(t, p) && InBounds(t, p) && IsTask(choice)
    ensures Leads(s, p, choice, Next(t, p, choice))
  {
    var n: nat :| Solo(s, p, choice, n) == t;
    assert Solo(s, p, choice, n + 1) == Next(t, p, choice);
  }

  lemma CopiesByte(s: State, p: nat, choice: Task)
    requires Enabled(s, p) && InBounds(s, p) && s.procs[p].Store? && IsTask(s.procs[p].task)
    ensures var s', pc := Next(s, p, choice), s.procs[p];
            if pc.k == TASK_BYTES - 1
            then s' == s.(ring := s'.ring, procs := s.procs[p := BumpIn], stored := s.stored + [pc.task])
            else s' == s.(ring := s'.ring, procs := s.procs[p := Store(pc.task, pc.slot, pc.k + 1)])
  {
  }

  /** The copy into the slot ends with the whole task stored. */
  lemma {:induction false} CopiesIn(s: State, p: nat, choice: Task, t: State, k: nat) returns (u: State)
    requires Inv(s) && Leads(s, p, choice, t) && IsTask(choice)
    requires p < |t.procs| && t.procs[p].Store? && t.procs[p].k == k
    ensures Leads(s, p, choice, u)
    ensures u == t.(ring := u.ring, procs := t.procs[p := BumpIn], stored := t.stored + [t.procs[p].task])
    decreases TASK_BYTES - k
  {
    LeadsInv(s, p, choice, t);
    assert Local(t, t.procs[p]);
    LeadsNext(s, p, choice, t);
    CopiesByte(t, p, choice);
    u := Next(t, p, choice);
    if k < TASK_BYTES - 1 {
      u := CopiesIn(s, p, choice, u, k + 1);
    }
  }

  lemma ClientEnters(s: State, p: nat, choice: Task) returns (t: State)
    requires IsTask(choice) && p < |s.procs| && s.procs[p].WaitEmpty? && s.empty > 0 && s.used > 0
    ensures Leads(s, p, choice, t)
    ensures t == s.(empty := s.empty - 1, used := s.used - 1, composed := s.composed + [choice],
                    procs := s.procs[p := Store(choice, s.inPos, 0)])
  {
    LeadsSelf(s, p, choice);
    LeadsNext(s, p, choice, s);
    var t1 := Next(s, p, choice);
    LeadsNext(s, p, choice, t1);
    var t2 := Next(t1, p, choice);
    LeadsNext(s, p, choice, t2);
    t := Next(t2, p, choice);
  }

  /** A client can make up any ten lower-case letters. */
  lemma AnyWordIsTask(word: string)
    ensures IsTask(word + ['\0']) <==> |word| == 10 && forall k :: 0 <= k < |word| ==> 'a' <= word[k] <= 'z'
  {
    var task := word + ['\0'];
    assert forall k :: 0 <= k < |word| ==> task[k] == word[k];
  }

  /** A client with room in the ring and nobody in the critical section stores what it makes up, on
      its own. */
  lemma ClientStores(s: State, p: nat, choice: Task) returns (t: State)
    requires Inv(s) && IsTask(choice) && p < |s.procs| && s.procs[p].WaitEmpty? && s.empty > 0 && s.used > 0
    ensures Leads(s, p, choice, t)
    ensures t.stored == s.stored + [choice] && t.taken == s.taken && t.printed == s.printed
    ensures t.procs == s.procs && t.used == s.used && t.empty == s.empty - 1 && t.full == s.full + 1
  {
    var t3 := ClientEnters(s, p, choice);
    var t4 := CopiesIn(s, p, choice, t3, 0);
    LeadsInv(s, p, choice, t4);
    t := ClientLeaves(s, p, choice, t4);
  }

  lemma ClientLeaves(s: State, p: nat, choice: Task, t: State) returns (u: State)
    requires Leads(s, p, choice, t) && IsTask(choice) && p < |t.procs| && t.procs[p].BumpIn? && |t.ring| > 0
    ensures Leads(s, p, choice, u)
    ensures u == t.(inPos := u.inPos, used := t.used + 1, full := t.full + 1, procs := t.procs[p := WaitEmpty])
  {
    LeadsNext(s, p, choice, t);
    var t1 := Next(t, p, choice);
    LeadsNext(s, p, choice, t1);
    var t2 := Next(t1, p, choice);
    LeadsNext(s, p, choice, t2);
    u := Next(t2, p, choice);
  }

  lemma FetchesByte(s: State, p: nat, choice: Task)
    requires Inv(s) && Enabled(s, p) && InBounds(s, p) && s.procs[p].Fetch?
    ensures |s.taken| < |s.stored|
    ensures var s', pc := Next(s, p, choice), s.procs[p];
            if |pc.got| == TASK_BYTES - 1
            then s' == s.(procs := s.procs[p := BumpOut(s.stored[|s.taken|], |s.taken|)],
                          taken := s.taken + [s.stored[|s.taken|]])
            else s'.procs[p].Fetch? && |s'.procs[p].got| == |pc.got| + 1 && s' == s.(procs := s.procs[p := s'.procs[p]])
  {
    var pc := s.procs[p];
    assert Local(s, pc);
    FetchesOldest(s, p);
    var task := s.stored[|s.taken|];
    assert IsTask(task);
    assert s.ring[pc.slot][|pc.got|] == task[|pc.got|];
    if |pc.got| == TASK_BYTES - 1 {
      assert pc.got + [task[|pc.got|]] == task;
    }
  }

  /** The copy out of the slot ends with the oldest task taken. */
  lemma {:induction false} CopiesOut(s: State, p: nat, choice: Task, t: State, k: nat) returns (u: State)
    requires Inv(s) && Leads(s, p, choice, t) && IsTask(choice)
    requires p < |t.procs| && t.procs[p].Fetch? && |t.procs[p].got| == k < TASK_BYTES
    ensures Leads(s, p, choice, u) && |t.taken| < |t.stored|
    ensures u == t.(procs := t.procs[p := BumpOut(t.stored[|t.taken|], |t.taken|)],
                    taken := t.taken + [t.stored[|t.taken|]])
    decreases TASK_BYTES - k
  {
    LeadsInv(s, p, choice, t);
    InvInBounds(t, p);
    LeadsNext(s, p, choice, t);
    FetchesByte(t, p, choice);
    u := Next(t, p, choice);
    if k < TASK_BYTES - 1 {
      u := CopiesOut(s, p, choice, u, k + 1);
    }
  }

  lemma PrinterEnters(s: State, p: nat, choice: Task) returns (t: State)
    requires IsTask(choice) && p < |s.procs| && s.procs[p].WaitFull? && s.full > 0 && s.used > 0
    ensures Leads(s, p, choice, t)
    ensures t == s.(full := s.full - 1, used := s.used - 1, procs := s.procs[p := Fetch(s.outPos, [])])
  {
    LeadsSelf(s, p, choice);
    LeadsNext(s, p, choice, s);
    var t1 := Next(s, p, choice);
    LeadsNext(s, p, choice, t1);
    var t2 := Next(t1, p, choice);
    LeadsNext(s, p, choice, t2);
    t := Next(t2, p, choice);
  }

  /** A printer with something in the ring and nobody in the critical section fetches the oldest task
      and prints it, on its own. */
  lemma PrinterPrints(s: State, p: nat, choice: Task) returns (t: State)
    requires Inv(s) && IsTask(choice) && p < |s.procs| && s.procs[p].WaitFull? && s.full > 0 && s.used > 0
    ensures Leads(s, p, choice, t) && |s.taken| < |s.stored|
    ensures t.taken == s.taken + [s.stored[|s.taken|]] && t.printed == s.printed + [s.stored[|s.taken|]]
    ensures t.procs == s.procs && t.used == s.used && t.full == s.full - 1 && t.empty == s.empty + 1
    ensures t.stored == s.stored
  {
    var t3 := PrinterEnters(s, p, choice);
    var t4 := CopiesOut(s, p, choice, t3, 0);
    t := PrinterLeaves(s, p, choice, t4);
  }

  lemma PrinterLeaves(s: State, p: nat, choice: Task, t: State) returns (u: State)
    requires Leads(s, p, choice, t) && IsTask(choice) && p < |t.procs| && t.procs[p].BumpOut? && |t.ring| > 0
    ensures Leads(s, p, choice, u)
    ensures u == t.(outPos := u.outPos, used := t.used + 1, empty := t.empty + 1, procs := t.procs[p := WaitFull],
                    printed := t.printed + [t.procs[p].task])
  {
    LeadsNext(s, p, choice, t);
    var t1 := Next(t, p, choice);
    LeadsNext(s, p, choice, t1);
    var t2 := Next(t1, p, choice);
    u := PrinterFinishes(s, p, choice, t2);
  }

  lemma PrinterFinishes(s: State, p: nat, choice: Task, t: State) returns (u: State)
    requires Leads(s, p, choice, t) && IsTask(choice) && p < |t.procs| && t.procs[p].PostEmpty?
    ensures Leads(s, p, choice, u)
    ensures u == t.(empty := t.empty + 1, procs := t.procs[p := WaitFull], printed := t.printed + [t.procs[p].task])
  {
    LeadsNext(s, p, choice, t);
    var t1 := Next(t, p, choice);
    LeadsNext(s, p, choice, t1);
    u := Next(t1, p, choice);
  }
}
