/** What a client of the chat can count on: when it has to wait, that it can leave, and how long its id
    is in danger. */
module ChatLife {
  import opened Chat
  import opened ChatInvariant
  import opened ChatIdentity
  import opened ChatOrder
  import opened ChatRuns
  import opened ChatProgress

  // ----- Who waits for what -----

  predicate ByParent(m: Move, p: Pid) {
    || m == SendInit(p) || m == ReadId(p) || (m.ReadNothing? && m.p == p) || (m.SendText? && m.p == p)
    || m == Interrupt(p) || m == SendStop(p) || m == Reap(p)
  }

  predicate ByChild(m: Move, p: Pid) { m == Look(p) || m == Receive(p) }

  ghost predicate ParentWaits(s: State, p: Pid) {
    forall m :: ByParent(m, p) ==> !Enabled(s, m)
  }

  ghost predicate ChildWaits(s: State, p: Pid) {
    forall m :: ByChild(m, p) ==> !Enabled(s, m)
  }

  /** In every state that a run can reach: a parent waits to send its INIT or STOP when the server's
      queue is full, to read while its pipe is empty and its child alive, and to reap while its child
      is alive, and never otherwise before it has closed. */
  lemma WhenParentsWait(s: State, p: Pid)
    requires Sound(s) && p < |s.procs|
    ensures var c := s.procs[p];
            ParentWaits(s, p) <==>
              || ((c.parent.Starting? || c.parent.Stopping?) && |s.queue| >= QUEUE_LENGTH)
              || (c.parent.AwaitingId? && c.pipe == [] && !c.child.Exited?)
              || (c.parent.Waiting? && !c.child.Exited?)
              || c.parent.Closed?
  {
    SoundInBounds(s);
    var c := s.procs[p];
    match c.parent
    case Starting => assert ByParent(SendInit(p), p);
    case AwaitingId => assert ByParent(ReadId(p), p) && ByParent(ReadNothing(p, 0), p);
    case Chatting(_) => assert ByParent(Interrupt(p), p) && Enabled(s, Interrupt(p));
    case Stopping(_) => assert ByParent(SendStop(p), p);
    case Waiting(_) => assert ByParent(Reap(p), p);
    case Closed(_) =>
  }

  /** A child waits only for a message, and a chatting parent can send any text that fits in the
      server's queue. */
  lemma WhenChildrenWait(s: State, p: Pid)
    requires Sound(s) && p < |s.procs|
    ensures var c := s.procs[p];
            ChildWaits(s, p) <==> c.child.Unborn? || c.child.Exited? || (c.child.Looping? && c.inbox == [])
    ensures s.procs[p].parent.Chatting? ==>
              forall body: string :: Enabled(s, SendText(p, body)) <==> |s.queue| < QUEUE_LENGTH
  {
    SoundInBounds(s);
    assert ByChild(Look(p), p) && ByChild(Receive(p), p);
  }

  /** Interrupts may come at any time: to a chatting parent, which then stops under the id it has, and
      to a child that lives. */
  lemma InterruptsAnyTime(s: State, p: Pid)
    requires Sound(s) && p < |s.procs|
    ensures s.procs[p].parent.Chatting? ==>
              && Enabled(s, Interrupt(p))
              && Next(s, Interrupt(p)) ==
                 s.(procs := s.procs[p := s.procs[p].(parent := Stopping(s.procs[p].parent.id))])
    ensures s.procs[p].child.Forked? || s.procs[p].child.Looping? ==> Enabled(s, InterruptChild(p))
  {
    SoundInBounds(s);
  }

  // ----- How long the id is in danger -----

  /** The child has looked at its flag. */
  predicate Looked(c: Client) { !c.child.Unborn? && !c.child.Forked? }

  lemma StepLooked(s: State, m: Move, p: Pid)
    requires Enabled(s, m) && p < |s.procs| && Looked(s.procs[p]) && PassedOn(s.procs[p])
    ensures p < |Next(s, m).procs| && Looked(Next(s, m).procs[p])
  {
  }

  lemma {:induction false} LookedIsCalm(tr: seq<State>, ms: seq<Move>, p: Pid)
    requires IsRun(tr, ms) && Sound(tr[0]) && Addressed(tr[0], p) && Looked(tr[0].procs[p])
    ensures Calm(tr, ms, p) && p < |tr[|tr| - 1].procs| && Looked(tr[|tr| - 1].procs[p])
  {
    if ms == [] {
    } else {
      var k := |ms| - 1;
      LastStep(tr, ms);
      LookedIsCalm(tr[..|tr| - 1], ms[..k], p);
      RunAddressed(tr[..|tr| - 1], ms[..k], p);
      StepLooked(tr[k], ms[k], p);
      CalmSplit(tr, ms, p);
    }
  }

  /** A parent at its read is safe from any interrupt still to come exactly from its child's first
      look on, if that found the flag set. */
  lemma SafeIff(s: State, p: Pid)
    requires Sound(s) && Addressed(s, p) && s.procs[p].parent.AwaitingId?
    ensures (forall t :: Reaches(s, t) ==> p < |t.procs| && HoldsOwnId(t.procs[p])) <==>
              Looked(s.procs[p]) && !Early(s.procs[p])
  {
    if Looked(s.procs[p]) && !Early(s.procs[p]) {
      forall t | Reaches(s, t) ensures p < |t.procs| && HoldsOwnId(t.procs[p]) {
        var tr: seq<State>, ms: seq<Move> :| RunFromTo(tr, ms, s, t);
        LookedIsCalm(tr, ms, p);
        RunClient(tr, ms, p);
      }
    } else {
      var t := CanLoseId(s, p);
      assert !HoldsOwnId(t.procs[p]);
    }
  }

  lemma CanLoseId(s: State, p: Pid) returns (t: State)
    requires Sound(s) && Addressed(s, p) && s.procs[p].parent.AwaitingId?
    requires !Looked(s.procs[p]) || Early(s.procs[p])
    ensures Reaches(s, t) && p < |t.procs| && t.procs[p].parent == Chatting(-1)
    ensures t.procs[p].membership == s.procs[p].membership
  {
    SoundInBounds(s);
    ReachSelf(s);
    var early := s;
    if s.procs[p].child == Forked(true) {
      ReachNext(s, s, InterruptChild(p));
      StepSound(s, InterruptChild(p));
      StepAddressed(s, InterruptChild(p), p);
      early := Next(s, InterruptChild(p));
    }
    t := EarlyReadsAnything(early, p, -1);
    CalmReach(s, early, t, p);
  }

  lemma CalmReach(s: State, t: State, u: State, p: Pid)
    requires Reaches(s, t) && CalmlyReaches(t, u, p)
    ensures Reaches(s, u)
  {
    var tr: seq<State>, ms: seq<Move> :| RunFromTo(tr, ms, t, u) && Calm(tr, ms, p);
    ReachRun(s, tr, ms);
  }

  lemma {:induction false} ReachRun(s: State, tr: seq<State>, ms: seq<Move>)
    requires IsRun(tr, ms) && Reaches(s, tr[0])
    ensures Reaches(s, tr[|tr| - 1])
  {
    if ms == [] {
    } else {
      var k := |ms| - 1;
      LastStep(tr, ms);
      ReachRun(s, tr[..|tr| - 1], ms[..k]);
      ReachNext(s, tr[k], ms[k]);
    }
  }

  // ----- Leaving -----

  /** The child receives all its mail, without an interrupt. */
  predicate Attends(c: Client) {
    || c.child.Unborn? || c.child == Forked(true) || c.child == Looping(true)
    || (c.membership.Left? && c.inbox == [])
  }

  ghost predicate Attentive(s: State) {
    && Inv(s) && Ordered(s) && |s.procs| <= SLOTS && !s.server.Overrun?
    && forall p :: 0 <= p < |s.procs| ==> Attends(s.procs[p])
  }

  /** A delivery that is not an interrupt keeps children attending. */
  lemma AttendsOn(s: State, m: Move, p: Pid)
    requires Ordered(s) && Enabled(s, m) && p < |s.procs| && Attends(s.procs[p]) && m != InterruptChild(p)
    ensures p < |Next(s, m).procs| && Attends(Next(s, m).procs[p])
  {
    assert Delivering(s, p) && Addressed(s, p);
    if m.Serve? {
      if s.procs[p].membership.Left? {
        ServeKeepsLeft(s, p);
      } else {
        ServeKeepsChild(s, p);
      }
    } else {
      MoveFrame(s, m);
    }
  }

  lemma StepAttentive(s: State, m: Move)
    requires Attentive(s) && Enabled(s, m) && !m.InterruptChild? && !m.ReadNothing?
    ensures Attentive(Next(s, m)) && |Next(s, m).procs| == |s.procs|
  {
    StepInv(s, m);
    StepOrdered(s, m);
    StepOverruns(s, m);
    forall p | 0 <= p < |s.procs| ensures Attends(Next(s, m).procs[p]) {
      AttendsOn(s, m, p);
    }
  }

  /** Deliveries do not move a parent that has its id. */
  lemma DeliveryKeepsParents(s: State, m: Move, p: Pid)
    requires Enabled(s, m) && Delivers(m) && p < |s.procs| && HoldsId(s.procs[p].parent)
    ensures p < |Next(s, m).procs| && Next(s, m).procs[p].parent == s.procs[p].parent
  {
  }

  /** With children that attend everything can be delivered, and no parent that has its id moves. */
  lemma {:induction false} Drain(s: State, t: State, p: Pid) returns (u: State)
    requires Path(s, t) && Attentive(t) && p < |t.procs| && HoldsId(t.procs[p].parent)
    ensures Path(s, u) && Attentive(u) && Delivered(u) && |u.procs| == |t.procs|
    ensures u.procs[p].parent == t.procs[p].parent
    decreases Work(t)
  {
    if Delivered(t) {
      u := t;
    } else {
      assert Listening(t) by {
        assert forall q :: 0 <= q < |t.procs| ==> Attends(t.procs[q]);
      }
      var m := NeverDeadlocked(t);
      PathNext(s, t, m);
      StepAttentive(t, m);
      DeliveryWorks(t, m);
      DeliveryKeepsParents(t, m, p);
      u := Drain(s, Next(t, m), p);
    }
  }

  /** With nothing else on its way, a stopping parent's STOP gets it its goodbye and frees its slot. */
  lemma StopIsServed(s: State, t: State, p: Pid) returns (u: State)
    requires Path(s, t) && Attentive(t) && Delivered(t) && p < |t.procs| && t.procs[p].parent.Stopping?
    ensures Path(s, u) && |u.procs| == |t.procs| && Inv(u) && Ordered(u)
    ensures u.server == Receiving && u.queue == [] && p !in u.table && u.procs[p].membership.Left?
    ensures u.procs[p].child == Looping(true) && u.procs[p].parent == Waiting(t.procs[p].parent.id)
    ensures u.procs[p].inbox == [Stop(t.procs[p].parent.id, p)]
  {
    assert ClientOk(t, p) && Attends(t.procs[p]);
    var id := t.procs[p].parent.id;
    InvInBounds(t);
    PathNext(s, t, SendStop(p));
    StepInv(t, SendStop(p));
    StepOrdered(t, SendStop(p));
    u := Next(t, SendStop(p));
    assert u.queue == [Stop(id, p)];
    u := ServeStop(s, u, p, id);
  }

  lemma ServeStop(s: State, t: State, p: Pid, id: int) returns (u: State)
    requires Path(s, t) && Inv(t) && Ordered(t) && p < |t.procs| && t.procs[p].parent == Waiting(id)
    requires t.server == Receiving && t.queue == [Stop(id, p)] && t.procs[p].inbox == []
    ensures Path(s, u) && |u.procs| == |t.procs| && Inv(u) && Ordered(u)
    ensures u.server == Receiving && u.queue == [] && p !in u.table && u.procs[p].membership.Left?
    ensures u.procs[p].child == t.procs[p].child && u.procs[p].parent == Waiting(id)
    ensures u.procs[p].inbox == [Stop(id, p)]
  {
    var t1 := ServeOnce(s, t);
    assert t1.server == Handling(Stop(id, p)) && t1.queue == [];
    assert Pending(t1)[0] == Stop(id, p);
    HandIsOwned(t1, p);
    var t2 := ServeOnce(s, t1);
    assert t2.server == Goodbye(Stop(id, p));
    u := ServeOnce(s, t2);
    StopFreesItsSender(t2);
  }

  lemma ServeOnce(s: State, t: State) returns (u: State)
    requires Path(s, t) && Inv(t) && Ordered(t) && Enabled(t, Serve)
    ensures u == ServerNext(t) && Path(s, u) && Inv(u) && Ordered(u) && |u.procs| == |t.procs|
  {
    PathNext(s, t, Serve);
    StepInv(t, Serve);
    StepOrdered(t, Serve);
    u := Next(t, Serve);
  }

  /** A chatting client that is interrupted can leave: some run has its STOP served, its slot free, its
      goodbye last in its mail, and, once its child is interrupted too, ends with the client closed. */
  lemma CanLeave(s: State, p: Pid) returns (t: State, u: State)
    requires Attentive(s) && p < |s.procs| && s.procs[p].parent.Chatting?
    ensures Enabled(s, Interrupt(p)) && Path(Next(s, Interrupt(p)), t) && Path(Next(s, Interrupt(p)), u)
    ensures p < |t.procs| && t.procs[p].membership.Left? && p !in t.table
    ensures t.procs[p].mail != [] && t.procs[p].mail[|t.procs[p].mail| - 1] == Stop(s.procs[p].parent.id, p)
    ensures p < |u.procs| && u.procs[p].parent.Closed? && p !in u.table && u.procs[p].shown == u.procs[p].mail
  {
    InvInBounds(s);
    var s1 := Next(s, Interrupt(p));
    StepAttentive(s, Interrupt(p));
    PathSelf(s1);
    var s2 := Drain(s1, s1, p);
    t := StopIsServed(s1, s2, p);
    assert Delivering(t, p) && Addressed(t, p);
    u := TakeGoodbye(s1, t, p);
  }

  lemma TakeGoodbye(s: State, t: State, p: Pid) returns (u: State)
    requires Path(s, t) && Ordered(t) && p < |t.procs| && |t.procs[p].inbox| == 1
    requires t.procs[p].child == Looping(true) && t.procs[p].parent.Waiting? && p !in t.table
    ensures Path(s, u) && p < |u.procs| && u.procs[p].parent.Closed? && p !in u.table
    ensures u.procs[p].shown == u.procs[p].mail
  {
    assert Addressed(t, p);
    SoundInBounds(t);
    PathNext(s, t, InterruptChild(p));
    u := ExitAndReap(s, Next(t, InterruptChild(p)), p);
  }

  lemma ExitAndReap(s: State, t: State, p: Pid) returns (u: State)
    requires Path(s, t) && InBounds(t) && p < |t.procs| && |t.procs[p].inbox| == 1
    requires t.procs[p].child == Looping(false) && t.procs[p].parent.Waiting? && p !in t.table
    requires t.procs[p].mail == t.procs[p].shown + t.procs[p].inbox
    ensures Path(s, u) && p < |u.procs| && u.procs[p].parent.Closed? && p !in u.table
    ensures u.procs[p].shown == u.procs[p].mail
  {
    PathNext(s, t, Receive(p));
    var t1 := Next(t, Receive(p));
    PathNext(s, t1, Reap(p));
    u := Next(t1, Reap(p));
    assert t.procs[p].inbox == [t.procs[p].inbox[0]];
  }
}
