/** Which clients of the chat end: a child leaves its loop only after a message, so one that takes its
    goodbye with its flag still set stays for ever, and its parent with it. */
module ChatClosing {
  import opened Chat
  import opened ChatInvariant
  import opened ChatIdentity
  import opened ChatOrder
  import opened ChatProgress

  /** The child waits for a message and there is none to come. */
  predicate Stranded(c: Client) {
    c.membership.Left? && c.inbox == [] && c.child.Looping?
  }

  /** The child takes its goodbye without having been interrupted. */
  predicate TakesGoodbye(s: State, m: Move, p: Pid) {
    && m == Receive(p) && p < |s.procs| && s.procs[p].child == Looping(true)
    && s.procs[p].inbox != [] && s.procs[p].inbox[0].Stop?
  }

  lemma ReceiveStrands(s: State, p: Pid)
    requires Enabled(s, Receive(p)) && LogOk(s) && Delivering(s, p) && Answered(s, p)
    ensures Stranded(ChildNext(s.procs[p])) <==> TakesGoodbye(s, Receive(p), p)
  {
    var c := s.procs[p];
    assert c.mail[|c.shown|] == c.inbox[0];
    if c.inbox[0].Stop? {
      StopIsGoodbye(s, p);
    }
  }

  lemma MoveStrands(s: State, m: Move, p: Pid)
    requires Enabled(s, m) && !m.Serve? && p < |s.procs| && LogOk(s) && Delivering(s, p) && Addressed(s, p)
    ensures p < |Next(s, m).procs|
    ensures Stranded(Next(s, m).procs[p]) <==> Stranded(s.procs[p]) || TakesGoodbye(s, m, p)
  {
    if m == Receive(p) {
      ReceiveStrands(s, p);
    }
  }

  /** Whoever the server says goodbye to has that message in its inbox. */
  lemma GoodbyeInInbox(s: State, p: Pid)
    requires Enabled(s, Serve) && p < |s.procs| && !s.procs[p].membership.Left?
    ensures p < |ServerNext(s).procs|
    ensures ServerNext(s).procs[p].membership.Left? ==> ServerNext(s).procs[p].inbox != []
  {
    if s.server.Goodbye? && Target(s) == p {
      assert ServerNext(s).procs[p].inbox == s.procs[p].inbox + [s.server.msg];
    }
  }

  lemma ServeStrands(s: State, p: Pid)
    requires Enabled(s, Serve) && Ordered(s) && p < |s.procs|
    ensures p < |ServerNext(s).procs|
    ensures Stranded(ServerNext(s).procs[p]) <==> Stranded(s.procs[p])
  {
    if s.procs[p].membership.Left? {
      ServeKeepsLeft(s, p);
    } else {
      GoodbyeInInbox(s, p);
    }
  }

  /** A child is stranded from the moment it takes its goodbye with its flag set, and in no other
      way, whatever happens. */
  lemma StepStranded(s: State, m: Move, p: Pid)
    requires Ordered(s) && Enabled(s, m) && p < |s.procs|
    ensures p < |Next(s, m).procs|
    ensures Stranded(Next(s, m).procs[p]) <==> Stranded(s.procs[p]) || TakesGoodbye(s, m, p)
  {
    assert Delivering(s, p) && Addressed(s, p);
    if m.Serve? {
      ServeStrands(s, p);
    } else {
      MoveStrands(s, m, p);
    }
  }

  /** A parent closes by finding its child gone. */
  predicate ReapedOk(c: Client) { c.parent.Closed? ==> c.child.Exited? }

  lemma StepReaps(s: State, m: Move, p: Pid)
    requires Enabled(s, m) && p < |s.procs| && ReapedOk(s.procs[p])
    ensures p < |Next(s, m).procs| && ReapedOk(Next(s, m).procs[p])
  {
  }

  ghost predicate TookGoodbye(tr: seq<State>, ms: seq<Move>, p: Pid)
    requires |tr| == |ms| + 1
  {
    exists k :: 0 <= k < |ms| && TakesGoodbye(tr[k], ms[k], p)
  }

  lemma TookSplit(tr: seq<State>, ms: seq<Move>, p: Pid)
    requires |tr| == |ms| + 1 && ms != []
    ensures var k := |ms| - 1;
            TookGoodbye(tr, ms, p) <==> TookGoodbye(tr[..|tr| - 1], ms[..k], p) || TakesGoodbye(tr[k], ms[k], p)
  {
    var k := |ms| - 1;
    forall j | 0 <= j < k
      ensures TakesGoodbye(tr[j], ms[j], p) == TakesGoodbye(tr[..|tr| - 1][j], ms[..k][j], p)
    {
    }
  }

  lemma {:induction false} RunStranded(tr: seq<State>, ms: seq<Move>, p: Pid)
    requires IsRun(tr, ms) && Ordered(tr[0]) && p < |tr[0].procs| && ReapedOk(tr[0].procs[p])
    ensures var last := tr[|tr| - 1];
            && p < |last.procs| && ReapedOk(last.procs[p])
            && (Stranded(last.procs[p]) <==> Stranded(tr[0].procs[p]) || TookGoodbye(tr, ms, p))
  {
    if ms == [] {
    } else {
      var k := |ms| - 1;
      LastStep(tr, ms);
      RunStranded(tr[..|tr| - 1], ms[..k], p);
      RunOrdered(tr[..|tr| - 1], ms[..k]);
      StepStranded(tr[k], ms[k], p);
      StepReaps(tr[k], ms[k], p);
      TookSplit(tr, ms, p);
    }
  }

  /** In every run: the children that are stranded at the end are those that took their goodbye
      uninterrupted, and none of their clients has closed. */
  lemma WhoIsStranded(tr: seq<State>, ms: seq<Move>, p: Pid)
    requires IsRun(tr, ms) && InitState(tr[0]) && p < |tr[0].procs|
    ensures var last := tr[|tr| - 1];
            && p < |last.procs|
            && (Stranded(last.procs[p]) <==> TookGoodbye(tr, ms, p))
            && (TookGoodbye(tr, ms, p) ==> !last.procs[p].parent.Closed?)
  {
    InitOrdered(tr[0]);
    assert tr[0].procs[p].child == Unborn;
    RunStranded(tr, ms, p);
  }

  /** A child that has something to receive can be interrupted, take it and exit. */
  lemma CanExit(s: State, p: Pid) returns (t: State)
    requires InBounds(s) && p < |s.procs| && s.procs[p].child.Looping? && s.procs[p].inbox != []
    ensures Reaches(s, t) && InBounds(t) && |t.procs| == |s.procs|
    ensures t.procs[p].child.Exited? && t.procs[p].parent == s.procs[p].parent
  {
    ReachSelf(s);
    ReachNext(s, s, InterruptChild(p));
    var t1 := Next(s, InterruptChild(p));
    ReachNext(s, t1, Receive(p));
    t := Next(t1, Receive(p));
  }

  lemma WaitingChild(s: State, p: Pid)
    requires Addressed(s, p) && s.procs[p].parent.Waiting?
    ensures s.procs[p].child.Looping? || s.procs[p].child.Exited?
  {
  }

  ghost predicate CanClose(s: State, p: Pid) {
    exists t :: Reaches(s, t) && p < |t.procs| && t.procs[p].parent.Closed?
  }

  /** At any point of any run: a client that waits for its child, and will get no more messages or
      has one to receive, can still close if and only if its child is not stranded. */
  lemma ClosesIff(s: State, p: Pid)
    requires Ordered(s) && p < |s.procs| && s.procs[p].parent.Waiting?
    requires s.procs[p].membership.Left? || s.procs[p].inbox != [] || s.procs[p].child.Exited?
    ensures CanClose(s, p) <==> !Stranded(s.procs[p])
  {
    if Stranded(s.procs[p]) {
      forall t | Reaches(s, t) ensures p < |t.procs| && !t.procs[p].parent.Closed? {
        var tr: seq<State>, ms: seq<Move> :| RunFromTo(tr, ms, s, t);
        RunStranded(tr, ms, p);
      }
    } else {
      assert Addressed(s, p);
      WaitingChild(s, p);
      SoundInBounds(s);
      ReachSelf(s);
      var t := s;
      if s.procs[p].child.Looping? {
        t := CanExit(s, p);
      }
      ReachNext(s, t, Reap(p));
      assert Next(t, Reap(p)).procs[p].parent.Closed?;
    }
  }

  /** So once everything is delivered, exactly the waiting clients whose child has exited close. */
  lemma DeliveredCloses(s: State, p: Pid)
    requires Ordered(s) && Inv(s) && Delivered(s) && p < |s.procs| && s.procs[p].parent.Waiting?
    ensures CanClose(s, p) <==> s.procs[p].child.Exited?
  {
    assert ClientOk(s, p) && Addressed(s, p);
    assert From(p, Pending(s)) == [];
    WaitingChild(s, p);
    ClosesIff(s, p);
  }
}
