/** When the bounded queues of the chat keep moving, and the one way they stop for good. */
module ChatProgress {
  import opened Chat
  import opened ChatInvariant
  import opened ChatIdentity
  import opened ChatOrder
  import opened ChatRuns
  import opened Sums

  // ----- Progress -----

  /** The client has started and its child will receive nothing more. */
  predicate Gone(c: Client) {
    !c.parent.Starting? && (c.child.Exited? || c.child == Forked(false))
  }

  /** The server sends to a full queue whose reader has gone. */
  predicate Blocked(s: State) {
    InBounds(s) && Target(s) != VACANT && |s.procs[Target(s)].inbox| >= QUEUE_LENGTH && Gone(s.procs[Target(s)])
  }

  /** The server has crashed or exited. */
  predicate Halted(s: State) { s.server.Overrun? || s.server.Failed? }

  /** Moves that bring no new input. */
  predicate Delivers(m: Move) { m.Serve? || m.Look? || m.Receive? || m.ReadId? }

  /** Nothing is on its way any more. */
  predicate Quiet(s: State) {
    && Pending(s) == [] && s.server.Receiving?
    && forall p :: 0 <= p < |s.procs| ==>
         (Gone(s.procs[p]) || s.procs[p].inbox == []) && (s.procs[p].parent.AwaitingId? ==> s.procs[p].pipe == [])
  }

  /** A client that has mail and is not gone can take it. */
  lemma Reading(s: State, p: Pid) returns (m: Move)
    requires Sound(s) && Addressed(s, p) && s.procs[p].inbox != [] && !Gone(s.procs[p])
    ensures Enabled(s, m) && (m == Look(p) || m == Receive(p))
  {
    SoundInBounds(s);
    m := if s.procs[p].child.Forked? then Look(p) else Receive(p);
  }

  /** In every state that a run can reach: unless the server is blocked for good, or halted,
      something can be delivered until nothing is on its way. */
  lemma UnlessBlocked(s: State) returns (m: Move)
    requires Steady(s) && !Blocked(s) && !Halted(s) && !Quiet(s)
    ensures Enabled(s, m) && Delivers(m)
  {
    SoundInBounds(s);
    if p: nat :| p < |s.procs| && !Gone(s.procs[p]) && s.procs[p].inbox != [] {
      m := Reading(s, p);
    } else if p: nat :| p < |s.procs| && s.procs[p].parent.AwaitingId? && s.procs[p].pipe != [] {
      m := ReadId(p);
    } else {
      m := Serve;
    }
  }

  // ----- Children that stay until their goodbye -----

  /** The child is not interrupted before its first look, and if it is interrupted later it does not
      leave before its goodbye. */
  predicate Stays(s: State, m: Move, p: Pid) {
    && !EarlyInterrupt(s, m, p)
    && (m == Receive(p) && p < |s.procs| && s.procs[p].child == Looping(false) && s.procs[p].inbox != [] ==>
          s.procs[p].inbox[0].Stop?)
  }

  /** The child still receives, or has received everything there was for it. */
  predicate ListensOn(c: Client) {
    c.child.Unborn? || c.child == Forked(true) || c.child.Looping? || (c.membership.Left? && c.inbox == [])
  }

  predicate Listening(s: State) {
    forall p :: 0 <= p < |s.procs| ==> ListensOn(s.procs[p])
  }

  lemma NoStopDue(s: State, p: Pid, k: nat)
    requires LogOk(s) && p < |s.procs| && Filed(s, p) && k < |Due(s, p, s.procs[p].membership)|
    ensures !Due(s, p, s.procs[p].membership)[k].Stop?
  {
    match s.procs[p].membership
    case Outside =>
    case Member(slot, from) => OtherIdsTexts(s.log[from..Reached(s, slot)], slot);
    case Left(slot, from, to) => OtherIdsTexts(s.log[from..to], slot);
  }

  /** A stop in a client's mail is its goodbye, and the end of its mail. */
  lemma StopEndsMail(s: State, p: Pid, k: nat)
    requires LogOk(s) && Delivering(s, p) && k < |s.procs[p].mail| && s.procs[p].mail[k].Stop?
    ensures s.procs[p].membership.Left? && k == |s.procs[p].mail| - 1
  {
    var mail, due := s.procs[p].mail, Due(s, p, s.procs[p].membership);
    assert k < |due| ==> mail[k] == due[k];
    if k < |due| {
      NoStopDue(s, p, k);
    }
  }

  /** A client that takes a stop has left and has no mail any more. */
  lemma StopIsGoodbye(s: State, p: Pid)
    requires LogOk(s) && Delivering(s, p) && Answered(s, p) && s.procs[p].inbox != [] && s.procs[p].inbox[0].Stop?
    ensures s.procs[p].membership.Left? && |s.procs[p].inbox| == 1
  {
    var c := s.procs[p];
    assert c.mail[|c.shown|] == c.inbox[0];
    StopEndsMail(s, p, |c.shown|);
  }

  lemma OwnMoveListens(s: State, m: Move)
    requires Enabled(s, m) && !m.Serve? && PassedOn(s.procs[m.p]) && ListensOn(s.procs[m.p])
    requires !EarlyInterrupt(s, m, m.p)
    requires m.Receive? && s.procs[m.p].child == Looping(false) ==>
               s.procs[m.p].membership.Left? && |s.procs[m.p].inbox| == 1
    ensures ListensOn(ParentNext(s, m))
  {
  }

  lemma MoveListens(s: State, m: Move, p: Pid)
    requires Enabled(s, m) && !m.Serve? && Stays(s, m, p) && LogOk(s) && Delivering(s, p) && Addressed(s, p)
    requires ListensOn(s.procs[p])
    ensures p < |Next(s, m).procs| && ListensOn(Next(s, m).procs[p])
  {
    MoveFrame(s, m);
    if m.p == p {
      if m.Receive? {
        if s.procs[p].child == Looping(false) {
          StopIsGoodbye(s, p);
        }
      }
      OwnMoveListens(s, m);
    }
  }

  /** A client that has left is not in the table, and gets no more messages. */
  lemma ServeKeepsLeft(s: State, p: Pid)
    requires Enabled(s, Serve) && Ordered(s) && p < |s.procs| && s.procs[p].membership.Left?
    ensures p < |ServerNext(s).procs| && ServerNext(s).procs[p] == s.procs[p]
  {
    assert Delivering(s, p) && Addressed(s, p);
    if s.server == Handling(Init(p)) {
      HandledUnanswered(s, p);
    }
    NotTarget(s, p);
    ServeOther(s, p);
  }

  /** The server sends only to clients that are registered. */
  lemma NotTarget(s: State, p: Pid)
    requires InBounds(s) && ServerLog(s) && p < |s.procs| && Filed(s, p) && !s.procs[p].membership.Member?
    ensures Target(s) != p
  {
  }

  lemma ServeKeepsChild(s: State, p: Pid)
    requires Enabled(s, Serve) && p < |s.procs|
    ensures |ServerNext(s).procs| == |s.procs| && ServerNext(s).procs[p].child == s.procs[p].child
  {
  }

  /** A child that stays keeps listening, whatever the others do. */
  lemma StayListening(s: State, m: Move, p: Pid)
    requires Ordered(s) && Enabled(s, m) && p < |s.procs| && ListensOn(s.procs[p]) && Stays(s, m, p)
    ensures p < |Next(s, m).procs| && ListensOn(Next(s, m).procs[p])
  {
    assert Delivering(s, p) && Addressed(s, p);
    if !m.Serve? {
      MoveListens(s, m, p);
    } else if s.procs[p].membership.Left? {
      ServeKeepsLeft(s, p);
    } else {
      ServeKeepsChild(s, p);
    }
  }

  /** And the server never gets stuck on its queue. */
  lemma ListeningNotBlocked(s: State, p: Pid)
    requires Ordered(s) && p < |s.procs| && ListensOn(s.procs[p])
    ensures !(Blocked(s) && Target(s) == p)
  {
    assert Delivering(s, p) && Addressed(s, p);
    if InBounds(s) && Target(s) == p {
      if !s.procs[p].membership.Member? {
        NotTarget(s, p);
      }
      assert s.procs[p].inbox != [] ==> s.procs[p].mail != [];
    }
  }

  ghost predicate StaysThroughout(tr: seq<State>, ms: seq<Move>, p: Pid)
    requires |tr| == |ms| + 1
  {
    forall k :: 0 <= k < |ms| ==> Stays(tr[k], ms[k], p)
  }

  lemma StaysSplit(tr: seq<State>, ms: seq<Move>, p: Pid)
    requires |tr| == |ms| + 1 && ms != [] && StaysThroughout(tr, ms, p)
    ensures StaysThroughout(tr[..|tr| - 1], ms[..|ms| - 1], p) && Stays(tr[|ms| - 1], ms[|ms| - 1], p)
  {
    var tr', ms' := tr[..|tr| - 1], ms[..|ms| - 1];
    forall j | 0 <= j < |ms'| ensures Stays(tr'[j], ms'[j], p) {
      assert Stays(tr[j], ms[j], p);
    }
  }

  lemma {:induction false} RunListens(tr: seq<State>, ms: seq<Move>, p: Pid)
    requires IsRun(tr, ms) && Ordered(tr[0]) && p < |tr[0].procs|
    requires ListensOn(tr[0].procs[p]) && StaysThroughout(tr, ms, p)
    ensures p < |tr[|tr| - 1].procs| && ListensOn(tr[|tr| - 1].procs[p])
  {
    if ms == [] {
    } else {
      var k := |ms| - 1;
      LastStep(tr, ms);
      StaysSplit(tr, ms, p);
      RunListens(tr[..|tr| - 1], ms[..k], p);
      RunOrdered(tr[..|tr| - 1], ms[..k]);
      StayListening(tr[k], ms[k], p);
    }
  }

  /** In every run, whatever the other clients do: the server is never stuck on the queue of a client
      whose child stays until its goodbye. */
  lemma NeverBlockedOn(tr: seq<State>, ms: seq<Move>, p: Pid)
    requires IsRun(tr, ms) && InitState(tr[0]) && p < |tr[0].procs| && StaysThroughout(tr, ms, p)
    ensures p < |tr[|tr| - 1].procs| && ListensOn(tr[|tr| - 1].procs[p])
    ensures !(Blocked(tr[|tr| - 1]) && Target(tr[|tr| - 1]) == p)
  {
    InitOrdered(tr[0]);
    assert tr[0].procs[p].child == Unborn;
    RunListens(tr, ms, p);
    RunOrdered(tr, ms);
    ListeningNotBlocked(tr[|tr| - 1], p);
  }

  // ----- Everything is delivered when all children stay -----

  /** Everything sent has been received, and every client that asked has its id. */
  predicate Delivered(s: State) {
    && Pending(s) == [] && s.server.Receiving?
    && forall p :: 0 <= p < |s.procs| ==> s.procs[p].inbox == [] && !s.procs[p].parent.AwaitingId?
  }

  /** With nothing on its way, a parent at its read has an id in its pipe. */
  lemma IdHasCome(s: State, p: Pid)
    requires Addressed(s, p) && Pending(s) == [] && s.server.Receiving?
    requires s.procs[p].inbox == [] && s.procs[p].parent.AwaitingId?
    ensures s.procs[p].pipe != []
  {
    assert Answer(s, p) == 1;
  }

  lemma ReadsMail(s: State, p: Pid) returns (m: Move)
    requires InBounds(s) && Addressed(s, p) && ListensOn(s.procs[p]) && s.procs[p].inbox != []
    ensures Enabled(s, m) && Delivers(m)
  {
    m := if s.procs[p].child.Forked? then Look(p) else Receive(p);
  }

  /** With children that listen the server is never blocked, and something can be delivered until
      everything is, unless the server halted. */
  lemma NeverDeadlocked(s: State) returns (m: Move)
    requires Ordered(s) && Listening(s) && !Halted(s) && !Delivered(s)
    ensures Enabled(s, m) && Delivers(m) && !Blocked(s)
  {
    SoundInBounds(s);
    if Blocked(s) {
      ListeningNotBlocked(s, Target(s));
    }
    if p: nat :| p < |s.procs| && s.procs[p].inbox != [] {
      assert Addressed(s, p) && ListensOn(s.procs[p]);
      m := ReadsMail(s, p);
    } else if p: nat :| p < |s.procs| && s.procs[p].parent.AwaitingId? && Pending(s) == [] && s.server.Receiving? {
      assert Addressed(s, p);
      IdHasCome(s, p);
      m := ReadId(p);
    } else {
      m := Serve;
    }
  }

  ghost predicate AllStay(tr: seq<State>, ms: seq<Move>)
    requires |tr| == |ms| + 1
  {
    forall p :: 0 <= p < |tr[0].procs| ==> StaysThroughout(tr, ms, p)
  }

  lemma StayingIsCalm(tr: seq<State>, ms: seq<Move>)
    requires |tr| == |ms| + 1 && AllStay(tr, ms)
    ensures AllCalm(tr, ms)
  {
    forall p | 0 <= p < |tr[0].procs| ensures Calm(tr, ms, p) {
      forall k | 0 <= k < |ms| ensures !EarlyInterrupt(tr[k], ms[k], p) {
        assert StaysThroughout(tr, ms, p) && Stays(tr[k], ms[k], p);
      }
    }
  }

  lemma AllListen(tr: seq<State>, ms: seq<Move>)
    requires IsRun(tr, ms) && Ordered(tr[0]) && Listening(tr[0]) && AllStay(tr, ms)
    ensures Ordered(tr[|tr| - 1]) && |tr[|tr| - 1].procs| == |tr[0].procs| && Listening(tr[|tr| - 1])
  {
    var last := tr[|tr| - 1];
    RunOrdered(tr, ms);
    forall p | 0 <= p < |last.procs| ensures ListensOn(last.procs[p]) {
      RunListens(tr, ms, p);
    }
  }

  lemma InitListens(s: State)
    requires InitState(s)
    ensures Ordered(s) && Listening(s)
  {
    InitOrdered(s);
    assert forall p :: 0 <= p < |s.procs| ==> s.procs[p].child == Unborn;
  }

  /** No run whose children stay until their goodbye blocks or deadlocks: joins, texts, interrupts
      and stops may come at any time, and as long as something has not been delivered a delivery is
      possible, unless more than ten clients made the server run off its table. */
  lemma RunNeverBlocks(tr: seq<State>, ms: seq<Move>)
    requires IsRun(tr, ms) && InitState(tr[0]) && AllStay(tr, ms)
    ensures var last := tr[|tr| - 1];
            && Inv(last) && Listening(last) && !Blocked(last) && !last.server.Failed?
            && (last.server.Overrun? ==> |tr[0].procs| > SLOTS)
            && (Delivered(last) || last.server.Overrun? || exists m :: Delivers(m) && Enabled(last, m))
  {
    var last := tr[|tr| - 1];
    InitListens(tr[0]);
    AllListen(tr, ms);
    StayingIsCalm(tr, ms);
    CalmRun(tr, ms);
    SoundInBounds(last);
    if Target(last) != VACANT {
      ListeningNotBlocked(last, Target(last));
    }
    if |tr[0].procs| <= SLOTS {
      TenNeverOverrun(tr, ms);
    }
    if !Delivered(last) && !last.server.Overrun? {
      var m := NeverDeadlocked(last);
    }
  }

  /** A bound on the deliveries left: thirty-three for a message on its way to the server, two
      for one in an inbox, one for an id in a pipe and one for a child that has not looked. */
  function ClientWork(c: Client): nat { 2 * |c.inbox| + |c.pipe| + if c.child.Forked? then 1 else 0 }

  function ServerWork(pc: ServerPc): nat {
    match pc
    case Handling(_) => 32
    case Sending(_, i) => if i <= SLOTS then 3 * (SLOTS - i) + 1 else 0
    case Answering(_, _) => 3
    case Goodbye(_) => 3
    case _ => 0
  }

  function Work(s: State): nat {
    33 * |s.queue| + ServerWork(s.server) + Total(ClientWork, s.procs)
  }

  lemma PostWork(s: State, p: Pid, msg: Message)
    requires p < |s.procs|
    ensures Total(ClientWork, Post(s, p, msg).procs) == Total(ClientWork, s.procs) + 2
  {
    TotalUpdate(ClientWork, s.procs, p, Post(s, p, msg).procs[p]);
  }

  lemma MembershipWork(s: State, p: Pid, membership: Membership)
    requires p < |s.procs|
    ensures Total(ClientWork, SetMembership(s, p, membership).procs) == Total(ClientWork, s.procs)
  {
    TotalUpdate(ClientWork, s.procs, p, SetMembership(s, p, membership).procs[p]);
  }

  /** Every delivery does some of the work. */
  lemma DeliveryWorks(s: State, m: Move)
    requires Enabled(s, m) && Delivers(m)
    ensures Work(Next(s, m)) < Work(s)
  {
    if m.Serve? {
      ServeWorks(s);
    } else {
      TotalUpdate(ClientWork, s.procs, m.p, ParentNext(s, m));
    }
  }

  lemma ServeWorks(s: State)
    requires Enabled(s, Serve)
    ensures Work(ServerNext(s)) < Work(s)
  {
    match s.server
    case Receiving =>
    case Handling(msg) =>
      if msg.Init? && FirstVacant(s.table) < SLOTS {
        MembershipWork(s, msg.queue, Member(FirstVacant(s.table), |s.log|));
      }
    case Answering(p, id) => PostWork(s, p, Identifier(id));
    case Sending(msg, i) =>
      if Target(s) != VACANT {
        PostWork(s, Target(s), msg);
      }
    case Goodbye(msg) =>
      var p := s.table[msg.clientId];
      PostWork(s, p, msg);
      var was := s.procs[p].membership;
      MembershipWork(Post(s, p, msg), p, if was.Member? then Left(was.slot, was.from, |s.log|) else was);
  }

  lemma {:induction false} RunDelivers(tr: seq<State>, ms: seq<Move>)
    requires IsRun(tr, ms) && forall k :: 0 <= k < |ms| ==> Delivers(ms[k])
    ensures |ms| + Work(tr[|tr| - 1]) <= Work(tr[0])
  {
    if ms == [] {
    } else {
      var k := |ms| - 1;
      LastStep(tr, ms);
      RunDelivers(tr[..|tr| - 1], ms[..k]);
      DeliveryWorks(tr[k], ms[k]);
    }
  }

  /** With no new input and children that stay, the number of moves is bounded, and a run that cannot
      go on has delivered everything, unless the server halted.  It does not where ids name their
      owners, except off its table, for which it takes more than ten clients. */
  lemma AllIsDelivered(tr: seq<State>, ms: seq<Move>)
    requires IsRun(tr, ms) && Ordered(tr[0]) && Listening(tr[0]) && AllStay(tr, ms)
    requires forall k :: 0 <= k < |ms| ==> Delivers(ms[k])
    ensures var last := tr[|tr| - 1];
            && |ms| + Work(last) <= Work(tr[0])
            && Ordered(last) && Listening(last) && |last.procs| == |tr[0].procs|
            && ((forall m :: Delivers(m) ==> !Enabled(last, m)) ==> Delivered(last) || Halted(last))
            && (Inv(tr[0]) ==> Inv(last) && !last.server.Failed?)
            && (Inv(tr[0]) && !tr[0].server.Overrun? && last.server.Overrun? ==> |tr[0].procs| > SLOTS)
  {
    var last := tr[|tr| - 1];
    RunDelivers(tr, ms);
    AllListen(tr, ms);
    if Inv(tr[0]) {
      assert NobodyReadNothing(ms);
      RunInv(tr, ms);
      RunOverruns(tr, ms);
    }
    if !Delivered(last) && !Halted(last) {
      var m := NeverDeadlocked(last);
    }
  }

  // ----- A child that leaves early blocks the server for good -----

  /** A blocked server stays where it is, whatever the clients do. */
  lemma BlockedForever(s: State, m: Move)
    requires Blocked(s) && Enabled(s, m) && Sound(s)
    ensures Sound(Next(s, m)) && Blocked(Next(s, m)) && Next(s, m).server == s.server
  {
    var t := Target(s);
    StepSound(s, m);
    SoundInBounds(Next(s, m));
    BlockedReader(s, m, t);
  }

  lemma BlockedReader(s: State, m: Move, t: Pid)
    requires Enabled(s, m) && !m.Serve? && t < |s.procs| && Gone(s.procs[t])
    ensures t < |Next(s, m).procs| && Gone(Next(s, m).procs[t]) && Next(s, m).procs[t].inbox == s.procs[t].inbox
  {
  }

  /** Client 0's child is gone with k messages in its inbox, and client 1 is chatting. */
  predicate Filling(s: State, k: nat) {
    && s.server == Receiving && s.queue == []
    && |s.table| == SLOTS && s.table[0] == 0 && s.table[1] == 1 && (forall i :: 2 <= i < SLOTS ==> s.table[i] == VACANT)
    && |s.procs| >= 2 && s.procs[0].child == Exited && !s.procs[0].parent.Starting? && |s.procs[0].inbox| == k
    && s.procs[1].parent == Chatting(1)
  }

  /** Client 0 is interrupted before its child sees the identifier. */
  lemma LoseFirst(s: State) returns (t: State)
    requires InitState(s) && |s.procs| >= 2
    ensures Path(s, t)
    ensures t.server == Receiving && t.queue == [] && t.table == s.table[0 := 0]
    ensures |t.procs| == |s.procs| && t.procs[0].child == Exited && t.procs[0].inbox == [] && t.procs[1] == s.procs[1]
    ensures !t.procs[0].parent.Starting?
  {
    PathSelf(s);
    var t0 := Join(s, s, 0, 0);
    t := Lose(s, t0, 0);
  }

  /** A client that has just joined is interrupted before its child sees the identifier. */
  lemma Lose(s: State, t: State, p: Pid) returns (t': State)
    requires Path(s, t) && InBounds(t) && p < |t.procs| && t.procs[p].child == Forked(true) && |t.procs[p].inbox| == 1
    ensures Path(s, t') && t' == t.(procs := t'.procs) && |t'.procs| == |t.procs|
    ensures t'.procs[p].child == Exited && t'.procs[p].inbox == [] && t'.procs[p].parent == t.procs[p].parent
    ensures forall q :: 0 <= q < |t.procs| && q != p ==> t'.procs[q] == t.procs[q]
  {
    var t1 := Next(t, Look(p));
    PathNext(s, t, Look(p));
    var t2 := Next(t1, InterruptChild(p));
    PathNext(s, t1, InterruptChild(p));
    t' := Next(t2, Receive(p));
    PathNext(s, t2, Receive(p));
  }

  /** Client 1 joins after that and is chatting. */
  lemma StartFilling(s: State) returns (t: State)
    requires InitState(s) && |s.procs| >= 2
    ensures Path(s, t) && Filling(t, 0)
  {
    var t2 := LoseFirst(s);
    var t3 := Join(s, t2, 1, 1);
    t := Greet(s, t3, 1, 1);
  }

  /** The broadcast loop passes the sender's slot and the vacant ones. */
  lemma SkipRest(s: State, t: State, msg: Message, i: nat) returns (t': State)
    requires Path(s, t) && msg.Text? && msg.clientId == 1 && 1 <= i <= SLOTS && t.server == Sending(msg, i)
    requires |t.table| == SLOTS && (0 <= t.table[1] < |t.procs|) && forall j :: 2 <= j < SLOTS ==> t.table[j] == VACANT
    ensures Path(s, t') && t' == t.(server := Receiving)
    decreases SLOTS - i
  {
    var next := Next(t, Serve);
    PathNext(s, t, Serve);
    if i == SLOTS {
      t' := next;
    } else {
      t' := SkipRest(s, next, msg, i + 1);
    }
  }

  /** Client 1 sends a text and the server takes it up. */
  lemma SendOne(s: State, t: State, k: nat) returns (t': State, msg: Message)
    requires Path(s, t) && Filling(t, k)
    ensures Path(s, t') && msg == Text(1, "x", 1) && t'.server == Sending(msg, 0) && t'.queue == []
    ensures t'.table == t.table && |t'.procs| == |t.procs|
    ensures t'.procs[0] == t.procs[0] && t'.procs[1].parent == t.procs[1].parent
  {
    msg := Text(1, "x", 1);
    var t1 := Next(t, SendText(1, "x"));
    PathNext(s, t, SendText(1, "x"));
    assert t1.queue == [msg];
    var t2 := Next(t1, Serve);
    PathNext(s, t1, Serve);
    t' := Next(t2, Serve);
    PathNext(s, t2, Serve);
    assert t'.queue == [];
  }

  lemma FillOne(s: State, t: State, k: nat) returns (t': State)
    requires Path(s, t) && Filling(t, k) && k < QUEUE_LENGTH
    ensures Path(s, t') && Filling(t', k + 1)
  {
    var t1, msg := SendOne(s, t, k);
    var t2 := Next(t1, Serve);
    PathNext(s, t1, Serve);
    t' := SkipRest(s, t2, msg, 1);
  }

  /** The program can block: when a child leaves its loop after an interrupt and before its
      goodbye, ten broadcasts fill its queue and the server never finishes the next one. */
  lemma BlockedIsReachable(s: State) returns (t: State)
    requires InitState(s) && |s.procs| >= 2
    ensures Path(s, t) && Blocked(t) && t.server.Sending?
  {
    t := StartFilling(s);
    for k := 0 to QUEUE_LENGTH
      invariant Path(s, t) && Filling(t, k)
    {
      t := FillOne(s, t, k);
    }
    var t', msg := SendOne(s, t, QUEUE_LENGTH);
    t := t';
  }

  lemma {:induction false} BlockedRun(tr: seq<State>, ms: seq<Move>)
    requires IsRun(tr, ms) && Sound(tr[0]) && Blocked(tr[0])
    ensures Sound(tr[|tr| - 1]) && Blocked(tr[|tr| - 1]) && tr[|tr| - 1].server == tr[0].server
  {
    if ms == [] {
    } else {
      var k := |ms| - 1;
      LastStep(tr, ms);
      BlockedRun(tr[..|tr| - 1], ms[..k]);
      BlockedForever(tr[k], ms[k]);
    }
  }

  lemma ServeMoves(s: State)
    requires Enabled(s, Serve)
    ensures Next(s, Serve).server != s.server
  {
  }

  /** The reader of a full queue makes room, unless it is gone. */
  lemma MakeRoom(s: State, p: Pid) returns (t: State)
    requires Sound(s) && Addressed(s, p) && s.procs[p].inbox != [] && !Gone(s.procs[p])
    ensures Reaches(s, t) && |t.procs| == |s.procs|
    ensures |t.procs[p].inbox| < |s.procs[p].inbox|
    ensures t == s.(procs := t.procs) && InBounds(t)
  {
    SoundInBounds(s);
    ReachSelf(s);
    if s.procs[p].child.Forked? {
      ReachNext(s, s, Look(p));
      t := TakeOne(s, Next(s, Look(p)), p);
    } else {
      t := TakeOne(s, s, p);
    }
  }

  lemma TakeOne(s: State, t: State, p: Pid) returns (t': State)
    requires Reaches(s, t) && Enabled(t, Receive(p))
    ensures Reaches(s, t') && |t'.procs| == |t.procs| && InBounds(t')
    ensures t' == t.(procs := t'.procs) && |t'.procs[p].inbox| < |t.procs[p].inbox|
  {
    ReachNext(s, t, Receive(p));
    t' := Next(t, Receive(p));
  }

  /** In every state that a run can reach: a server in the middle of its work can get on with it
      exactly when it is not sending to a full queue whose reader has gone. */
  lemma ServerGetsOn(s: State)
    requires Steady(s) && !s.server.Receiving? && !Halted(s)
    ensures (exists t :: Reaches(s, t) && t.server != s.server) <==> !Blocked(s)
  {
    SoundInBounds(s);
    if Blocked(s) {
      forall t | Reaches(s, t) ensures t.server == s.server {
        var tr: seq<State>, ms: seq<Move> :| RunFromTo(tr, ms, s, t);
        BlockedRun(tr, ms);
      }
    } else {
      var t := s;
      ReachSelf(s);
      if !Enabled(s, Serve) {
        t := MakeRoom(s, Target(s));
      }
      ReachNext(s, t, Serve);
      ServeMoves(t);
    }
  }
}
