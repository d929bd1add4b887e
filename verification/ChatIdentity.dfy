/** Who gets its own id: every client whose child is not interrupted before its first look at the
    flag, in every run, and nobody else for sure. */
module ChatIdentity {
  import opened Chat
  import opened ChatInvariant

  // ----- The server stays within its arrays -----

  predicate TableSound(s: State) {
    |s.table| == SLOTS && forall i :: 0 <= i < SLOTS ==> s.table[i] == VACANT || 0 <= s.table[i] < |s.procs|
  }

  predicate InitsBelow(q: seq<Message>, n: nat) {
    forall k :: 0 <= k < |q| && q[k].Init? ==> q[k].queue < n
  }

  predicate InitsSound(s: State) { InitsBelow(Pending(s), |s.procs|) }

  predicate ServerSound(s: State) {
    match s.server
    case Answering(p, _) => p < |s.procs|
    case Sending(msg, i) => msg.Text? && i <= SLOTS
    case Goodbye(msg) => msg.Stop? && 0 <= msg.clientId < SLOTS == |s.table| && s.table[msg.clientId] != VACANT
    case _ => true
  }

  predicate Sound(s: State) {
    TableSound(s) && InitsSound(s) && ServerSound(s)
  }

  lemma SoundInBounds(s: State)
    requires Sound(s)
    ensures InBounds(s)
  {
    if s.server.Handling? {
      assert Pending(s)[0] == s.server.msg;
    }
  }

  /** A step of the server takes from what is pending at most the message it finishes with. */
  lemma ServeHand(s: State)
    requires Enabled(s, Serve)
    ensures var s' := ServerNext(s);
            if Hand(s.server) != [] && Hand(s'.server) == [] then Pending(s) == [Hand(s.server)[0]] + Pending(s')
            else Pending(s') == Pending(s)
  {
    var s' := ServerNext(s);
    if Hand(s.server) == [] && Hand(s'.server) != [] {
      assert [s.queue[0]] + s.queue[1..] == s.queue;
    }
  }

  lemma ServerFrame(s: State)
    requires Enabled(s, Serve) && TableSound(s) && ServerSound(s)
    ensures TableSound(ServerNext(s)) && ServerSound(ServerNext(s)) && |ServerNext(s).procs| == |s.procs|
  {
  }

  lemma InitsPopped(m: Message, q: seq<Message>, n: nat)
    requires InitsBelow([m] + q, n)
    ensures InitsBelow(q, n)
  {
    forall k | 0 <= k < |q| && q[k].Init? ensures q[k].queue < n {
      assert ([m] + q)[k + 1] == q[k];
    }
  }

  lemma PendingSound(s: State, m: Move)
    requires InitsSound(s) && Enabled(s, m) && |Next(s, m).procs| == |s.procs|
    ensures InitsSound(Next(s, m))
  {
    if m.Serve? {
      ServeHand(s);
      if Pending(ServerNext(s)) != Pending(s) {
        InitsPopped(Hand(s.server)[0], Pending(ServerNext(s)), |s.procs|);
      }
    } else {
      MovePending(s, m, m.p);
      assert InitsBelow(Sent(s, m), |s.procs|);
    }
  }

  lemma StepSound(s: State, m: Move)
    requires Sound(s) && Enabled(s, m)
    ensures Sound(Next(s, m)) && |Next(s, m).procs| == |s.procs|
  {
    if m.Serve? {
      ServerFrame(s);
    } else {
      MoveFrame(s, m);
    }
    PendingSound(s, m);
  }

  // ----- One answer to each client -----

  predicate AnsweringTo(server: ServerPc, p: Pid) { server.Answering? && server.client == p }

  function Ask(c: Client): nat { if c.parent.Starting? then 1 else 0 }

  function Answer(s: State, p: Pid): nat
    requires p < |s.procs|
  {
    if AnsweringTo(s.server, p) || s.procs[p].mail != [] then 1 else 0
  }

  /** A client asks once, and is answered once. */
  predicate AskedOnce(s: State, p: Pid)
    requires p < |s.procs|
  {
    && Ask(s.procs[p]) + multiset(Pending(s))[Init(p)] + Answer(s, p) == 1
    && (AnsweringTo(s.server, p) ==> s.procs[p].mail == [])
    && (p in s.table ==> Answer(s, p) == 1)
  }

  /** The first message a client gets, and no other, is its identifier: the slot it was
      registered in. */
  predicate Answered(s: State, p: Pid)
    requires p < |s.procs|
  {
    var c := s.procs[p];
    && c.mail == c.shown + c.inbox && |c.inbox| <= QUEUE_LENGTH
    && (AnsweringTo(s.server, p) ==> !c.membership.Outside? && c.membership.slot == s.server.id)
    && (c.mail != [] ==> !c.membership.Outside? && c.mail[0] == Identifier(c.membership.slot))
    && forall k :: 1 <= k < |c.mail| ==> !c.mail[k].Identifier?
  }

  /** The way of the identifier from the child through the pipe to the parent. */
  predicate PassedOn(c: Client) {
    && (c.parent.Starting? <==> c.child.Unborn?)
    && (c.child.Unborn? || c.child.Forked? ==> c.shown == [])
    && (c.shown == [] ==> c.pipe == [])
    && (c.shown != [] && c.parent.AwaitingId? ==> c.shown[0].Identifier? && c.pipe == [c.shown[0].clientId])
    && (c.shown != [] && HoldsId(c.parent) ==> c.shown[0] == Identifier(c.parent.id) && c.pipe == [])
    && (c.shown == [] && HoldsId(c.parent) ==> c.child.Exited?)
  }

  predicate Addressed(s: State, p: Pid) {
    p < |s.procs| && AskedOnce(s, p) && Answered(s, p) && PassedOn(s.procs[p])
  }

  lemma MoveCount(s: State, m: Move, p: Pid)
    requires Enabled(s, m) && !m.Serve? && p < |s.procs|
    ensures Ask(s.procs[p]) + multiset(Pending(s))[Init(p)]
            == Ask(Next(s, m).procs[p]) + multiset(Pending(Next(s, m)))[Init(p)]
  {
    MovePending(s, m, p);
    assert multiset(Pending(Next(s, m))) == multiset(Pending(s)) + multiset(Sent(s, m));
  }

  lemma MoveAsked(s: State, m: Move, p: Pid)
    requires Enabled(s, m) && !m.Serve? && p < |s.procs| && AskedOnce(s, p)
    ensures p < |Next(s, m).procs| && AskedOnce(Next(s, m), p)
  {
    MoveKeepsMail(s, m, p);
    MoveCount(s, m, p);
  }

  /** A move of a client leaves its mail, its registration and the server alone. */
  lemma MoveKeepsMail(s: State, m: Move, p: Pid)
    requires Enabled(s, m) && !m.Serve? && p < |s.procs|
    ensures var c, s' := s.procs[p], Next(s, m);
            && |s'.procs| == |s.procs| && s'.server == s.server && s'.table == s.table
            && s'.procs[p].mail == c.mail && s'.procs[p].membership == c.membership
            && if m == Receive(p) then s'.procs[p].shown == c.shown + [c.inbox[0]] && s'.procs[p].inbox == c.inbox[1..]
               else s'.procs[p].shown == c.shown && s'.procs[p].inbox == c.inbox
  {
  }

  lemma MoveAnswered(s: State, m: Move, p: Pid)
    requires Enabled(s, m) && !m.Serve? && p < |s.procs| && Answered(s, p)
    ensures p < |Next(s, m).procs| && Answered(Next(s, m), p)
  {
    MoveKeepsMail(s, m, p);
    var c := s.procs[p];
    assert m == Receive(p) ==> c.shown + [c.inbox[0]] + c.inbox[1..] == c.shown + c.inbox;
    AnsweredKept(s, Next(s, m), p);
  }

  lemma AnsweredKept(s: State, s': State, p: Pid)
    requires p < |s.procs| == |s'.procs| && Answered(s, p) && s'.server == s.server
    requires s'.procs[p].mail == s.procs[p].mail && s'.procs[p].membership == s.procs[p].membership
    requires s'.procs[p].shown + s'.procs[p].inbox == s.procs[p].mail && |s'.procs[p].inbox| <= QUEUE_LENGTH
    ensures Answered(s', p)
  {
  }

  lemma ReceivePasses(s: State, p: Pid)
    requires Enabled(s, Receive(p)) && Answered(s, p) && PassedOn(s.procs[p])
    ensures PassedOn(ChildNext(s.procs[p]))
  {
    var c, c' := s.procs[p], ChildNext(s.procs[p]);
    assert c.inbox[0] == c.mail[|c.shown|];
    assert c.shown != [] ==> c'.shown[0] == c.shown[0];
  }

  lemma MovePasses(s: State, m: Move, p: Pid)
    requires Enabled(s, m) && !m.Serve? && p < |s.procs| && Answered(s, p) && PassedOn(s.procs[p])
    ensures PassedOn(Next(s, m).procs[p])
  {
    if m == Receive(p) {
      ReceivePasses(s, p);
    }
  }

  lemma ServeInit(s: State, p: Pid)
    requires Enabled(s, Serve)
    ensures var s' := ServerNext(s);
            Hand(s.server) == [Init(p)] && Hand(s'.server) == [] <==>
              s.server == Handling(Init(p)) && s'.server.Answering?
  {
  }

  lemma PopCount(m: Message, rest: seq<Message>, e: Message)
    ensures multiset([m] + rest)[e] == multiset(rest)[e] + (if m == e then 1 else 0)
  {
    assert multiset([m] + rest) == multiset{m} + multiset(rest);
  }

  lemma ServePending(s: State, p: Pid)
    requires Enabled(s, Serve)
    ensures var s' := ServerNext(s);
            multiset(Pending(s))[Init(p)] ==
            multiset(Pending(s'))[Init(p)] + (if s.server == Handling(Init(p)) && s'.server.Answering? then 1 else 0)
  {
    ServeHand(s);
    ServeInit(s, p);
    if Hand(s.server) != [] {
      PopCount(Hand(s.server)[0], Pending(ServerNext(s)), Init(p));
    }
  }

  /** A client whose question the server is looking at has had no answer. */
  lemma HandledUnanswered(s: State, p: Pid)
    requires p < |s.procs| && AskedOnce(s, p) && s.server == Handling(Init(p))
    ensures s.procs[p].mail == [] && p !in s.table && multiset(Pending(s))[Init(p)] == 1
  {
    assert Pending(s) == [Init(p)] + s.queue;
    PopCount(Init(p), s.queue, Init(p));
  }

  /** The server sends only to clients it has answered, or answers now. */
  lemma TargetAnswered(s: State, p: Pid)
    requires InBounds(s) && p < |s.procs| && AskedOnce(s, p) && Target(s) == p
    ensures if s.server.Answering? then AnsweringTo(s.server, p) && s.procs[p].mail == []
            else s.procs[p].mail != []
  {
  }

  lemma ServeTable(s: State, p: Pid)
    requires Enabled(s, Serve) && p in ServerNext(s).table
    ensures p in s.table || AnsweringTo(ServerNext(s).server, p)
  {
    var table := ServerNext(s).table;
    var i :| 0 <= i < |table| && table[i] == p;
    assert i < |s.table| && s.table[i] != p ==> AnsweringTo(ServerNext(s).server, p);
  }

  lemma ServeAnswering(s: State, p: Pid)
    requires Enabled(s, Serve) && p < |s.procs|
    ensures AnsweringTo(ServerNext(s).server, p) <==> s.server == Handling(Init(p)) && ServerNext(s).server.Answering?
    ensures AnsweringTo(s.server, p) ==> Target(s) == p
  {
  }

  /** What the server's step adds to a client's mail. */
  lemma ServeMail(s: State, p: Pid)
    requires Enabled(s, Serve) && p < |s.procs| == |ServerNext(s).procs|
    ensures var c, c' := s.procs[p], ServerNext(s).procs[p];
            if Target(s) == p then
              var msg := if s.server.Answering? then Identifier(s.server.id) else s.server.msg;
              c'.mail == c.mail + [msg] && c'.inbox == c.inbox + [msg]
            else c'.mail == c.mail && c'.inbox == c.inbox
    ensures var c, c' := s.procs[p], ServerNext(s).procs[p];
            c' == c.(mail := c'.mail, inbox := c'.inbox, membership := c'.membership)
  {
  }

  lemma ServeAsked(s: State, p: Pid)
    requires Sound(s) && Enabled(s, Serve) && Addressed(s, p)
    ensures p < |ServerNext(s).procs| && AskedOnce(ServerNext(s), p)
  {
    ServerFrame(s);
    ServePending(s, p);
    ServeMail(s, p);
    ServeAnswering(s, p);
    if s.server == Handling(Init(p)) {
      HandledUnanswered(s, p);
    } else if Target(s) == p {
      TargetAnswered(s, p);
    }
    if p in ServerNext(s).table {
      ServeTable(s, p);
    }
  }

  /** How a step of the server changes a client's registration. */
  lemma ServeMembership(s: State, p: Pid)
    requires Enabled(s, Serve) && p < |s.procs| == |ServerNext(s).procs|
    ensures var m, m' := s.procs[p].membership, ServerNext(s).procs[p].membership;
            if AnsweringTo(ServerNext(s).server, p) then m'.Member? && m'.slot == ServerNext(s).server.id
            else (m'.Outside? <==> m.Outside?) && (!m.Outside? ==> m'.slot == m.slot)
  {
  }

  lemma ServeAnswered(s: State, p: Pid)
    requires Sound(s) && Enabled(s, Serve) && Addressed(s, p)
    ensures p < |ServerNext(s).procs| && Answered(ServerNext(s), p)
  {
    ServerFrame(s);
    ServeMail(s, p);
    ServeMembership(s, p);
    ServeAnswering(s, p);
    if s.server == Handling(Init(p)) {
      HandledUnanswered(s, p);
    } else if Target(s) == p {
      TargetAnswered(s, p);
      PostAnswered(s, p);
    }
  }

  lemma PostAnswered(s: State, p: Pid)
    requires Enabled(s, Serve) && p < |s.procs| == |ServerNext(s).procs| && Answered(s, p) && Target(s) == p
    requires if s.server.Answering? then AnsweringTo(s.server, p) && s.procs[p].mail == [] else s.procs[p].mail != []
    ensures Answered(ServerNext(s), p)
  {
    ServeMail(s, p);
    ServeMembership(s, p);
    ServeAnswering(s, p);
  }

  lemma ServePasses(s: State, p: Pid)
    requires Sound(s) && Enabled(s, Serve) && Addressed(s, p)
    ensures p < |ServerNext(s).procs| && PassedOn(ServerNext(s).procs[p])
  {
    ServerFrame(s);
    ServeMail(s, p);
  }

  lemma StepAddressed(s: State, m: Move, p: Pid)
    requires Sound(s) && Enabled(s, m) && Addressed(s, p)
    ensures Addressed(Next(s, m), p)
  {
    if m.Serve? {
      ServeAsked(s, p);
      ServeAnswered(s, p);
      ServePasses(s, p);
    } else {
      MoveAsked(s, m, p);
      MoveAnswered(s, m, p);
      MovePasses(s, m, p);
    }
  }

  /** What holds of all clients in every run, whatever ids they use. */
  ghost predicate Steady(s: State) {
    Sound(s) && forall p :: 0 <= p < |s.procs| ==> Addressed(s, p)
  }

  lemma StepSteady(s: State, m: Move)
    requires Steady(s) && Enabled(s, m)
    ensures Steady(Next(s, m)) && |Next(s, m).procs| == |s.procs|
  {
    StepSound(s, m);
    forall p | 0 <= p < |s.procs| ensures Addressed(Next(s, m), p) {
      StepAddressed(s, m, p);
    }
  }

  // ----- Early interrupts -----

  /** The child of p is interrupted between its fork and its first look at the flag.  An interrupt
      of the whole client before the fork reaches the child's copy of the flag just so. */
  predicate EarlyInterrupt(s: State, m: Move, p: Pid) {
    m == InterruptChild(p) && p < |s.procs| && s.procs[p].child.Forked?
  }

  /** The child will exit, or has exited, without receiving anything. */
  predicate Early(c: Client) {
    c.child == Forked(false) || (c.child.Exited? && c.shown == [])
  }

  lemma StepEarly(s: State, m: Move, p: Pid)
    requires Enabled(s, m) && p < |s.procs| == |Next(s, m).procs| && PassedOn(s.procs[p])
    ensures Early(Next(s, m).procs[p]) <==> Early(s.procs[p]) || EarlyInterrupt(s, m, p)
  {
    if m.Serve? {
      ServeMail(s, p);
    }
  }

  ghost predicate Calm(tr: seq<State>, ms: seq<Move>, p: Pid)
    requires |tr| == |ms| + 1
  {
    forall k :: 0 <= k < |ms| ==> !EarlyInterrupt(tr[k], ms[k], p)
  }

  lemma {:induction false} RunSound(tr: seq<State>, ms: seq<Move>)
    requires IsRun(tr, ms) && Sound(tr[0])
    ensures Sound(tr[|tr| - 1]) && |tr[|tr| - 1].procs| == |tr[0].procs|
  {
    if ms == [] {
    } else {
      var k := |ms| - 1;
      LastStep(tr, ms);
      RunSound(tr[..|tr| - 1], ms[..k]);
      StepSound(tr[k], ms[k]);
    }
  }

  lemma {:induction false} RunAddressed(tr: seq<State>, ms: seq<Move>, p: Pid)
    requires IsRun(tr, ms) && Sound(tr[0]) && Addressed(tr[0], p)
    ensures Addressed(tr[|tr| - 1], p)
  {
    if ms == [] {
    } else {
      var k := |ms| - 1;
      LastStep(tr, ms);
      RunAddressed(tr[..|tr| - 1], ms[..k], p);
      RunSound(tr[..|tr| - 1], ms[..k]);
      StepAddressed(tr[k], ms[k], p);
    }
  }

  lemma CalmSplit(tr: seq<State>, ms: seq<Move>, p: Pid)
    requires |tr| == |ms| + 1 && ms != []
    ensures var k := |ms| - 1;
            Calm(tr, ms, p) <==> Calm(tr[..|tr| - 1], ms[..k], p) && !EarlyInterrupt(tr[k], ms[k], p)
  {
    var k := |ms| - 1;
    forall j | 0 <= j < k ensures EarlyInterrupt(tr[j], ms[j], p) == EarlyInterrupt(tr[..|tr| - 1][j], ms[..k][j], p) {
    }
  }

  lemma {:induction false} RunEarly(tr: seq<State>, ms: seq<Move>, p: Pid)
    requires IsRun(tr, ms) && Sound(tr[0]) && Addressed(tr[0], p)
    ensures p < |tr[|tr| - 1].procs|
    ensures Early(tr[|tr| - 1].procs[p]) <==> Early(tr[0].procs[p]) || !Calm(tr, ms, p)
  {
    if ms == [] {
    } else {
      var k := |ms| - 1;
      LastStep(tr, ms);
      var tr', ms' := tr[..|tr| - 1], ms[..k];
      RunEarly(tr', ms', p);
      RunAddressed(tr', ms', p);
      RunSound(tr', ms');
      StepSound(tr[k], ms[k]);
      StepEarly(tr[k], ms[k], p);
      CalmSplit(tr, ms, p);
    }
  }

  lemma RunClient(tr: seq<State>, ms: seq<Move>, p: Pid)
    requires IsRun(tr, ms) && Sound(tr[0]) && Addressed(tr[0], p)
    ensures var last := tr[|tr| - 1];
            && Sound(last) && Addressed(last, p) && |last.procs| == |tr[0].procs|
            && (Early(last.procs[p]) <==> Early(tr[0].procs[p]) || !Calm(tr, ms, p))
  {
    RunSound(tr, ms);
    RunAddressed(tr, ms, p);
    RunEarly(tr, ms, p);
  }

  lemma InitiallySound(s: State)
    requires InitState(s)
    ensures Sound(s)
  {
    assert Pending(s) == [];
  }

  lemma InitiallyAddressed(s: State, p: Pid)
    requires InitState(s) && p < |s.procs|
    ensures Sound(s) && Addressed(s, p) && !Early(s.procs[p])
  {
    assert Pending(s) == [];
    assert s.procs[p] == Client(Starting, Unborn, [], [], Outside, [], [], []);
  }

  /** In every run, whatever the other clients do: a client is sent one identifier, first of all,
      naming the slot it was registered in; a parent past its read holds that id exactly when its
      child received something, which is when the child was not interrupted early. */
  lemma OwnIds(tr: seq<State>, ms: seq<Move>, p: Pid)
    requires IsRun(tr, ms) && InitState(tr[0]) && p < |tr[0].procs|
    ensures var last := tr[|tr| - 1];
            p < |last.procs| &&
            var c := last.procs[p];
            && InBounds(last)
            && c.mail == c.shown + c.inbox && |c.inbox| <= QUEUE_LENGTH
            && (c.mail != [] ==> !c.membership.Outside? && c.mail[0] == Identifier(c.membership.slot))
            && (forall k :: 1 <= k < |c.mail| ==> !c.mail[k].Identifier?)
            && (Early(c) <==> !Calm(tr, ms, p))
            && (HoldsId(c.parent) && Calm(tr, ms, p) ==> !c.membership.Outside? && c.parent.id == c.membership.slot)
            && (HoldsId(c.parent) && !Calm(tr, ms, p) ==> c.shown == [] && c.child.Exited?)
  {
    InitiallyAddressed(tr[0], p);
    RunClient(tr, ms, p);
    SoundInBounds(tr[|tr| - 1]);
  }

  /** A parent that holds an id holds the one its client was given. */
  predicate HoldsOwnId(c: Client) {
    HoldsId(c.parent) ==> !c.membership.Outside? && c.parent.id == c.membership.slot
  }

  /** The state t can follow s without another early interrupt of p. */
  ghost predicate CalmlyReaches(s: State, t: State, p: Pid) {
    exists tr: seq<State>, ms: seq<Move> :: RunFromTo(tr, ms, s, t) && Calm(tr, ms, p)
  }

  lemma CalmNext(s: State, t: State, m: Move, p: Pid)
    requires CalmlyReaches(s, t, p) && Enabled(t, m) && !EarlyInterrupt(t, m, p)
    ensures CalmlyReaches(s, Next(t, m), p)
  {
    var tr: seq<State>, ms: seq<Move> :| RunFromTo(tr, ms, s, t) && Calm(tr, ms, p);
    ExtendRun(tr, ms, m);
    var tr', ms' := tr + [Next(t, m)], ms + [m];
    assert RunFromTo(tr', ms', s, Next(t, m));
    forall k | 0 <= k < |ms'| ensures !EarlyInterrupt(tr'[k], ms'[k], p) {
      assert k < |ms| ==> !EarlyInterrupt(tr[k], ms[k], p);
    }
  }

  /** A parent whose child left early can take any number for its id. */
  lemma EarlyReadsAnything(s: State, p: Pid, id: int) returns (t: State)
    requires Sound(s) && Addressed(s, p) && s.procs[p].parent.AwaitingId? && Early(s.procs[p])
    ensures CalmlyReaches(s, t, p) && p < |t.procs| && t.procs[p].parent == Chatting(id)
    ensures t == s.(procs := s.procs[p := t.procs[p]]) && t.procs[p].membership == s.procs[p].membership
  {
    SoundInBounds(s);
    assert RunFromTo([s], [], s, s) && Calm([s], [], p);
    if s.procs[p].child.Forked? {
      CalmNext(s, s, Look(p), p);
      t := ReadAnything(s, Next(s, Look(p)), p, id);
    } else {
      t := ReadAnything(s, s, p, id);
    }
  }

  lemma ReadAnything(s: State, t: State, p: Pid, id: int) returns (t': State)
    requires CalmlyReaches(s, t, p) && Enabled(t, ReadNothing(p, id))
    ensures CalmlyReaches(s, t', p) && p < |t'.procs| && t'.procs[p].parent == Chatting(id)
    ensures t' == t.(procs := t.procs[p := t'.procs[p]]) && t'.procs[p].membership == t.procs[p].membership
  {
    CalmNext(s, t, ReadNothing(p, id), p);
    t' := Next(t, ReadNothing(p, id));
  }

  /** At any point of any run a parent at its read is sure to get its own id if and only if its
      child has not been interrupted before its first look at the flag. */
  lemma OwnIdIff(tr: seq<State>, ms: seq<Move>, p: Pid)
    requires IsRun(tr, ms) && InitState(tr[0]) && p < |tr[0].procs|
    requires p < |tr[|tr| - 1].procs| && tr[|tr| - 1].procs[p].parent.AwaitingId?
    ensures (forall t :: CalmlyReaches(tr[|tr| - 1], t, p) ==> p < |t.procs| && HoldsOwnId(t.procs[p])) <==>
              Calm(tr, ms, p)
  {
    var s := tr[|tr| - 1];
    InitiallyAddressed(tr[0], p);
    RunClient(tr, ms, p);
    if Calm(tr, ms, p) {
      forall t | CalmlyReaches(s, t, p) ensures p < |t.procs| && HoldsOwnId(t.procs[p]) {
        CalmHoldsOwn(s, t, p);
      }
    } else {
      var t := EarlyReadsAnything(s, p, -1);
      assert !HoldsOwnId(t.procs[p]);
    }
  }

  lemma CalmHoldsOwn(s: State, t: State, p: Pid)
    requires Sound(s) && Addressed(s, p) && !Early(s.procs[p]) && CalmlyReaches(s, t, p)
    ensures p < |t.procs| && HoldsOwnId(t.procs[p])
  {
    var tr: seq<State>, ms: seq<Move> :| RunFromTo(tr, ms, s, t) && Calm(tr, ms, p);
    RunClient(tr, ms, p);
  }

  // ----- Without early interrupts the server knows its clients -----

  ghost predicate AllCalm(tr: seq<State>, ms: seq<Move>)
    requires |tr| == |ms| + 1
  {
    forall p :: 0 <= p < |tr[0].procs| ==> Calm(tr, ms, p)
  }

  lemma ReadNothingIsEarly(s: State, m: Move)
    requires Enabled(s, m) && m.ReadNothing? && PassedOn(s.procs[m.p])
    ensures Early(s.procs[m.p])
  {
  }

  lemma CalmReads(tr: seq<State>, ms: seq<Move>, m: Move)
    requires IsRun(tr, ms) && InitState(tr[0]) && AllCalm(tr, ms) && Enabled(tr[|tr| - 1], m)
    ensures !m.ReadNothing?
  {
    if m.ReadNothing? {
      InitiallySound(tr[0]);
      RunSound(tr, ms);
      InitiallyAddressed(tr[0], m.p);
      RunClient(tr, ms, m.p);
      ReadNothingIsEarly(tr[|tr| - 1], m);
    }
  }

  lemma AllCalmSplit(tr: seq<State>, ms: seq<Move>)
    requires |tr| == |ms| + 1 && ms != [] && AllCalm(tr, ms)
    ensures AllCalm(tr[..|tr| - 1], ms[..|ms| - 1])
  {
    var tr', ms' := tr[..|tr| - 1], ms[..|ms| - 1];
    forall p | 0 <= p < |tr[0].procs| ensures Calm(tr', ms', p) {
      CalmSplit(tr, ms, p);
    }
  }

  lemma {:induction false} CalmRunReads(tr: seq<State>, ms: seq<Move>)
    requires IsRun(tr, ms) && InitState(tr[0]) && AllCalm(tr, ms)
    ensures NobodyReadNothing(ms)
  {
    if ms == [] {
    } else {
      var k := |ms| - 1;
      LastStep(tr, ms);
      AllCalmSplit(tr, ms);
      CalmRunReads(tr[..|tr| - 1], ms[..k]);
      CalmReads(tr[..|tr| - 1], ms[..k], ms[k]);
      assert ms == ms[..k] + [ms[k]];
    }
  }

  /** The invariant, and with it everything it says about slots, ids and mail, holds at the end of
      every run without an early interrupt: every registered client that holds an id owns that
      slot of the table. */
  lemma CalmRun(tr: seq<State>, ms: seq<Move>)
    requires IsRun(tr, ms) && InitState(tr[0]) && AllCalm(tr, ms)
    ensures Inv(tr[|tr| - 1]) && NobodyReadNothing(ms)
    ensures var last := tr[|tr| - 1];
            forall p: nat :: p < |last.procs| && HoldsId(last.procs[p].parent) && !last.procs[p].membership.Left? ==>
              Owns(last, p, last.procs[p].parent.id)
  {
    Initially(tr[0]);
    CalmRunReads(tr, ms);
    RunInv(tr, ms);
    var last := tr[|tr| - 1];
    forall p: nat | p < |last.procs| && HoldsId(last.procs[p].parent) && !last.procs[p].membership.Left?
      ensures Owns(last, p, last.procs[p].parent.id)
    {
      IdsNameTheirOwner(last, p);
    }
  }

  lemma InitSteady(s: State)
    requires InitState(s)
    ensures Steady(s)
  {
    InitiallySound(s);
    forall p | 0 <= p < |s.procs| ensures Addressed(s, p) {
      InitiallyAddressed(s, p);
    }
  }

  lemma RunSteady(tr: seq<State>, ms: seq<Move>)
    requires IsRun(tr, ms) && Steady(tr[0])
    ensures Steady(tr[|tr| - 1]) && |tr[|tr| - 1].procs| == |tr[0].procs|
  {
    var last := tr[|tr| - 1];
    RunSound(tr, ms);
    forall p | 0 <= p < |tr[0].procs| ensures Addressed(last, p) {
      RunAddressed(tr, ms, p);
    }
  }
}
