/** What every client is sent in every run, whatever ids the clients use: the server's broadcast
    goes by the id in a text, and so does this. */
module ChatOrder {
  import opened Chat
  import opened ChatInvariant
  import opened ChatIdentity

  /** The text carries this id, which is what the broadcast looks at. */
  predicate Carries(m: Message, id: int) { m.Text? && m.clientId == id }

  /** The messages that do not carry the id, in order. */
  function OtherIds(log: seq<Message>, id: int): seq<Message> {
    if log == [] then [] else (if Carries(log[0], id) then [] else [log[0]]) + OtherIds(log[1..], id)
  }

  lemma {:induction false} OtherIdsConcat(a: seq<Message>, b: seq<Message>, id: int)
    ensures OtherIds(a + b, id) == OtherIds(a, id) + OtherIds(b, id)
  {
    if a == [] {
      assert a + b == b;
    } else {
      var head := if Carries(a[0], id) then [] else [a[0]];
      OtherIdsConcat(a[1..], b, id);
      assert (a + b)[1..] == a[1..] + b;
      assert OtherIds(a + b, id) == head + (OtherIds(a[1..], id) + OtherIds(b, id))
          == (head + OtherIds(a[1..], id)) + OtherIds(b, id);
    }
  }

  lemma {:induction false} OtherIdsTexts(log: seq<Message>, id: int)
    requires forall k :: 0 <= k < |log| ==> log[k].Text?
    ensures forall k :: 0 <= k < |OtherIds(log, id)| ==> OtherIds(log, id)[k].Text?
  {
    if log == [] {
    } else {
      OtherIdsTexts(log[1..], id);
    }
  }

  // ----- The invariant -----

  ghost predicate ServerLog(s: State) {
    && LogOk(s)
    && match s.server
       case Answering(p, id) => p < |s.procs| && s.procs[p].membership == Member(id, |s.log|)
       case Sending(msg, i) => s.log != [] && s.log[|s.log| - 1] == msg
       case _ => true
  }

  /** A client has the table entry of its registration while that lasts, and no other. */
  ghost predicate Filed(s: State, p: Pid)
    requires p < |s.procs|
  {
    var m := s.procs[p].membership;
    && |s.table| == SLOTS
    && (forall i :: 0 <= i < SLOTS && s.table[i] == p ==> m.Member? && m.slot == i)
    && (m.Member? ==> m.slot < SLOTS && s.table[m.slot] == p && m.from <= Reached(s, m.slot))
    && (m.Left? ==> m.from <= m.to <= |s.log|)
  }

  /** What a client has been sent, short of a goodbye: its identifier, and the texts of its
      registration that carry other ids. */
  ghost function Due(s: State, p: Pid, membership: Membership): seq<Message> {
    match membership
    case Outside => []
    case Member(slot, from) =>
      if AnsweringTo(s.server, p) || !(from <= Reached(s, slot)) then []
      else [Identifier(slot)] + OtherIds(s.log[from..Reached(s, slot)], slot)
    case Left(slot, from, to) =>
      if !(from <= to <= |s.log|) then []
      else [Identifier(slot)] + OtherIds(s.log[from..to], slot)
  }

  /** The mail is what is due, and the goodbye, which is a stop with the client's id, ends it. */
  ghost predicate MailById(s: State, p: Pid)
    requires p < |s.procs|
  {
    var c := s.procs[p];
    if c.membership.Left? then
      && c.mail != [] && c.mail[|c.mail| - 1].Stop? && c.mail[|c.mail| - 1].clientId == c.membership.slot
      && c.mail[..|c.mail| - 1] == Due(s, p, c.membership)
    else c.mail == Due(s, p, c.membership)
  }

  ghost predicate Delivering(s: State, p: Pid) {
    p < |s.procs| && Filed(s, p) && MailById(s, p)
  }

  /** What holds in every state that a run can reach. */
  ghost predicate Ordered(s: State) {
    Steady(s) && ServerLog(s) && forall p :: 0 <= p < |s.procs| ==> Delivering(s, p)
  }

  lemma InitOrdered(s: State)
    requires InitState(s)
    ensures Ordered(s)
  {
    InitSteady(s);
    forall p | 0 <= p < |s.procs| ensures Delivering(s, p) {
      assert s.procs[p] == Client(Starting, Unborn, [], [], Outside, [], [], []);
    }
  }

  // ----- Every step keeps it -----

  lemma SliceOfPrefix(log: seq<Message>, log': seq<Message>, a: nat, b: nat)
    requires a <= b <= |log| && log <= log'
    ensures log'[a..b] == log[a..b]
  {
    assert log'[..|log|] == log;
    assert log'[a..b] == log'[..|log|][a..b];
  }

  /** A step that leaves a client's mail, registration and table entry alone. */
  lemma DeliveringKept(s: State, s': State, p: Pid)
    requires Delivering(s, p) && p < |s'.procs| && |s'.table| == SLOTS && s.log <= s'.log
    requires s'.procs[p].mail == s.procs[p].mail && s'.procs[p].membership == s.procs[p].membership
    requires forall i :: 0 <= i < SLOTS ==> (s'.table[i] == p <==> s.table[i] == p)
    requires AnsweringTo(s'.server, p) == AnsweringTo(s.server, p)
    requires s.procs[p].membership.Member? ==>
               Reached(s', s.procs[p].membership.slot) == Reached(s, s.procs[p].membership.slot)
    ensures Delivering(s', p)
  {
    match s.procs[p].membership
    case Outside =>
    case Member(slot, from) => SliceOfPrefix(s.log, s'.log, from, Reached(s, slot));
    case Left(slot, from, to) => SliceOfPrefix(s.log, s'.log, from, to);
  }

  lemma MoveDelivers(s: State, m: Move, p: Pid)
    requires Enabled(s, m) && !m.Serve? && Delivering(s, p)
    ensures Delivering(Next(s, m), p)
  {
    MoveKeepsMail(s, m, p);
    MoveFrame(s, m);
    DeliveringKept(s, Next(s, m), p);
  }

  /** A step of the server that does not send to the client and does not register it. */
  lemma ServeOther(s: State, p: Pid)
    requires Enabled(s, Serve) && p < |s.procs| && Target(s) != p && s.server != Handling(Init(p))
    ensures var s' := ServerNext(s);
            && |s'.procs| == |s.procs| && s'.procs[p] == s.procs[p] && |s'.table| == SLOTS
            && (forall i :: 0 <= i < SLOTS ==> (s'.table[i] == p <==> s.table[i] == p))
            && !AnsweringTo(s.server, p) && !AnsweringTo(s'.server, p)
  {
  }

  /** How far the broadcast has come moves for one slot at a time. */
  lemma ServeReached(s: State, slot: nat)
    requires Enabled(s, Serve) && slot < SLOTS
    ensures s.log <= ServerNext(s).log
    ensures !(s.server.Sending? && s.server.i == slot) ==> Reached(ServerNext(s), slot) == Reached(s, slot)
  {
  }

  lemma ServeLeavesAlone(s: State, p: Pid)
    requires Enabled(s, Serve) && Delivering(s, p) && Target(s) != p && s.server != Handling(Init(p))
    requires s.procs[p].membership.Member? ==> !(s.server.Sending? && s.server.i == s.procs[p].membership.slot)
    ensures Delivering(ServerNext(s), p)
  {
    ServeOther(s, p);
    ServeReached(s, if s.procs[p].membership.Member? then s.procs[p].membership.slot else 0);
    DeliveringKept(s, ServerNext(s), p);
  }

  /** What the text in hand adds to what is due to the slot the loop is at. */
  lemma ReachingDue(s: State, s': State, p: Pid, from: nat)
    requires s.server.Sending? && s.server.msg.Text? && s.log != [] && s.log[|s.log| - 1] == s.server.msg
    requires s'.log == s.log && s'.server == s.server.(i := s.server.i + 1) && from <= Reached(s, s.server.i)
    ensures var m := Member(s.server.i, from);
            && from <= Reached(s', s.server.i)
            && Due(s', p, m) == Due(s, p, m) + (if s.server.msg.clientId == s.server.i then [] else [s.server.msg])
  {
    var msg, slot := s.server.msg, s.server.i;
    var before := s.log[from..|s.log| - 1];
    assert s.log[from..|s.log|] == before + [msg];
    OtherIdsConcat(before, [msg], slot);
    assert [msg][1..] == [];
  }

  lemma SendingFrame(s: State, p: Pid)
    requires Enabled(s, Serve) && s.server.Sending? && s.server.i < SLOTS && p < |s.procs|
    ensures var s' := ServerNext(s);
            && s'.log == s.log && s'.table == s.table && s'.server == s.server.(i := s.server.i + 1)
            && |s'.procs| == |s.procs| && s'.procs[p].membership == s.procs[p].membership
            && s'.procs[p].mail == s.procs[p].mail + (if Target(s) == p then [s.server.msg] else [])
  {
  }

  lemma SendDelivers(s: State, p: Pid)
    requires Enabled(s, Serve) && s.server.Sending? && s.server.i < SLOTS && ServerLog(s) && Delivering(s, p)
    requires s.procs[p].membership.Member? && s.procs[p].membership.slot == s.server.i
    ensures Delivering(ServerNext(s), p)
  {
    SendingFrame(s, p);
    ReachingDue(s, ServerNext(s), p, s.procs[p].membership.from);
  }

  lemma AnswerDelivers(s: State, p: Pid)
    requires Enabled(s, Serve) && ServerLog(s) && Delivering(s, p) && AnsweringTo(s.server, p)
    ensures Delivering(ServerNext(s), p)
  {
    var s' := ServerNext(s);
    assert s.log[|s.log|..|s.log|] == [];
    assert Due(s', p, s.procs[p].membership) == [Identifier(s.server.id)];
    assert s'.procs[p].mail == [] + [Identifier(s.server.id)];
  }

  lemma GoodbyeDelivers(s: State, p: Pid)
    requires Enabled(s, Serve) && s.server.Goodbye? && Delivering(s, p) && Target(s) == p
    ensures Delivering(ServerNext(s), p)
  {
    var c, c' := s.procs[p], ServerNext(s).procs[p];
    assert c.membership.Member? && c.membership.slot == s.server.msg.clientId;
    assert c'.mail == c.mail + [s.server.msg] && c'.mail[..|c'.mail| - 1] == c.mail;
  }

  lemma JoinDelivers(s: State, p: Pid)
    requires Enabled(s, Serve) && s.server == Handling(Init(p)) && Delivering(s, p)
    requires p !in s.table && s.procs[p].mail == []
    ensures Delivering(ServerNext(s), p)
  {
    var s' := ServerNext(s);
    if s'.server.Answering? {
      assert s'.procs[p].mail == [];
    } else {
      DeliveringKept(s, s', p);
    }
  }

  lemma ServeDelivers(s: State, p: Pid)
    requires Enabled(s, Serve) && ServerLog(s) && Delivering(s, p) && AskedOnce(s, p)
    ensures Delivering(ServerNext(s), p)
  {
    if s.server == Handling(Init(p)) {
      HandledUnanswered(s, p);
      JoinDelivers(s, p);
    } else if AnsweringTo(s.server, p) {
      AnswerDelivers(s, p);
    } else if s.server.Goodbye? && Target(s) == p {
      GoodbyeDelivers(s, p);
    } else if s.server.Sending? && s.server.i < SLOTS && s.table[s.server.i] == p {
      SendDelivers(s, p);
    } else {
      ServeLeavesAlone(s, p);
    }
  }

  lemma ServeLog(s: State)
    requires Enabled(s, Serve) && ServerLog(s)
    ensures ServerLog(ServerNext(s))
  {
  }

  lemma StepOrdered(s: State, m: Move)
    requires Ordered(s) && Enabled(s, m)
    ensures Ordered(Next(s, m)) && |Next(s, m).procs| == |s.procs|
  {
    StepSteady(s, m);
    if m.Serve? {
      ServeLog(s);
    } else {
      MoveLog(s, m);
    }
    forall p | 0 <= p < |s.procs| ensures Delivering(Next(s, m), p) {
      assert Delivering(s, p) && Addressed(s, p);
      if m.Serve? {
        ServeDelivers(s, p);
      } else {
        MoveDelivers(s, m, p);
      }
    }
  }

  lemma MoveLog(s: State, m: Move)
    requires Enabled(s, m) && !m.Serve? && ServerLog(s)
    ensures ServerLog(Next(s, m))
  {
    MoveFrame(s, m);
    MoveMail(s, m);
  }

  lemma {:induction false} RunOrdered(tr: seq<State>, ms: seq<Move>)
    requires IsRun(tr, ms) && Ordered(tr[0])
    ensures Ordered(tr[|tr| - 1]) && |tr[|tr| - 1].procs| == |tr[0].procs|
  {
    if ms == [] {
    } else {
      var k := |ms| - 1;
      LastStep(tr, ms);
      RunOrdered(tr[..|tr| - 1], ms[..k]);
      StepOrdered(tr[k], ms[k]);
    }
  }
}
