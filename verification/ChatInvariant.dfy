/** What every state of the chat keeps: who owns which slot, wherever the id is on its way,
    and what each client has been sent. */
module ChatInvariant {
  import opened Chat

  // ----- What is on its way -----

  /** The message the server is working on. */
  function Hand(server: ServerPc): seq<Message> {
    match server
    case Handling(msg) => [msg]
    case Sending(msg, _) => [msg]
    case Goodbye(msg) => [msg]
    case Overrun(msg) => [msg]
    case Failed(msg) => [msg]
    case _ => []
  }

  /** Everything sent to the server that it has not finished with, oldest first. */
  function Pending(s: State): seq<Message> {
    Hand(s.server) + s.queue
  }

  /** The client a message comes from, or -1. */
  function Sender(m: Message): int {
    match m
    case Init(q) => q
    case Text(_, _, q) => q
    case Stop(_, q) => q
    case Identifier(_) => -1
  }

  predicate SentBy(m: Message, p: Pid) { Sender(m) == p }

  /** The messages of one client, in order. */
  function From(p: Pid, q: seq<Message>): seq<Message> {
    if q == [] then [] else (if SentBy(q[0], p) then [q[0]] else []) + From(p, q[1..])
  }

  lemma {:induction false} FromConcat(p: Pid, a: seq<Message>, b: seq<Message>)
    ensures From(p, a + b) == From(p, a) + From(p, b)
  {
    if a == [] {
      assert a + b == b;
    } else {
      var head := if SentBy(a[0], p) then [a[0]] else [];
      FromConcat(p, a[1..], b);
      assert (a + b)[1..] == a[1..] + b;
      assert From(p, a + b) == head + (From(p, a[1..]) + From(p, b)) == (head + From(p, a[1..])) + From(p, b);
    }
  }

  /** The messages of all the other clients, in order. */
  function Others(log: seq<Message>, p: Pid): seq<Message> {
    if log == [] then [] else (if SentBy(log[0], p) then [] else [log[0]]) + Others(log[1..], p)
  }

  lemma {:induction false} OthersConcat(a: seq<Message>, b: seq<Message>, p: Pid)
    ensures Others(a + b, p) == Others(a, p) + Others(b, p)
  {
    if a == [] {
      assert a + b == b;
    } else {
      var head := if SentBy(a[0], p) then [] else [a[0]];
      OthersConcat(a[1..], b, p);
      assert (a + b)[1..] == a[1..] + b;
      assert Others(a + b, p) == head + (Others(a[1..], p) + Others(b, p)) == (head + Others(a[1..], p)) + Others(b, p);
    }
  }

  // ----- The invariant -----

  predicate TextOf(m: Message, id: int) { m.Text? && m.clientId == id }

  predicate AllTexts(q: seq<Message>, id: int) {
    forall k :: 0 <= k < |q| ==> TextOf(q[k], id)
  }

  /** Texts, then the stop. */
  predicate TextsThenStop(q: seq<Message>, id: int, p: Pid) {
    && q != []
    && (forall k :: 0 <= k < |q| - 1 ==> TextOf(q[k], id))
    && q[|q| - 1] == Stop(id, p)
  }

  /** How much of the log has reached the client in this slot: the text being broadcast has not
      while the loop is at or before the slot. */
  function Reached(s: State, slot: nat): nat {
    if s.server.Sending? && s.server.i <= slot && s.log != [] then |s.log| - 1 else |s.log|
  }

  /** The complete mail of a client: its identifier, the texts of the others that the server
      processed during its registration, and the goodbye. */
  ghost function Mail(s: State, p: Pid, membership: Membership): seq<Message> {
    match membership
    case Outside => []
    case Member(slot, from) =>
      if s.server == Answering(p, slot) || !(from <= Reached(s, slot) <= |s.log|) then []
      else [Identifier(slot)] + Others(s.log[from..Reached(s, slot)], p)
    case Left(slot, from, to) =>
      if !(from <= to <= |s.log|) then []
      else [Identifier(slot)] + Others(s.log[from..to], p) + [Stop(slot, p)]
  }

  /** A client's own story: what it has sent that is still on its way fits where it is. */
  ghost predicate StoryOk(s: State, p: Pid)
    requires p < |s.procs|
  {
    var c, sent := s.procs[p], From(p, Pending(s));
    match c.parent
    case Starting => c.membership.Outside? && sent == []
    case AwaitingId => (c.membership.Outside? && sent == [Init(p)]) || (c.membership.Member? && sent == [])
    case Chatting(id) => c.membership.Member? && c.membership.slot == id && AllTexts(sent, id)
    case Stopping(id) => c.membership.Member? && c.membership.slot == id && AllTexts(sent, id)
    case Waiting(id) => StoppedOk(p, c.membership, id, sent)
    case Closed(id) => StoppedOk(p, c.membership, id, sent)
  }

  predicate StoppedOk(p: Pid, membership: Membership, id: int, sent: seq<Message>) {
    || (membership.Left? && sent == [])
    || (membership.Member? && membership.slot == id && TextsThenStop(sent, id, p))
  }

  /** The way of the identifier from the child through the pipe to the parent. */
  predicate PipeOk(c: Client) {
    && (c.child.Unborn? <==> c.parent.Starting?)
    && (c.child.Unborn? || c.child.Forked? ==> c.shown == [])
    && (!c.parent.Starting? && !c.parent.AwaitingId? ==> c.shown != [] && c.pipe == [])
    && (c.shown == [] ==> c.pipe == [])
    && (c.parent.AwaitingId? && c.shown != [] && c.membership.Member? ==> c.pipe == [c.membership.slot])
  }

  ghost predicate BoxOk(s: State, p: Pid)
    requires p < |s.procs|
  {
    var c := s.procs[p];
    && c.mail == c.shown + c.inbox
    && |c.inbox| <= QUEUE_LENGTH
    && c.mail == Mail(s, p, c.membership)
    && PipeOk(c)
  }

  ghost predicate MemberOk(s: State, p: Pid)
    requires p < |s.procs|
  {
    match s.procs[p].membership
    case Outside => true
    case Member(slot, from) => slot < SLOTS == |s.table| && s.table[slot] == p && from <= Reached(s, slot)
    case Left(slot, from, to) => from <= to <= |s.log|
  }

  ghost predicate ClientOk(s: State, p: Pid)
    requires p < |s.procs|
  {
    StoryOk(s, p) && BoxOk(s, p) && MemberOk(s, p)
  }

  /** Each table entry is vacant or belongs to the client registered in it. */
  ghost predicate TableOk(s: State) {
    && |s.table| == SLOTS
    && forall i :: 0 <= i < SLOTS ==>
         s.table[i] == VACANT ||
         (0 <= s.table[i] < |s.procs|
          && s.procs[s.table[i]].membership.Member? && s.procs[s.table[i]].membership.slot == i)
  }

  /** Senders exist, and only clients send to the server. */
  ghost predicate PendingOk(s: State) {
    && |s.queue| <= QUEUE_LENGTH
    && forall k :: 0 <= k < |Pending(s)| ==> 0 <= Sender(Pending(s)[k]) < |s.procs|
  }

  ghost predicate ServerOk(s: State) {
    match s.server
    case Answering(p, id) => p < |s.procs| && s.procs[p].membership == Member(id, |s.log|)
    case Sending(msg, i) => msg.Text? && i <= SLOTS && s.log != [] && s.log[|s.log| - 1] == msg
    case Goodbye(msg) => msg.Stop? && 0 <= msg.clientId < SLOTS == |s.table| && s.table[msg.clientId] != VACANT
    case Failed(_) => false
    case _ => true
  }

  predicate LogOk(s: State) {
    forall k :: 0 <= k < |s.log| ==> s.log[k].Text?
  }

  ghost predicate Inv(s: State) {
    && LogOk(s) && TableOk(s) && PendingOk(s) && ServerOk(s)
    && forall p :: 0 <= p < |s.procs| ==> ClientOk(s, p)
  }

  lemma Initially(s: State)
    requires InitState(s)
    ensures Inv(s)
  {
    assert Pending(s) == [];
    forall p | 0 <= p < |s.procs| ensures ClientOk(s, p) {
      assert s.procs[p] == Client(Starting, Unborn, [], [], Outside, [], [], []);
    }
  }

  /** The head of what is pending names its owner's slot. */
  lemma HandIsOwned(s: State, p: Pid)
    requires Inv(s) && p < |s.procs| && Pending(s) != [] && SentBy(Pending(s)[0], p)
    ensures From(p, Pending(s)) != [] && From(p, Pending(s))[0] == Pending(s)[0]
    ensures var m := Pending(s)[0];
            && !m.Identifier?
            && (m.Init? ==> s.procs[p].membership.Outside? && s.procs[p].parent.AwaitingId?)
            && (!m.Init? ==> s.procs[p].membership.Member? && s.procs[p].membership.slot == m.clientId
                             && 0 <= m.clientId < SLOTS && s.table[m.clientId] == p)
  {
    assert ClientOk(s, p);
  }

  lemma InvInBounds(s: State)
    requires Inv(s)
    ensures InBounds(s)
  {
    if Hand(s.server) != [] {
      HandIsOwned(s, Sender(Pending(s)[0]));
    }
  }

  // ----- How one client's part of the invariant carries over a step -----

  lemma StoryKept(s: State, s': State, p: Pid)
    requires p < |s.procs| && p < |s'.procs| && StoryOk(s, p)
    requires s'.procs[p].parent == s.procs[p].parent && s'.procs[p].membership == s.procs[p].membership
    requires From(p, Pending(s')) == From(p, Pending(s))
    ensures StoryOk(s', p)
  {
  }

  /** A text of the client is done with. */
  lemma StoryPopped(s: State, s': State, p: Pid, msg: Message)
    requires p < |s.procs| && p < |s'.procs| && StoryOk(s, p) && msg.Text?
    requires s'.procs[p].parent == s.procs[p].parent && s'.procs[p].membership == s.procs[p].membership
    requires From(p, Pending(s)) == [msg] + From(p, Pending(s'))
    ensures StoryOk(s', p)
  {
    var sent, sent' := From(p, Pending(s)), From(p, Pending(s'));
    assert sent[0] == msg;
    forall k | 0 <= k < |sent'| ensures sent'[k] == sent[k + 1] {
    }
  }

  /** Senders exist after a message is done with, too. */
  lemma PendingPopped(s: State, s': State, msg: Message)
    requires PendingOk(s) && Pending(s) == [msg] + Pending(s')
    requires s'.queue == s.queue && |s'.procs| == |s.procs|
    ensures PendingOk(s')
  {
    forall k | 0 <= k < |Pending(s')| ensures 0 <= Sender(Pending(s')[k]) < |s'.procs| {
      assert Pending(s')[k] == Pending(s)[k + 1];
    }
  }

  lemma BoxKept(s: State, s': State, p: Pid)
    requires p < |s.procs| && p < |s'.procs| && BoxOk(s, p)
    requires s'.procs[p] == s.procs[p]
    requires Mail(s', p, s.procs[p].membership) == Mail(s, p, s.procs[p].membership)
    ensures BoxOk(s', p)
  {
  }

  /** Finishing with a message takes it off what is pending. */
  lemma Finish(m: Message, rest: seq<Message>, p: Pid)
    ensures SentBy(m, p) ==> From(p, [m] + rest) == [m] + From(p, rest)
    ensures !SentBy(m, p) ==> From(p, [m] + rest) == From(p, rest)
  {
    assert ([m] + rest)[1..] == rest;
  }

  /** Mail depends on the log and on where the server is. */
  lemma MailKept(s: State, s': State, p: Pid, membership: Membership)
    requires s'.log == s.log
    requires s.server != Answering(p, SlotOf(membership)) && s'.server != Answering(p, SlotOf(membership))
    requires membership.Member? ==> Reached(s', membership.slot) == Reached(s, membership.slot)
    ensures Mail(s', p, membership) == Mail(s, p, membership)
  {
  }

  function SlotOf(membership: Membership): nat {
    if membership.Outside? then 0 else membership.slot
  }

  /** A step of the server that leaves a client and its mail alone. */
  lemma ClientKept(s: State, s': State, p: Pid)
    requires p < |s.procs| && p < |s'.procs| && ClientOk(s, p)
    requires s'.procs[p] == s.procs[p] && s'.log == s.log
    requires From(p, Pending(s')) == From(p, Pending(s))
    requires s.server.Answering? ==> s.server.client != p
    requires s'.server.Answering? ==> s'.server.client != p
    requires |s'.table| == SLOTS
    requires s.procs[p].membership.Member? ==>
               s'.table[s.procs[p].membership.slot] == p &&
               Reached(s', s.procs[p].membership.slot) == Reached(s, s.procs[p].membership.slot)
    ensures ClientOk(s', p)
  {
    StoryKept(s, s', p);
    MailKept(s, s', p, s.procs[p].membership);
    BoxKept(s, s', p);
  }

  // ----- Moves of clients keep the invariant -----

  /** A client's move adds only its own messages to what is pending. */
  lemma MovePending(s: State, m: Move, q: Pid)
    requires Enabled(s, m) && !m.Serve?
    ensures Pending(Next(s, m)) == Pending(s) + Sent(s, m)
    ensures From(q, Pending(Next(s, m))) == From(q, Pending(s)) + (if q == m.p then Sent(s, m) else [])
  {
    assert Pending(Next(s, m)) == Pending(s) + Sent(s, m);
    FromConcat(q, Pending(s), Sent(s, m));
    if Sent(s, m) != [] {
      assert Sent(s, m)[1..] == [];
    }
  }

  lemma MoveOther(s: State, m: Move, q: Pid)
    requires Enabled(s, m) && !m.Serve? && q < |s.procs| && q != m.p && ClientOk(s, q)
    ensures ClientOk(Next(s, m), q)
  {
    MovePending(s, m, q);
    OtherKept(s, Next(s, m), q);
  }

  lemma OtherKept(s: State, s': State, q: Pid)
    requires q < |s.procs| == |s'.procs| && ClientOk(s, q)
    requires s'.procs[q] == s.procs[q] && From(q, Pending(s')) == From(q, Pending(s))
    requires s'.server == s.server && s'.log == s.log && s'.table == s.table
    ensures ClientOk(s', q)
  {
    StoryKept(s, s', q);
    BoxKept(s, s', q);
  }

  lemma MoveOwnStory(s: State, m: Move)
    requires Enabled(s, m) && !m.Serve? && !m.ReadNothing? && StoryOk(s, m.p) && BoxOk(s, m.p)
    ensures StoryOk(Next(s, m), m.p)
  {
    var p, s' := m.p, Next(s, m);
    var c, sent := s.procs[p], From(p, Pending(s));
    MovePending(s, m, p);
    var sent' := sent + Sent(s, m);
    assert From(p, Pending(s')) == sent';
    if m.ReadId? {
      assert c.pipe == [c.membership.slot];
    }
  }

  lemma {:induction false} OthersTexts(log: seq<Message>, p: Pid)
    requires forall k :: 0 <= k < |log| ==> log[k].Text?
    ensures forall k :: 0 <= k < |Others(log, p)| ==> Others(log, p)[k].Text?
  {
    if log == [] {
    } else {
      OthersTexts(log[1..], p);
    }
  }

  /** The first message a client gets is its identifier, and the only one. */
  lemma MailStart(s: State, p: Pid)
    requires p < |s.procs| && LogOk(s) && BoxOk(s, p) && s.procs[p].mail != []
    ensures !s.procs[p].membership.Outside?
    ensures s.procs[p].mail[0] == Identifier(s.procs[p].membership.slot)
    ensures forall k :: 1 <= k < |s.procs[p].mail| ==> !s.procs[p].mail[k].Identifier?
  {
    match s.procs[p].membership
    case Member(slot, from) => OthersTexts(s.log[from..Reached(s, slot)], p);
    case Left(slot, from, to) => OthersTexts(s.log[from..to], p);
  }

  lemma ReceivePipe(s: State, p: Pid)
    requires Enabled(s, Receive(p)) && LogOk(s) && BoxOk(s, p) && StoryOk(s, p)
    ensures PipeOk(ChildNext(s.procs[p]))
  {
    var c := s.procs[p];
    MailStart(s, p);
    assert c.inbox[0] == c.mail[|c.shown|];
  }

  lemma MovePipe(s: State, m: Move)
    requires Enabled(s, m) && !m.Serve? && !m.ReadNothing? && LogOk(s) && BoxOk(s, m.p) && StoryOk(s, m.p)
    ensures PipeOk(ParentNext(s, m))
  {
    if m.Receive? {
      ReceivePipe(s, m.p);
    } else if m.ReadId? {
      PipeHasSlot(s, m.p);
    }
  }

  /** Something in the pipe comes from an identifier, so the client is registered. */
  lemma PipeHasSlot(s: State, p: Pid)
    requires p < |s.procs| && LogOk(s) && BoxOk(s, p) && StoryOk(s, p) && s.procs[p].pipe != []
    ensures s.procs[p].parent.AwaitingId? && s.procs[p].membership.Member?
    ensures s.procs[p].pipe == [s.procs[p].membership.slot]
  {
    MailStart(s, p);
  }

  /** A client's own move takes at most the first message from its inbox, and adds it to what
      was shown. */
  lemma MoveMail(s: State, m: Move)
    requires Enabled(s, m) && !m.Serve?
    ensures var c, c' := s.procs[m.p], ParentNext(s, m);
            && c'.membership == c.membership && c'.mail == c.mail && |c'.inbox| <= |c.inbox|
            && c'.shown + c'.inbox == c.shown + c.inbox
  {
    var c := s.procs[m.p];
    if m.Receive? {
      assert c.shown + [c.inbox[0]] + c.inbox[1..] == c.shown + c.inbox;
    }
  }

  lemma MoveOwnBox(s: State, m: Move)
    requires Enabled(s, m) && !m.Serve? && !m.ReadNothing? && LogOk(s) && ClientOk(s, m.p)
    ensures BoxOk(Next(s, m), m.p)
  {
    MoveMail(s, m);
    MovePipe(s, m);
    MoveFrame(s, m);
    BoxMoved(s, Next(s, m), m.p);
  }

  lemma BoxMoved(s: State, s': State, p: Pid)
    requires p < |s.procs| && p < |s'.procs| && BoxOk(s, p) && PipeOk(s'.procs[p])
    requires s'.server == s.server && s'.log == s.log
    requires var c, c' := s.procs[p], s'.procs[p];
             && c'.membership == c.membership && c'.mail == c.mail && |c'.inbox| <= |c.inbox|
             && c'.shown + c'.inbox == c.shown + c.inbox
    ensures BoxOk(s', p)
  {
  }

  lemma MoveOwnMember(s: State, m: Move)
    requires Enabled(s, m) && !m.Serve? && MemberOk(s, m.p)
    ensures MemberOk(Next(s, m), m.p)
  {
    MoveMail(s, m);
    MoveFrame(s, m);
  }

  lemma MoveFrame(s: State, m: Move)
    requires Enabled(s, m) && !m.Serve?
    ensures var s' := Next(s, m);
            && s'.server == s.server && s'.table == s.table && s'.log == s.log
            && s'.procs == s.procs[m.p := ParentNext(s, m)]
  {
  }

  lemma MoveOwn(s: State, m: Move)
    requires Enabled(s, m) && !m.Serve? && !m.ReadNothing? && LogOk(s) && ClientOk(s, m.p)
    ensures ClientOk(Next(s, m), m.p)
  {
    MoveOwnStory(s, m);
    MoveOwnBox(s, m);
    MoveOwnMember(s, m);
  }

  /** A move of a client changes nothing of what the other clauses speak about, but what is
      pending, and its own registration stays. */
  lemma MoveOthers(s: State, m: Move)
    requires TableOk(s) && PendingOk(s) && ServerOk(s) && LogOk(s) && Enabled(s, m) && !m.Serve?
    ensures TableOk(Next(s, m)) && PendingOk(Next(s, m)) && ServerOk(Next(s, m)) && LogOk(Next(s, m))
  {
    MoveMail(s, m);
    MoveFrame(s, m);
    RegistrationsKept(s, Next(s, m));
    MoveSends(s, m);
    SendersExist(s, Next(s, m), Sent(s, m));
  }

  lemma RegistrationsKept(s: State, s': State)
    requires TableOk(s) && ServerOk(s) && LogOk(s)
    requires s'.server == s.server && s'.table == s.table && s'.log == s.log && |s'.procs| == |s.procs|
    requires forall p :: 0 <= p < |s.procs| ==> s'.procs[p].membership == s.procs[p].membership
    ensures TableOk(s') && ServerOk(s') && LogOk(s')
  {
  }

  lemma MoveSends(s: State, m: Move)
    requires Enabled(s, m) && !m.Serve?
    ensures Pending(Next(s, m)) == Pending(s) + Sent(s, m)
    ensures |s.queue| <= QUEUE_LENGTH ==> |Next(s, m).queue| <= QUEUE_LENGTH
    ensures forall k :: 0 <= k < |Sent(s, m)| ==> Sender(Sent(s, m)[k]) == m.p < |s.procs|
  {
    MovePending(s, m, m.p);
  }

  lemma SendersExist(s: State, s': State, sent: seq<Message>)
    requires PendingOk(s) && |s'.queue| <= QUEUE_LENGTH && Pending(s') == Pending(s) + sent && |s'.procs| == |s.procs|
    requires forall k :: 0 <= k < |sent| ==> 0 <= Sender(sent[k]) < |s.procs|
    ensures PendingOk(s')
  {
  }

  lemma MoveInv(s: State, m: Move)
    requires Inv(s) && Enabled(s, m) && !m.Serve? && !m.ReadNothing?
    ensures Inv(Next(s, m))
  {
    var s' := Next(s, m);
    MoveOthers(s, m);
    MoveFrame(s, m);
    forall q | 0 <= q < |s'.procs| ensures ClientOk(s', q) {
      assert ClientOk(s, q);
      if q == m.p {
        MoveOwn(s, m);
      } else {
        MoveOther(s, m, q);
      }
    }
  }

  // ----- Steps of the server keep the invariant -----

  lemma TakeInv(s: State)
    requires Inv(s) && Enabled(s, Serve) && s.server.Receiving?
    ensures Inv(ServerNext(s))
  {
    var s' := ServerNext(s);
    assert Pending(s') == s.queue == Pending(s);
    forall p | 0 <= p < |s'.procs| ensures ClientOk(s', p) {
      assert ClientOk(s, p);
      ClientKept(s, s', p);
    }
  }

  lemma JoinOwner(s: State, owner: Pid)
    requires s.server == Handling(Init(owner)) && InBounds(s) && FirstVacant(s.table) < SLOTS
    requires ClientOk(s, owner) && s.procs[owner].parent.AwaitingId? && s.procs[owner].membership.Outside?
    ensures ClientOk(Handle(s, Init(owner)), owner)
  {
    var s' := Handle(s, Init(owner));
    assert Pending(s) == [Init(owner)] + Pending(s');
    Finish(Init(owner), Pending(s'), owner);
    JoinStory(s, s', owner);
    JoinBox(s, s', owner, FirstVacant(s.table));
  }

  lemma JoinBox(s: State, s': State, owner: Pid, id: nat)
    requires owner < |s.procs| && owner < |s'.procs| && BoxOk(s, owner)
    requires s.procs[owner].parent.AwaitingId? && s.procs[owner].membership.Outside?
    requires s'.procs[owner] == s.procs[owner].(membership := Member(id, |s'.log|)) && s'.server == Answering(owner, id)
    ensures BoxOk(s', owner)
  {
  }

  lemma JoinStory(s: State, s': State, owner: Pid)
    requires owner < |s.procs| && owner < |s'.procs| && StoryOk(s, owner)
    requires s.procs[owner].parent.AwaitingId? && s.procs[owner].membership.Outside?
    requires From(owner, Pending(s)) == [Init(owner)] + From(owner, Pending(s'))
    requires s'.procs[owner].parent.AwaitingId? && s'.procs[owner].membership.Member?
    ensures StoryOk(s', owner)
  {
    assert |From(owner, Pending(s))| == 1;
  }

  lemma OverrunInv(s: State, owner: Pid)
    requires Inv(s) && s.server == Handling(Init(owner)) && InBounds(s) && FirstVacant(s.table) == SLOTS
    ensures Inv(Handle(s, Init(owner)))
  {
    var s' := Handle(s, Init(owner));
    assert Pending(s') == Pending(s);
    forall p | 0 <= p < |s'.procs| ensures ClientOk(s', p) {
      assert ClientOk(s, p);
      ClientKept(s, s', p);
    }
  }

  lemma JoinOther(s: State, owner: Pid, p: Pid)
    requires s.server == Handling(Init(owner)) && InBounds(s) && FirstVacant(s.table) < SLOTS
    requires owner < |s.procs| && s.procs[owner].parent.AwaitingId? && p < |s.procs| && p != owner && ClientOk(s, p)
    ensures ClientOk(Handle(s, Init(owner)), p)
  {
    JoinFrame(s, owner, p);
    PoppedKept(s, Handle(s, Init(owner)), p, Init(owner));
  }

  /** A step that finishes with another client's message and leaves this one's slot alone. */
  lemma PoppedKept(s: State, s': State, p: Pid, msg: Message)
    requires p < |s.procs| && p < |s'.procs| && ClientOk(s, p) && s'.procs[p] == s.procs[p] && s'.log == s.log
    requires Hand(s.server) == [msg] && Hand(s'.server) == [] && s'.queue == s.queue && !SentBy(msg, p)
    requires !s.server.Sending? && !s'.server.Sending? && (s'.server.Answering? ==> s'.server.client != p)
    requires |s.table| == |s'.table| == SLOTS && forall i :: 0 <= i < SLOTS && s.table[i] == p ==> s'.table[i] == p
    ensures ClientOk(s', p)
  {
    assert Pending(s) == [msg] + Pending(s');
    Finish(msg, Pending(s'), p);
    ClientKept(s, s', p);
  }

  lemma JoinFrame(s: State, owner: Pid, p: Pid)
    requires s.server == Handling(Init(owner)) && InBounds(s) && FirstVacant(s.table) < SLOTS
    requires owner < |s.procs| && s.procs[owner].parent.AwaitingId? && p < |s.procs| && p != owner
    ensures var s' := Handle(s, Init(owner));
            && s'.server == Answering(owner, FirstVacant(s.table)) && s'.log == s.log && s'.queue == s.queue
            && |s'.procs| == |s.procs| && s'.procs[p] == s.procs[p]
            && |s'.table| == SLOTS && forall i :: 0 <= i < SLOTS && s.table[i] == p ==> s'.table[i] == p
  {
  }

  lemma JoinTable(s: State, owner: Pid)
    requires TableOk(s) && LogOk(s) && s.server == Handling(Init(owner)) && InBounds(s) && FirstVacant(s.table) < SLOTS
    requires owner < |s.procs| && s.procs[owner].membership.Outside? && s.procs[owner].parent.AwaitingId?
    ensures var s' := Handle(s, Init(owner)); TableOk(s') && LogOk(s') && ServerOk(s')
  {
  }

  lemma JoinInv(s: State, owner: Pid)
    requires Inv(s) && s.server == Handling(Init(owner)) && InBounds(s) && FirstVacant(s.table) < SLOTS
    requires s.procs[owner].membership.Outside? && s.procs[owner].parent.AwaitingId?
    ensures Inv(Handle(s, Init(owner)))
  {
    var s' := Handle(s, Init(owner));
    JoinTable(s, owner);
    assert Pending(s) == [Init(owner)] + Pending(s');
    PendingPopped(s, s', Init(owner));
    assert ClientOk(s, owner);
    JoinOwner(s, owner);
    forall p | 0 <= p < |s'.procs| && p != owner ensures ClientOk(s', p) {
      assert ClientOk(s, p);
      JoinOther(s, owner, p);
    }
  }

  lemma HandleInitInv(s: State, owner: Pid)
    requires Inv(s) && s.server == Handling(Init(owner)) && InBounds(s)
    ensures Inv(Handle(s, Init(owner)))
  {
    if FirstVacant(s.table) == SLOTS {
      OverrunInv(s, owner);
    } else {
      assert Pending(s)[0] == Init(owner);
      HandIsOwned(s, owner);
      JoinInv(s, owner);
    }
  }

  /** A new entry in the log has not reached anybody yet. */
  lemma LoggedMail(s: State, s': State, p: Pid, membership: Membership, msg: Message)
    requires s.server == Handling(msg) && s'.server == Sending(msg, 0) && s'.log == s.log + [msg]
    requires membership.Member? ==> membership.from <= |s.log|
    requires membership.Left? ==> membership.to <= |s.log|
    ensures Mail(s', p, membership) == Mail(s, p, membership)
  {
    var n := |s.log|;
    assert s'.log[..n] == s.log;
    match membership
    case Outside =>
    case Member(slot, from) =>
      assert s'.log[from..n] == s'.log[..n][from..] == s.log[from..n];
    case Left(slot, from, to) =>
      if from <= to {
        assert s'.log[from..to] == s'.log[..n][from..to] == s.log[from..to];
      }
  }

  lemma HandleTextInv(s: State, msg: Message)
    requires Inv(s) && s.server == Handling(msg) && msg.Text? && InBounds(s)
    ensures Inv(Handle(s, msg))
  {
    var s' := Handle(s, msg);
    assert Pending(s') == Pending(s);
    forall p | 0 <= p < |s'.procs| ensures ClientOk(s', p) {
      assert ClientOk(s, p);
      StoryKept(s, s', p);
      LoggedMail(s, s', p, s.procs[p].membership, msg);
      BoxKept(s, s', p);
    }
  }

  lemma HandleStopInv(s: State, msg: Message)
    requires Inv(s) && s.server == Handling(msg) && msg.Stop? && InBounds(s)
    ensures Inv(Handle(s, msg)) && Handle(s, msg).server == Goodbye(msg)
  {
    var s' := Handle(s, msg);
    assert Pending(s)[0] == msg;
    HandIsOwned(s, msg.sender);
    assert Pending(s') == Pending(s);
    forall p | 0 <= p < |s'.procs| ensures ClientOk(s', p) {
      assert ClientOk(s, p);
      ClientKept(s, s', p);
    }
  }

  lemma AnswerInv(s: State)
    requires Inv(s) && Enabled(s, Serve) && s.server.Answering?
    ensures Inv(ServerNext(s))
  {
    var s' := ServerNext(s);
    var client := s.server.client;
    assert Pending(s') == Pending(s);
    forall p | 0 <= p < |s'.procs| ensures ClientOk(s', p) {
      assert ClientOk(s, p);
      if p == client {
        assert s.log[|s.log|..|s.log|] == [];
        assert Mail(s', p, s.procs[p].membership) == [Identifier(s.server.id)];
        StoryKept(s, s', p);
      } else {
        ClientKept(s, s', p);
      }
    }
  }

  /** The slot the loop is at belongs to the sender exactly when it carries the message's id. */
  lemma SkipsOnlySender(s: State)
    requires Inv(s) && s.server.Sending? && s.server.i < SLOTS && s.table[s.server.i] != VACANT
    ensures s.server.i == s.server.msg.clientId <==> s.table[s.server.i] == s.server.msg.sender
    ensures s.server.msg.sender < |s.procs| && SentBy(s.server.msg, s.server.msg.sender)
  {
    assert Pending(s)[0] == s.server.msg;
    HandIsOwned(s, s.server.msg.sender);
    var t := s.table[s.server.i];
    assert s.procs[t].membership.slot == s.server.i;
    assert s.table[s.server.msg.clientId] == s.server.msg.sender;
  }

  /** What reaching the current slot adds to the mail due there. */
  lemma ReachingSlot(s: State, s': State, p: Pid, from: nat)
    requires s.server.Sending? && s.log != [] && s.log[|s.log| - 1] == s.server.msg
    requires s'.log == s.log && s'.server == s.server.(i := s.server.i + 1)
    requires from <= Reached(s, s.server.i)
    ensures var m := Member(s.server.i, from);
            Mail(s', p, m) == Mail(s, p, m) + (if SentBy(s.server.msg, p) then [] else [s.server.msg])
  {
    var msg := s.server.msg;
    var before := s.log[from..|s.log| - 1];
    assert s.log[from..|s.log|] == before + [msg];
    OthersConcat(before, [msg], p);
    assert [msg][1..] == [];
  }

  /** The client in the current slot gets the text, unless it is the sender. */
  lemma SendToSlot(s: State, p: Pid)
    requires Enabled(s, Serve) && s.server.Sending? && s.server.i < SLOTS && ServerOk(s)
    requires p < |s.procs| && ClientOk(s, p)
    requires s.procs[p].membership.Member? && s.procs[p].membership.slot == s.server.i
    requires s.server.i == s.server.msg.clientId <==> SentBy(s.server.msg, p)
    ensures BoxOk(ServerNext(s), p) && MemberOk(ServerNext(s), p)
  {
    var s' := ServerNext(s);
    ReachingSlot(s, s', p, s.procs[p].membership.from);
  }

  lemma SendClient(s: State, p: Pid)
    requires Inv(s) && Enabled(s, Serve) && s.server.Sending? && s.server.i < SLOTS && p < |s.procs|
    ensures ClientOk(ServerNext(s), p)
  {
    var s' := ServerNext(s);
    assert Pending(s') == Pending(s);
    assert ClientOk(s, p);
    var m := s.procs[p].membership;
    if m.Member? && m.slot == s.server.i {
      SkipsOnlySender(s);
      StoryKept(s, s', p);
      SendToSlot(s, p);
    } else {
      ClientKept(s, s', p);
    }
  }

  lemma SendInv(s: State)
    requires Inv(s) && Enabled(s, Serve) && s.server.Sending? && s.server.i < SLOTS
    ensures Inv(ServerNext(s))
  {
    var s' := ServerNext(s);
    assert Pending(s') == Pending(s);
    forall p | 0 <= p < |s'.procs| ensures ClientOk(s', p) {
      SendClient(s, p);
    }
  }

  lemma SentInv(s: State)
    requires Inv(s) && Enabled(s, Serve) && s.server.Sending? && s.server.i == SLOTS
    ensures Inv(ServerNext(s))
  {
    var s' := ServerNext(s);
    var msg := s.server.msg;
    assert Pending(s) == [msg] + Pending(s');
    PendingPopped(s, s', msg);
    forall p | 0 <= p < |s'.procs| ensures ClientOk(s', p) {
      assert ClientOk(s, p);
      Finish(msg, Pending(s'), p);
      if SentBy(msg, p) {
        StoryPopped(s, s', p, msg);
        MailKept(s, s', p, s.procs[p].membership);
        BoxKept(s, s', p);
      } else {
        ClientKept(s, s', p);
      }
    }
  }

  /** A stop is the last message of its sender. */
  lemma StopIsLast(s: State, p: Pid)
    requires p < |s.procs| && StoryOk(s, p) && From(p, Pending(s)) != [] && From(p, Pending(s))[0].Stop?
    ensures From(p, Pending(s)) == [From(p, Pending(s))[0]]
    ensures s.procs[p].parent.Waiting? || s.procs[p].parent.Closed?
  {
    var sent := From(p, Pending(s));
    assert forall id :: !TextOf(sent[0], id);
  }

  lemma GoodbyeStory(s: State, p: Pid)
    requires Enabled(s, Serve) && s.server.Goodbye? && p < |s.procs| && StoryOk(s, p)
    requires s.procs[p].membership.Member? && s.table[s.server.msg.clientId] == p
    requires s.server.msg == Stop(s.procs[p].membership.slot, p)
    ensures StoryOk(ServerNext(s), p)
  {
    var s' := ServerNext(s);
    var msg := s.server.msg;
    assert Pending(s) == [msg] + Pending(s');
    Finish(msg, Pending(s'), p);
    StopIsLast(s, p);
    assert From(p, Pending(s')) == [];
  }

  lemma GoodbyeOwner(s: State, p: Pid)
    requires Enabled(s, Serve) && s.server.Goodbye? && p < |s.procs| && ClientOk(s, p)
    requires s.procs[p].membership.Member? && s.procs[p].membership.slot == s.server.msg.clientId
    requires s.server.msg == Stop(s.procs[p].membership.slot, p)
    ensures ClientOk(ServerNext(s), p)
  {
    GoodbyeStory(s, p);
    var m := s.procs[p].membership;
    assert s.log[m.from..Reached(s, m.slot)] == s.log[m.from..|s.log|];
  }

  lemma GoodbyeFrame(s: State, p: Pid)
    requires Enabled(s, Serve) && s.server.Goodbye? && p < |s.procs| && s.table[s.server.msg.clientId] != p
    ensures var s' := ServerNext(s);
            && s'.server.Receiving? && s'.log == s.log && s'.queue == s.queue
            && |s'.procs| == |s.procs| && s'.procs[p] == s.procs[p]
            && |s'.table| == SLOTS && forall i :: 0 <= i < SLOTS && s.table[i] == p ==> s'.table[i] == p
  {
  }

  lemma GoodbyeOther(s: State, p: Pid)
    requires Enabled(s, Serve) && s.server.Goodbye? && p < |s.procs| && ClientOk(s, p)
    requires !SentBy(s.server.msg, p) && s.table[s.server.msg.clientId] != p
    ensures ClientOk(ServerNext(s), p)
  {
    GoodbyeFrame(s, p);
    PoppedKept(s, ServerNext(s), p, s.server.msg);
  }

  lemma GoodbyeTable(s: State)
    requires TableOk(s) && LogOk(s) && Enabled(s, Serve) && s.server.Goodbye?
    ensures TableOk(ServerNext(s)) && LogOk(ServerNext(s)) && ServerOk(ServerNext(s))
  {
  }

  lemma GoodbyeInv(s: State)
    requires Inv(s) && Enabled(s, Serve) && s.server.Goodbye?
    ensures Inv(ServerNext(s))
  {
    var s' := ServerNext(s);
    var msg := s.server.msg;
    assert Pending(s) == [msg] + Pending(s') && Pending(s)[0] == msg;
    HandIsOwned(s, msg.sender);
    PendingPopped(s, s', msg);
    GoodbyeTable(s);
    forall p | 0 <= p < |s'.procs| ensures ClientOk(s', p) {
      assert ClientOk(s, p);
      if p == msg.sender {
        GoodbyeOwner(s, p);
      } else {
        GoodbyeOther(s, p);
      }
    }
  }

  lemma ServeInv(s: State)
    requires Inv(s) && Enabled(s, Serve)
    ensures Inv(ServerNext(s))
  {
    match s.server
    case Receiving => TakeInv(s);
    case Handling(msg) =>
      HandIsOwned(s, Sender(Pending(s)[0]));
      if msg.Init? {
        HandleInitInv(s, msg.queue);
      } else if msg.Text? {
        HandleTextInv(s, msg);
      } else {
        HandleStopInv(s, msg);
      }
    case Answering(_, _) => AnswerInv(s);
    case Sending(_, i) =>
      if i < SLOTS {
        SendInv(s);
      } else {
        SentInv(s);
      }
    case Goodbye(_) => GoodbyeInv(s);
  }

  lemma StepInv(s: State, m: Move)
    requires Inv(s) && Enabled(s, m) && !m.ReadNothing?
    ensures Inv(Next(s, m))
  {
    if m.Serve? {
      ServeInv(s);
    } else {
      MoveInv(s, m);
    }
  }

  // ----- The invariant holds in exactly the runs in which no parent reads nothing -----

  /** The parent has passed line 128 and its child never received anything. */
  predicate Misled(c: Client) {
    c.child.Exited? && c.shown == [] && !c.parent.Starting? && !c.parent.AwaitingId?
  }

  predicate SomeMisled(s: State) {
    exists p :: 0 <= p < |s.procs| && Misled(s.procs[p])
  }

  lemma MisledForever(s: State, m: Move, p: Pid)
    requires Enabled(s, m) && p < |s.procs| && Misled(s.procs[p])
    ensures p < |Next(s, m).procs| && Misled(Next(s, m).procs[p])
  {
  }

  lemma ReadNothingMisleads(s: State, m: Move)
    requires Inv(s) && Enabled(s, m) && m.ReadNothing?
    ensures Misled(Next(s, m).procs[m.p])
  {
    assert ClientOk(s, m.p);
  }

  lemma NobodyMisled(s: State)
    requires Inv(s)
    ensures !SomeMisled(s)
  {
    forall p | 0 <= p < |s.procs| ensures !Misled(s.procs[p]) {
      assert ClientOk(s, p);
    }
  }

  ghost predicate NobodyReadNothing(ms: seq<Move>) {
    forall k :: 0 <= k < |ms| ==> !ms[k].ReadNothing?
  }

  lemma {:induction false} RunInvOrMisled(tr: seq<State>, ms: seq<Move>)
    requires IsRun(tr, ms) && Inv(tr[0])
    ensures if NobodyReadNothing(ms) then Inv(tr[|tr| - 1]) else SomeMisled(tr[|tr| - 1])
  {
    if ms == [] {
    } else {
      var k := |ms| - 1;
      LastStep(tr, ms);
      RunInvOrMisled(tr[..|tr| - 1], ms[..k]);
      assert ms == ms[..k] + [ms[k]];
      if !NobodyReadNothing(ms[..k]) {
        var p :| 0 <= p < |tr[k].procs| && Misled(tr[k].procs[p]);
        MisledForever(tr[k], ms[k], p);
      } else if ms[k].ReadNothing? {
        ReadNothingMisleads(tr[k], ms[k]);
      } else {
        StepInv(tr[k], ms[k]);
      }
    }
  }

  lemma RunInv(tr: seq<State>, ms: seq<Move>)
    requires IsRun(tr, ms) && Inv(tr[0])
    ensures Inv(tr[|tr| - 1]) <==> NobodyReadNothing(ms)
  {
    RunInvOrMisled(tr, ms);
    if Inv(tr[|tr| - 1]) {
      NobodyMisled(tr[|tr| - 1]);
    }
  }

  // ----- Ids name their owners, wherever they are -----

  predicate Owns(s: State, p: Pid, id: int) {
    0 <= id < SLOTS == |s.table| && s.table[id] == p
  }

  predicate HoldsId(parent: ParentPc) {
    !parent.Starting? && !parent.AwaitingId?
  }

  /** Every id a registered client holds, that is in its parent, in its pipe, in an identifier in
      its inbox, or in a text or stop on its way to the server, is the slot registered for that
      client; and no client has two slots. */
  lemma IdsNameTheirOwner(s: State, p: Pid)
    requires Inv(s) && p < |s.procs|
    ensures var c := s.procs[p];
            && (HoldsId(c.parent) && !c.membership.Left? ==> Owns(s, p, c.parent.id))
            && (c.parent.Chatting? || c.parent.Stopping? ==> Owns(s, p, c.parent.id))
            && (forall k :: 0 <= k < |c.pipe| ==> Owns(s, p, c.pipe[k]))
            && (forall k :: 0 <= k < |c.inbox| && c.inbox[k].Identifier? ==> Owns(s, p, c.inbox[k].clientId))
            && (forall k :: 0 <= k < |Pending(s)| && SentBy(Pending(s)[k], p) && !Pending(s)[k].Init? ==>
                  Owns(s, p, Pending(s)[k].clientId))
            && (forall i, j :: 0 <= i < j < SLOTS && s.table[i] == s.table[j] ==> s.table[i] == VACANT)
  {
    assert ClientOk(s, p);
    forall k | 0 <= k < |Pending(s)| && SentBy(Pending(s)[k], p) && !Pending(s)[k].Init?
      ensures Owns(s, p, Pending(s)[k].clientId)
    {
      FromContains(p, Pending(s), k);
    }
    HeldIds(s, p);
  }

  lemma HeldIds(s: State, p: Pid)
    requires LogOk(s) && |s.table| == SLOTS && p < |s.procs| && ClientOk(s, p)
    ensures forall k :: 0 <= k < |s.procs[p].pipe| ==> Owns(s, p, s.procs[p].pipe[k])
    ensures forall k :: 0 <= k < |s.procs[p].inbox| && s.procs[p].inbox[k].Identifier? ==>
              Owns(s, p, s.procs[p].inbox[k].clientId)
  {
    if s.procs[p].pipe != [] {
      PipeHasSlot(s, p);
    }
    forall k | 0 <= k < |s.procs[p].inbox| && s.procs[p].inbox[k].Identifier?
      ensures Owns(s, p, s.procs[p].inbox[k].clientId)
    {
      InboxOwned(s, p, k);
    }
  }

  lemma InboxOwned(s: State, p: Pid, k: nat)
    requires LogOk(s) && |s.table| == SLOTS && p < |s.procs| && ClientOk(s, p)
    requires k < |s.procs[p].inbox| && s.procs[p].inbox[k].Identifier?
    ensures Owns(s, p, s.procs[p].inbox[k].clientId)
  {
    var c := s.procs[p];
    MailStart(s, p);
    assert c.inbox[k] == c.mail[|c.shown| + k];
    assert c.shown == [];
  }

  lemma {:induction false} FromContains(p: Pid, q: seq<Message>, k: nat)
    requires k < |q| && SentBy(q[k], p)
    ensures q[k] in From(p, q)
  {
    if k == 0 {
    } else {
      FromContains(p, q[1..], k - 1);
    }
  }

  /** A stop frees the slot of the client that sent it, and no other. */
  lemma StopFreesItsSender(s: State)
    requires Inv(s) && s.server.Goodbye? && Enabled(s, Serve)
    ensures var msg, s' := s.server.msg, ServerNext(s);
            && msg.sender < |s.procs| == |s'.procs| && Owns(s, msg.sender, msg.clientId)
            && s'.table == s.table[msg.clientId := VACANT]
            && msg.sender !in s'.table && s'.procs[msg.sender].membership.Left?
            && forall p: Pid, id :: p != msg.sender ==> (Owns(s', p, id) <==> Owns(s, p, id))
  {
    assert Pending(s)[0] == s.server.msg;
    HandIsOwned(s, s.server.msg.sender);
  }

  // ----- Running off the table -----

  /** Handling an INIT runs off the table exactly when all ten entries are taken. */
  lemma OverrunIff(s: State)
    requires Inv(s) && Enabled(s, Serve) && s.server.Handling? && s.server.msg.Init?
    ensures ServerNext(s).server.Overrun? <==> forall i :: 0 <= i < SLOTS ==> s.table[i] != VACANT
  {
    var id := FirstVacant(s.table);
    assert Pending(s)[0] == s.server.msg;
    HandIsOwned(s, s.server.msg.queue);
    if id < SLOTS {
      assert s.table[id] == VACANT;
    } else {
      assert forall i :: 0 <= i < SLOTS ==> s.table[i] != VACANT;
    }
  }

  /** Nothing else does, and it takes eleven clients: ten registered ones and the newcomer. */
  lemma OverrunNeedsEleven(s: State, m: Move)
    requires Inv(s) && Enabled(s, m) && !m.ReadNothing? && !s.server.Overrun? && Next(s, m).server.Overrun?
    ensures m == Serve && s.server.Handling? && s.server.msg.Init?
    ensures forall i :: 0 <= i < SLOTS ==> 0 <= s.table[i] < |s.procs| && s.procs[s.table[i]].membership.Member?
    ensures forall i, j :: 0 <= i < j < SLOTS ==> s.table[i] != s.table[j]
    ensures s.server.msg.queue !in s.table
    ensures |s.procs| > SLOTS
  {
    var msg := s.server.msg;
    assert Pending(s)[0] == msg;
    HandIsOwned(s, Sender(msg));
    assert forall i :: 0 <= i < SLOTS ==> s.table[i] != VACANT;
    DistinctBelow(s.table + [msg.queue], |s.procs|);
  }

  /** Distinct numbers below n are at most n. */
  lemma {:induction false} DistinctBelow(q: seq<int>, n: nat)
    requires forall i :: 0 <= i < |q| ==> 0 <= q[i] < n
    requires forall i, j :: 0 <= i < j < |q| ==> q[i] != q[j]
    ensures |q| <= n
    decreases n
  {
    if q == [] {
    } else if k :| 0 <= k < |q| && q[k] == n - 1 {
      DistinctBelow(q[..k] + q[k + 1..], n - 1);
    } else {
      assert 0 <= q[0] < n;
      DistinctBelow(q, n - 1);
    }
  }
}
