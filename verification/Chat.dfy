/** The message-queue chat of cw7 (POSIX version): a server with a ten-entry client table,
    bounded FIFO queues, and clients made of a parent and a child process joined by a pipe.
    Any number of clients come and go and every process moves one step at a time. */
module Chat {
  const SLOTS := 10
  const QUEUE_LENGTH := 10
  const VACANT := -1

  /** A client's process number, which also names its queue. */
  type Pid = nat

  /** `sender` is history: the program acts on `clientId` only.  An id is any integer, as a
      client that was never told its own sends whatever its variable holds. */
  datatype Message =
    | Init(queue: Pid)
    | Identifier(clientId: int)
    | Text(clientId: int, body: string, sender: Pid)
    | Stop(clientId: int, sender: Pid)

  datatype ServerPc =
    | Receiving                       // 46
    | Handling(msg: Message)          // 47
    | Answering(client: Pid, id: nat) // 66
    | Sending(msg: Message, i: nat)   // 71-75
    | Goodbye(msg: Message)           // 87-94
    | Overrun(msg: Message)           // 51 with a full table, or 79 with an id outside it: undefined behaviour
    | Failed(msg: Message)            // 64: the queue of an INIT is gone and the server exits

  datatype ParentPc =
    | Starting              // 70
    | AwaitingId            // 128
    | Chatting(id: int)     // 130-156
    | Stopping(id: int)     // 164
    | Waiting(id: int)      // 170
    | Closed(id: int)       // 178: the client's queue is gone

  /** The child looks at its copy of `flag` before its first mq_receive and after each message. */
  datatype ChildPc =
    | Unborn
    | Forked(flag: bool)    // 100, for the first time
    | Looping(flag: bool)   // 104
    | Exited                // 125: the pipe has no writer

  /** History: the slot a client has or had, and the part of the server's log that falls in
      its registration. */
  datatype Membership = Outside | Member(slot: nat, from: nat) | Left(slot: nat, from: nat, to: nat)

  /** `mail`, `shown` and `wrote` are history: all messages ever put in the inbox, those the
      child has received, and the texts the parent has sent. */
  datatype Client = Client(
    parent: ParentPc, child: ChildPc, pipe: seq<int>, inbox: seq<Message>,
    membership: Membership, mail: seq<Message>, shown: seq<Message>, wrote: seq<Message>)

  /** `log` is history: the texts the server received, in order. */
  datatype State = State(server: ServerPc, table: seq<int>, queue: seq<Message>, procs: seq<Client>, log: seq<Message>)

  datatype Move =
    | SendInit(p: Pid) | ReadId(p: Pid) | ReadNothing(p: Pid, id: int)
    | SendText(p: Pid, body: string) | Interrupt(p: Pid) | SendStop(p: Pid) | Reap(p: Pid)
    | InterruptChild(p: Pid) | Look(p: Pid) | Receive(p: Pid)
    | Serve

  predicate InitState(s: State) {
    && s.server == Receiving && s.queue == [] && s.log == []
    && |s.table| == SLOTS && (forall i :: 0 <= i < SLOTS ==> s.table[i] == VACANT)
    && forall p :: 0 <= p < |s.procs| ==> s.procs[p] == Client(Starting, Unborn, [], [], Outside, [], [], [])
  }

  /** The search of lines 50-53: the first vacant entry, or the length when there is none. */
  function FirstVacant(table: seq<int>): (i: nat)
    ensures i <= |table| && (i < |table| ==> table[i] == VACANT)
    ensures forall j :: 0 <= j < i ==> table[j] != VACANT
  {
    if table == [] || table[0] == VACANT then 0 else 1 + FirstVacant(table[1..])
  }

  lemma {:induction false} FirstVacantUnique(table: seq<int>, i: nat)
    requires i <= |table| && (i < |table| ==> table[i] == VACANT)
    requires forall j :: 0 <= j < i ==> table[j] != VACANT
    ensures FirstVacant(table) == i
  {
    if i == 0 {
    } else {
      FirstVacantUnique(table[1..], i - 1);
    }
  }

  /** All table and queue accesses of the server's next step are in bounds. */
  predicate InBounds(s: State) {
    && |s.table| == SLOTS
    && match s.server
       case Answering(p, id) => p < |s.procs|
       case Sending(msg, i) =>
         msg.Text? && i <= SLOTS && (i < SLOTS && s.table[i] != VACANT ==> 0 <= s.table[i] < |s.procs|)
       case Goodbye(msg) => msg.Stop? && 0 <= msg.clientId < SLOTS && 0 <= s.table[msg.clientId] < |s.procs|
       case Handling(msg) => msg.Init? ==> msg.queue < |s.procs|
       case _ => true
  }

  /** The client whose queue the server is about to send to, or VACANT. */
  function Target(s: State): (t: int)
    requires InBounds(s)
    ensures t == VACANT || 0 <= t < |s.procs|
  {
    match s.server
    case Answering(p, _) => p
    case Sending(msg, i) => if i < SLOTS && i != msg.clientId then s.table[i] else VACANT
    case Goodbye(msg) => s.table[msg.clientId]
    case _ => VACANT
  }

  predicate Enabled(s: State, m: Move) {
    && InBounds(s)
    && match m
       case Serve =>
         && !s.server.Overrun? && !s.server.Failed?
         && (s.server.Receiving? ==> s.queue != [])
         && (Target(s) != VACANT ==> |s.procs[Target(s)].inbox| < QUEUE_LENGTH)
       case SendInit(p) => p < |s.procs| && s.procs[p].parent.Starting? && |s.queue| < QUEUE_LENGTH
       case ReadId(p) => p < |s.procs| && s.procs[p].parent.AwaitingId? && s.procs[p].pipe != []
       case ReadNothing(p, _) =>
         p < |s.procs| && s.procs[p].parent.AwaitingId? && s.procs[p].pipe == [] && s.procs[p].child.Exited?
       case SendText(p, _) => p < |s.procs| && s.procs[p].parent.Chatting? && |s.queue| < QUEUE_LENGTH
       case Interrupt(p) => p < |s.procs| && s.procs[p].parent.Chatting?
       case SendStop(p) => p < |s.procs| && s.procs[p].parent.Stopping? && |s.queue| < QUEUE_LENGTH
       case Reap(p) => p < |s.procs| && s.procs[p].parent.Waiting? && s.procs[p].child.Exited?
       case InterruptChild(p) => p < |s.procs| && (s.procs[p].child.Forked? || s.procs[p].child.Looping?)
       case Look(p) => p < |s.procs| && s.procs[p].child.Forked?
       case Receive(p) => p < |s.procs| && s.procs[p].child.Looping? && s.procs[p].inbox != []
  }

  /** mq_send to a client's queue. */
  function Post(s: State, p: Pid, msg: Message): State
    requires p < |s.procs|
  {
    var c := s.procs[p];
    s.(procs := s.procs[p := c.(inbox := c.inbox + [msg], mail := c.mail + [msg])])
  }

  function SetMembership(s: State, p: Pid, membership: Membership): State
    requires p < |s.procs|
  {
    s.(procs := s.procs[p := s.procs[p].(membership := membership)])
  }

  function Handle(s: State, msg: Message): State
    requires InBounds(s) && s.server == Handling(msg)
  {
    match msg
    case Init(p) =>
      var id := FirstVacant(s.table);
      if id == SLOTS then s.(server := Overrun(msg))
      else if s.procs[p].parent.Closed? then s.(server := Failed(msg))
      else SetMembership(s, p, Member(id, |s.log|)).(server := Answering(p, id), table := s.table[id := p])
    case Text(_, _, _) => s.(server := Sending(msg, 0), log := s.log + [msg])
    case Stop(id, _) =>
      if !(0 <= id < SLOTS) then s.(server := Overrun(msg))
      else s.(server := if s.table[id] != VACANT then Goodbye(msg) else Receiving)
    case Identifier(_) => s.(server := Receiving)
  }

  function ServerNext(s: State): State
    requires Enabled(s, Serve)
  {
    match s.server
    case Receiving => s.(server := Handling(s.queue[0]), queue := s.queue[1..])
    case Handling(msg) => Handle(s, msg)
    case Answering(p, id) => Post(s, p, Identifier(id)).(server := Receiving)
    case Sending(msg, i) =>
      if i == SLOTS then s.(server := Receiving)
      else (if Target(s) != VACANT then Post(s, Target(s), msg) else s).(server := Sending(msg, i + 1))
    case Goodbye(msg) =>
      var p := s.table[msg.clientId];
      var s' := Post(s, p, msg);
      var was := s.procs[p].membership;
      SetMembership(s', p, if was.Member? then Left(was.slot, was.from, |s.log|) else was)
      .(server := Receiving, table := s.table[msg.clientId := VACANT])
  }

  /** A child receives one message, passes an identifier on, and then looks at its flag. */
  function ChildNext(c: Client): Client
    requires c.child.Looping? && c.inbox != []
  {
    var msg := c.inbox[0];
    c.(inbox := c.inbox[1..], shown := c.shown + [msg],
       pipe := if msg.Identifier? then c.pipe + [msg.clientId] else c.pipe,
       child := if c.child.flag then c.child else Exited)
  }

  function ParentNext(s: State, m: Move): Client
    requires Enabled(s, m) && !m.Serve?
  {
    var c := s.procs[m.p];
    match m
    case SendInit(_) => c.(parent := AwaitingId, child := Forked(true))
    case ReadId(_) => c.(parent := Chatting(c.pipe[0]), pipe := c.pipe[1..])
    case ReadNothing(_, id) => c.(parent := Chatting(id))
    case SendText(_, body) => c.(wrote := c.wrote + [Text(c.parent.id, body, m.p)])
    case Interrupt(_) => c.(parent := Stopping(c.parent.id))
    case SendStop(_) => c.(parent := Waiting(c.parent.id))
    case Reap(_) => c.(parent := Closed(c.parent.id))
    case InterruptChild(_) => c.(child := c.child.(flag := false))
    case Look(_) => c.(child := if c.child.flag then Looping(true) else Exited)
    case Receive(_) => ChildNext(c)
  }

  /** What a move of a client puts in the server's queue. */
  function Sent(s: State, m: Move): seq<Message>
    requires Enabled(s, m) && !m.Serve?
  {
    match m
    case SendInit(p) => [Init(p)]
    case SendText(p, body) => [Text(s.procs[p].parent.id, body, p)]
    case SendStop(p) => [Stop(s.procs[p].parent.id, p)]
    case _ => []
  }

  function Next(s: State, m: Move): State
    requires Enabled(s, m)
  {
    if m.Serve? then ServerNext(s)
    else s.(queue := s.queue + Sent(s, m), procs := s.procs[m.p := ParentNext(s, m)])
  }

  predicate StepBy(s: State, m: Move, s': State) {
    Enabled(s, m) && s' == Next(s, m)
  }

  ghost predicate IsRun(tr: seq<State>, ms: seq<Move>) {
    && |tr| == |ms| + 1
    && forall k :: 0 <= k < |ms| ==> StepBy(tr[k], ms[k], tr[k + 1])
  }

  lemma LastStep(tr: seq<State>, ms: seq<Move>)
    requires IsRun(tr, ms) && ms != []
    ensures var k := |ms| - 1;
            IsRun(tr[..|tr| - 1], ms[..k]) && Enabled(tr[k], ms[k]) && tr[|tr| - 1] == Next(tr[k], ms[k])
  {
    var k := |ms| - 1;
    assert StepBy(tr[k], ms[k], tr[k + 1]);
  }

  ghost predicate Reaches(s: State, t: State) {
    exists tr: seq<State>, ms: seq<Move> :: RunFromTo(tr, ms, s, t)
  }

  ghost predicate RunFromTo(tr: seq<State>, ms: seq<Move>, s: State, t: State) {
    IsRun(tr, ms) && tr[0] == s && tr[|tr| - 1] == t
  }

  lemma ReachSelf(s: State)
    ensures Reaches(s, s)
  {
    assert RunFromTo([s], [], s, s);
  }

  lemma ReachNext(s: State, t: State, m: Move)
    requires Reaches(s, t) && Enabled(t, m)
    ensures Reaches(s, Next(t, m))
  {
    var tr: seq<State>, ms: seq<Move> :| RunFromTo(tr, ms, s, t);
    ExtendRun(tr, ms, m);
    assert RunFromTo(tr + [Next(t, m)], ms + [m], s, Next(t, m));
  }

  lemma ExtendRun(tr: seq<State>, ms: seq<Move>, m: Move)
    requires IsRun(tr, ms) && Enabled(tr[|tr| - 1], m)
    ensures IsRun(tr + [Next(tr[|tr| - 1], m)], ms + [m])
  {
    var tr', ms' := tr + [Next(tr[|tr| - 1], m)], ms + [m];
    forall k | 0 <= k < |ms'| ensures StepBy(tr'[k], ms'[k], tr'[k + 1]) {
      if k < |ms| {
        assert StepBy(tr[k], ms[k], tr[k + 1]);
      }
    }
  }
}
