/** The server's client table as an array, the queues, and the lines of server.c and client.c
    as updates in place, each proved to make exactly the step of the protocol in Chat. */
module ChatMemory {
  import opened Chat
  import opened ChatInvariant
  import opened ChatIdentity
  import opened ChatOrder
  import opened ChatRuns
  import opened ChatBroadcast

  class ChatSystem {
    const clients: array<int>
    var server: ServerPc
    var queue: seq<Message>
    var procs: seq<Client>
    // History, not part of the source: the texts the server received.
    var log: seq<Message>

    function View(): State
      reads this, clients
    {
      State(server, clients[..], queue, procs, log)
    }

    /** The start of server.c lines 37-41, with any number of clients still to start. */
    constructor (population: nat)
      ensures InitState(View()) && |procs| == population && fresh(clients)
    {
      var table := new int[SLOTS];
      clients := table;
      server, queue, log := Receiving, [], [];
      procs := seq(population, _ => Client(Starting, Unborn, [], [], Outside, [], [], []));
      new;
      for i := 0 to clients.Length
        invariant clients.Length == SLOTS && fresh(clients)
        invariant server == Receiving && queue == [] && log == []
        invariant procs == seq(population, _ => Client(Starting, Unborn, [], [], Outside, [], [], []))
        invariant forall j :: 0 <= j < i ==> clients[j] == VACANT
      {
        clients[i] := VACANT;
      }
    }

    /** Lines 50-53, stopped at the end of the table. */
    method FindVacant() returns (id: nat)
      ensures id == FirstVacant(clients[..])
    {
      id := 0;
      while id < clients.Length && clients[id] != VACANT
        invariant id <= clients.Length
        invariant forall j :: 0 <= j < id ==> clients[j] != VACANT
      {
        id := id + 1;
      }
      FirstVacantUnique(clients[..], id);
    }

    /** mq_send to a client's queue. */
    method PostTo(p: Pid, msg: Message)
      requires p < |procs|
      modifies this`procs
      ensures View() == old(Post(View(), p, msg))
    {
      var c := procs[p];
      procs := procs[p := c.(inbox := c.inbox + [msg], mail := c.mail + [msg])];
    }

    /** The switch at line 47. */
    method HandleMessage(msg: Message)
      requires InBounds(View()) && server == Handling(msg)
      modifies this, clients
      ensures View() == old(Handle(View(), msg))
    {
      match msg
      case Init(p) =>
        var id := FindVacant();
        if id == clients.Length {
          server := Overrun(msg);
        } else if procs[p].parent.Closed? {
          server := Failed(msg);
        } else {
          clients[id] := p;
          procs := procs[p := procs[p].(membership := Member(id, |log|))];
          server := Answering(p, id);
        }
      case Text(_, _, _) =>
        server := Sending(msg, 0);
        log := log + [msg];
      case Stop(id, _) =>
        if !(0 <= id < clients.Length) {
          server := Overrun(msg);
        } else {
          server := if clients[id] != VACANT then Goodbye(msg) else Receiving;
        }
      case Identifier(_) =>
        server := Receiving;
    }

    /** Lines 87-94. */
    method SayGoodbye(msg: Message)
      requires Enabled(View(), Serve) && server == Goodbye(msg)
      modifies this, clients
      ensures View() == old(ServerNext(View()))
    {
      var p: Pid := clients[msg.clientId];
      var was := procs[p].membership;
      PostTo(p, msg);
      procs := procs[p := procs[p].(membership := if was.Member? then Left(was.slot, was.from, |log|) else was)];
      clients[msg.clientId] := VACANT;
      server := Receiving;
    }

    /** The server's next step. */
    method ServerLine()
      requires Enabled(View(), Serve)
      modifies this, clients
      ensures View() == old(ServerNext(View()))
    {
      match server
      case Receiving =>
        server := Handling(queue[0]);
        queue := queue[1..];
      case Handling(msg) =>
        HandleMessage(msg);
      case Answering(p, id) =>
        PostTo(p, Identifier(id));
        server := Receiving;
      case Sending(msg, i) =>
        if i == clients.Length {
          server := Receiving;
        } else {
          if clients[i] != VACANT && i != msg.clientId {
            PostTo(clients[i], msg);
          }
          server := Sending(msg, i + 1);
        }
      case Goodbye(msg) =>
        SayGoodbye(msg);
    }

    /** A child's first look at its flag, line 100. */
    method FirstLook(p: Pid)
      requires Enabled(View(), Look(p))
      modifies this`procs
      ensures View() == old(Next(View(), Look(p)))
    {
      var c := procs[p];
      if c.child.flag {
        c := c.(child := Looping(true));
      } else {
        c := c.(child := Exited);
      }
      procs := procs[p := c];
    }

    /** A child's mq_receive and what it does with the message, lines 104-122. */
    method ChildLine(p: Pid)
      requires Enabled(View(), Receive(p))
      modifies this`procs
      ensures View() == old(Next(View(), Receive(p)))
    {
      var c := procs[p];
      var msg := c.inbox[0];
      c := c.(inbox := c.inbox[1..], shown := c.shown + [msg]);
      if msg.Identifier? {
        c := c.(pipe := c.pipe + [msg.clientId]);
      }
      if !c.child.flag {
        c := c.(child := Exited);
      }
      procs := procs[p := c];
    }

    /** A parent's next line, or the delivery of an interrupt to parent or child. */
    method ParentLine(m: Move)
      requires Enabled(View(), m) && !m.Serve? && !m.Look? && !m.Receive?
      modifies this`procs, this`queue
      ensures View() == old(Next(View(), m))
    {
      var c := procs[m.p];
      match m
      case SendInit(p) =>
        queue := queue + [Init(p)];
        procs := procs[p := c.(parent := AwaitingId, child := Forked(true))];
      case ReadId(p) =>
        procs := procs[p := c.(parent := Chatting(c.pipe[0]), pipe := c.pipe[1..])];
      case ReadNothing(p, id) =>
        // read returned 0: the variable keeps whatever it held
        procs := procs[p := c.(parent := Chatting(id))];
      case SendText(p, body) =>
        queue := queue + [Text(c.parent.id, body, p)];
        procs := procs[p := c.(wrote := c.wrote + [Text(c.parent.id, body, p)])];
      case Interrupt(p) =>
        procs := procs[p := c.(parent := Stopping(c.parent.id))];
      case SendStop(p) =>
        queue := queue + [Stop(c.parent.id, p)];
        procs := procs[p := c.(parent := Waiting(c.parent.id))];
      case Reap(p) =>
        procs := procs[p := c.(parent := Closed(c.parent.id))];
      case InterruptChild(p) =>
        procs := procs[p := c.(child := c.child.(flag := false))];
    }

    /** One move, passed over when it is not possible at its turn. */
    method Play(m: Move)
      modifies this, clients
      ensures View() == old(Played(View(), m))
    {
      if Enabled(View(), m) {
        match m
        case Serve => ServerLine();
        case Look(p) => FirstLook(p);
        case Receive(p) => ChildLine(p);
        case _ => ParentLine(m);
      }
    }

    /** The program from its start, under any schedule of its processes and any input.  All but the
        last clause hold in any case, the last as long as no parent reads nothing. */
    method Run(moves: seq<Move>)
      requires InitState(View())
      modifies this, clients
      ensures View() == old(PlayedAll(View(), moves)) && |procs| == old(|procs|)
      ensures clients.Length == SLOTS
      ensures forall i :: 0 <= i < SLOTS ==> clients[i] == VACANT || 0 <= clients[i] < |procs|
      ensures forall p :: 0 <= p < |procs| ==>
                && Carry(procs[p].wrote, Typed(Possible(old(View()), moves), p), p)
                && procs[p].wrote == From(p, log) + Texts(From(p, Unlogged(View())))
                && SentById(View(), p)
                && (HoldsId(procs[p].parent) && !Early(procs[p]) ==> HoldsOwnId(procs[p]))
      ensures NobodyReadNothing(moves) ==>
                && (forall p :: 0 <= p < |procs| ==> SentOthers(View(), p))
                && (server.Overrun? ==> |procs| > SLOTS)
    {
      ghost var before := View();
      for k := 0 to |moves|
        invariant View() == PlayedAll(before, moves[..k])
      {
        assert moves[..k + 1][..k] == moves[..k];
        Play(moves[k]);
      }
      assert moves == moves[..|moves|];
      PlayedResults(before, moves);
    }
  }

  function Played(s: State, m: Move): State {
    if Enabled(s, m) then Next(s, m) else s
  }

  function PlayedAll(s: State, moves: seq<Move>): State {
    if moves == [] then s else Played(PlayedAll(s, moves[..|moves| - 1]), moves[|moves| - 1])
  }

  /** The moves that were possible at their turn. */
  function Possible(s: State, moves: seq<Move>): seq<Move> {
    if moves == [] then []
    else
      var k := |moves| - 1;
      Possible(s, moves[..k]) + (if Enabled(PlayedAll(s, moves[..k]), moves[k]) then [moves[k]] else [])
  }

  /** They make a run. */
  lemma {:induction false} PlayedIsRun(s: State, moves: seq<Move>) returns (tr: seq<State>, ms: seq<Move>)
    ensures RunFromTo(tr, ms, s, PlayedAll(s, moves)) && ms == Possible(s, moves)
    ensures forall k :: 0 <= k < |ms| ==> ms[k] in moves
  {
    if moves == [] {
      tr, ms := [s], [];
    } else {
      var k := |moves| - 1;
      var m := moves[k];
      tr, ms := PlayedIsRun(s, moves[..k]);
      var now := PlayedAll(s, moves[..k]);
      if Enabled(now, m) {
        ExtendRun(tr, ms, m);
        tr, ms := tr + [Next(now, m)], ms + [m];
      }
    }
  }

  lemma PlayedResults(s: State, moves: seq<Move>)
    requires InitState(s)
    ensures var t := PlayedAll(s, moves);
            && |t.procs| == |s.procs| && TableSound(t)
            && (forall p :: 0 <= p < |t.procs| ==>
                  && Carry(t.procs[p].wrote, Typed(Possible(s, moves), p), p)
                  && t.procs[p].wrote == From(p, t.log) + Texts(From(p, Unlogged(t)))
                  && SentById(t, p)
                  && (HoldsId(t.procs[p].parent) && !Early(t.procs[p]) ==> HoldsOwnId(t.procs[p])))
            && (NobodyReadNothing(moves) ==>
                  && (forall p :: 0 <= p < |t.procs| ==> SentOthers(t, p))
                  && (t.server.Overrun? ==> |t.procs| > SLOTS))
  {
    var t := PlayedAll(s, moves);
    var tr, ms := PlayedIsRun(s, moves);
    InitSteady(s);
    RunSteady(tr, ms);
    forall p | 0 <= p < |t.procs|
      ensures Carry(t.procs[p].wrote, Typed(Possible(s, moves), p), p)
      ensures t.procs[p].wrote == From(p, t.log) + Texts(From(p, Unlogged(t))) && SentById(t, p)
      ensures HoldsId(t.procs[p].parent) && !Early(t.procs[p]) ==> HoldsOwnId(t.procs[p])
      ensures NobodyReadNothing(moves) ==> SentOthers(t, p)
    {
      RunBroadcasts(tr, ms, p);
      OwnIds(tr, ms, p);
    }
    if NobodyReadNothing(moves) && |t.procs| <= SLOTS {
      TenNeverOverrun(tr, ms);
    }
  }
}
