/** Runs of the chat built move by move: clients joining, and where that can lead. */
module ChatRuns {
  import opened Chat
  import opened ChatInvariant
  import opened ChatIdentity

  /** The state t follows s in a run in which every parent that reads gets an id. */
  ghost predicate Path(s: State, t: State) {
    exists tr: seq<State>, ms: seq<Move> :: RunFromTo(tr, ms, s, t) && NobodyReadNothing(ms)
  }

  lemma PathSelf(s: State)
    ensures Path(s, s)
  {
    assert RunFromTo([s], [], s, s) && NobodyReadNothing([]);
  }

  lemma PathNext(s: State, t: State, m: Move)
    requires Path(s, t) && Enabled(t, m) && !m.ReadNothing?
    ensures Path(s, Next(t, m))
  {
    var tr: seq<State>, ms: seq<Move> :| RunFromTo(tr, ms, s, t) && NobodyReadNothing(ms);
    ExtendRun(tr, ms, m);
    assert RunFromTo(tr + [Next(t, m)], ms + [m], s, Next(t, m)) && NobodyReadNothing(ms + [m]);
  }

  lemma PathReaches(s: State, t: State)
    requires Path(s, t)
    ensures Reaches(s, t)
  {
    var tr: seq<State>, ms: seq<Move> :| RunFromTo(tr, ms, s, t) && NobodyReadNothing(ms);
  }

  function NotStarted(): Client { Client(Starting, Unborn, [], [], Outside, [], [], []) }

  /** Where the server is after client p joined in slot id, with its child not yet running. */
  predicate Joined(t: State, t': State, p: Pid, id: nat) {
    && p < |t.procs| == |t'.procs| && id < |t.table|
    && t'.server == Receiving && t'.queue == [] && t'.log == t.log && t'.table == t.table[id := p]
    && (forall q :: 0 <= q < |t.procs| && q != p ==> t'.procs[q] == t.procs[q])
    && t'.procs[p].parent == AwaitingId && t'.procs[p].child == Forked(true)
    && t'.procs[p].pipe == [] && t'.procs[p].inbox == [Identifier(id)]
  }

  /** A client joins an idle server and its identifier arrives in its inbox. */
  lemma Join(s: State, t: State, p: Pid, id: nat) returns (t': State)
    requires Path(s, t) && t.server == Receiving && t.queue == []
    requires |t.table| == SLOTS && id < SLOTS && t.table[id] == VACANT
    requires forall j :: 0 <= j < id ==> t.table[j] != VACANT
    requires p < |t.procs| && t.procs[p] == NotStarted()
    ensures Path(s, t') && Joined(t, t', p, id)
  {
    var asked := AskToJoin(s, t, p);
    t' := Register(s, asked, p, id);
  }

  /** A client sends its INIT to an idle server, which takes it up. */
  lemma AskToJoin(s: State, t: State, p: Pid) returns (t': State)
    requires Path(s, t) && t.server == Receiving && t.queue == [] && |t.table| == SLOTS
    requires p < |t.procs| && t.procs[p] == NotStarted()
    ensures Path(s, t') && InBounds(t')
    ensures t' == t.(server := Handling(Init(p)),
                     procs := t.procs[p := NotStarted().(parent := AwaitingId, child := Forked(true))])
  {
    var t1 := Next(t, SendInit(p));
    PathNext(s, t, SendInit(p));
    assert t1.queue == [Init(p)];
    t' := Next(t1, Serve);
    PathNext(s, t1, Serve);
    assert t'.queue == [];
  }

  lemma Register(s: State, t: State, p: Pid, id: nat) returns (t': State)
    requires Path(s, t) && t.server == Handling(Init(p)) && InBounds(t) && !t.procs[p].parent.Closed?
    requires id < SLOTS && t.table[id] == VACANT && forall j :: 0 <= j < id ==> t.table[j] != VACANT
    requires t.procs[p].inbox == []
    ensures Path(s, t')
    ensures t'.server == Receiving && t'.queue == t.queue && t'.log == t.log && t'.table == t.table[id := p]
    ensures |t'.procs| == |t.procs| && forall q :: 0 <= q < |t.procs| && q != p ==> t'.procs[q] == t.procs[q]
    ensures t'.procs[p].parent == t.procs[p].parent && t'.procs[p].child == t.procs[p].child
    ensures t'.procs[p].pipe == t.procs[p].pipe && t'.procs[p].inbox == [Identifier(id)]
  {
    assert FirstVacant(t.table) == id;
    var t1 := Next(t, Serve);
    PathNext(s, t, Serve);
    t' := Next(t1, Serve);
    PathNext(s, t1, Serve);
  }

  /** The child of a client that has just joined passes the identifier on. */
  lemma Greet(s: State, t: State, p: Pid, id: nat) returns (t': State)
    requires Path(s, t) && p < |t.procs| && InBounds(t)
    requires t.procs[p].parent == AwaitingId && t.procs[p].child == Forked(true)
    requires t.procs[p].pipe == [] && t.procs[p].inbox == [Identifier(id)]
    ensures Path(s, t') && t' == t.(procs := t'.procs)
    ensures |t'.procs| == |t.procs| && forall q :: 0 <= q < |t.procs| && q != p ==> t'.procs[q] == t.procs[q]
    ensures t'.procs[p].parent == Chatting(id) && t'.procs[p].child == Looping(true) && t'.procs[p].inbox == []
  {
    var t1 := Next(t, Look(p));
    PathNext(s, t, Look(p));
    var t2 := Next(t1, Receive(p));
    PathNext(s, t1, Receive(p));
    t' := Next(t2, ReadId(p));
    PathNext(s, t2, ReadId(p));
  }

  // ----- Running off the table -----

  /** The first k clients have joined, in order. */
  predicate Filled(t: State, k: nat) {
    && k <= SLOTS == |t.table| && t.server == Receiving && t.queue == []
    && (forall j :: 0 <= j < SLOTS ==> t.table[j] == if j < k then j else VACANT)
    && forall p :: k <= p < |t.procs| ==> t.procs[p] == NotStarted()
  }

  lemma FillTable(s: State) returns (t: State)
    requires InitState(s) && |s.procs| > SLOTS
    ensures Path(s, t) && Filled(t, SLOTS) && |t.procs| == |s.procs|
  {
    PathSelf(s);
    t := s;
    for k := 0 to SLOTS
      invariant Path(s, t) && Filled(t, k) && |t.procs| == |s.procs|
    {
      t := Join(s, t, k, k);
    }
  }

  /** With eleven clients a run ends with the search off the table. */
  lemma ElevenOverrun(s: State) returns (t: State)
    requires InitState(s) && |s.procs| > SLOTS
    ensures Path(s, t) && t.server.Overrun?
  {
    var full := FillTable(s);
    t := AskFull(s, full, SLOTS);
  }

  lemma AskFull(s: State, t: State, p: Pid) returns (t': State)
    requires Path(s, t) && Filled(t, SLOTS) && SLOTS <= p < |t.procs|
    ensures Path(s, t') && t'.server.Overrun?
  {
    assert t.procs[p] == NotStarted();
    var asked := AskToJoin(s, t, p);
    t' := OffTable(s, asked, p);
  }

  lemma OffTable(s: State, t: State, p: Pid) returns (t': State)
    requires Path(s, t) && t.server == Handling(Init(p)) && InBounds(t)
    requires forall j :: 0 <= j < SLOTS ==> t.table[j] != VACANT
    ensures Path(s, t') && t'.server.Overrun?
  {
    assert FirstVacant(t.table) == SLOTS;
    t' := Next(t, Serve);
    PathNext(s, t, Serve);
  }

  lemma ServeKeepsCount(s: State)
    requires Enabled(s, Serve)
    ensures |ServerNext(s).procs| == |s.procs|
  {
  }

  lemma StepOverruns(s: State, m: Move)
    requires Inv(s) && Enabled(s, m) && !m.ReadNothing?
    ensures |Next(s, m).procs| == |s.procs|
    ensures Next(s, m).server.Overrun? && !s.server.Overrun? ==> |s.procs| > SLOTS
  {
    if m.Serve? {
      ServeKeepsCount(s);
    }
    if Next(s, m).server.Overrun? && !s.server.Overrun? {
      OverrunNeedsEleven(s, m);
    }
  }

  lemma {:induction false} RunOverruns(tr: seq<State>, ms: seq<Move>)
    requires IsRun(tr, ms) && Inv(tr[0]) && NobodyReadNothing(ms)
    ensures |tr[|tr| - 1].procs| == |tr[0].procs|
    ensures tr[|tr| - 1].server.Overrun? && !tr[0].server.Overrun? ==> |tr[0].procs| > SLOTS
  {
    if ms == [] {
    } else {
      var k := |ms| - 1;
      LastStep(tr, ms);
      RunOverruns(tr[..|tr| - 1], ms[..k]);
      RunInv(tr[..|tr| - 1], ms[..k]);
      StepOverruns(tr[k], ms[k]);
    }
  }

  lemma TenNeverOverrun(tr: seq<State>, ms: seq<Move>)
    requires IsRun(tr, ms) && InitState(tr[0]) && |tr[0].procs| <= SLOTS && NobodyReadNothing(ms)
    ensures !tr[|tr| - 1].server.Overrun? && |tr[|tr| - 1].procs| == |tr[0].procs|
  {
    Initially(tr[0]);
    RunOverruns(tr, ms);
  }

  /** While parents get ids, the server can run off its table if and only if there are more
      clients than entries. */
  lemma CanOverrunIff(s: State)
    requires InitState(s)
    ensures (exists t :: Path(s, t) && t.server.Overrun?) <==> |s.procs| > SLOTS
  {
    if |s.procs| > SLOTS {
      var t := ElevenOverrun(s);
    } else {
      forall t | Path(s, t) ensures !t.server.Overrun? {
        var tr: seq<State>, ms: seq<Move> :| RunFromTo(tr, ms, s, t) && NobodyReadNothing(ms);
        TenNeverOverrun(tr, ms);
      }
    }
  }

  // ----- What a parent that read nothing can do -----

  /** Client p asks to join, its child is interrupted early and exits, and the server answers. */
  lemma JoinEarly(s: State, t: State, p: Pid, id: nat) returns (t': State)
    requires Path(s, t) && t.server == Receiving && t.queue == []
    requires |t.table| == SLOTS && id < SLOTS && t.table[id] == VACANT
    requires forall j :: 0 <= j < id ==> t.table[j] != VACANT
    requires p < |t.procs| && t.procs[p] == NotStarted()
    ensures Path(s, t') && p < |t.procs| == |t'.procs|
    ensures t'.server == Receiving && t'.queue == [] && t'.table == t.table[id := p]
    ensures forall q :: 0 <= q < |t.procs| && q != p ==> t'.procs[q] == t.procs[q]
    ensures t'.procs[p].parent == AwaitingId && t'.procs[p].child == Exited && t'.procs[p].pipe == []
    ensures |t'.procs[p].inbox| == 1
  {
    var t1 := Join(s, t, p, id);
    var t2 := Next(t1, InterruptChild(p));
    PathNext(s, t1, InterruptChild(p));
    t' := Next(t2, Look(p));
    PathNext(s, t2, Look(p));
  }

  /** A parent that read nothing is interrupted and sends its stop, and the server takes it. */
  lemma StopAnything(s: State, t: State, p: Pid, id: int) returns (t': State)
    requires Reaches(s, t) && InBounds(t) && t.server == Receiving && t.queue == []
    requires p < |t.procs| && t.procs[p].parent == AwaitingId && t.procs[p].child == Exited && t.procs[p].pipe == []
    ensures Reaches(s, t') && t'.server == Handling(Stop(id, p)) && t'.queue == [] && t'.table == t.table
    ensures |t'.procs| == |t.procs| && forall q :: 0 <= q < |t.procs| && q != p ==> t'.procs[q] == t.procs[q]
    ensures t'.procs[p].inbox == t.procs[p].inbox
  {
    var t1 := Next(t, ReadNothing(p, id));
    ReachNext(s, t, ReadNothing(p, id));
    var t2 := Next(t1, Interrupt(p));
    ReachNext(s, t1, Interrupt(p));
    var t3 := Next(t2, SendStop(p));
    ReachNext(s, t2, SendStop(p));
    assert t3.queue == [Stop(id, p)];
    t' := Next(t3, Serve);
    ReachNext(s, t3, Serve);
  }

  /** One client is enough to make the server look outside its table, at any place. */
  lemma WildStop(s: State, id: int) returns (t: State)
    requires InitState(s) && s.procs != [] && !(0 <= id < SLOTS)
    ensures Reaches(s, t) && t.server == Overrun(Stop(id, 0))
  {
    PathSelf(s);
    var t1 := JoinEarly(s, s, 0, 0);
    PathReaches(s, t1);
    var t2 := StopAnything(s, t1, 0, id);
    t := Next(t2, Serve);
    ReachNext(s, t2, Serve);
  }

  /** And two clients are enough for one to lose its slot to the other's stop: client 0 is chatting
      under its own id, its child was never interrupted, and the table has forgotten it. */
  lemma StolenSlot(s: State) returns (t: State)
    requires InitState(s) && |s.procs| >= 2
    ensures Reaches(s, t) && |t.procs| == |s.procs|
    ensures t.procs[0].parent == Chatting(0) && t.procs[0].child == Looping(true) && !t.procs[0].membership.Member?
    ensures |t.table| == SLOTS && 0 !in t.table
  {
    PathSelf(s);
    var t1 := Join(s, s, 0, 0);
    var t2 := Greet(s, t1, 0, 0);
    var t3 := JoinEarly(s, t2, 1, 1);
    PathReaches(s, t3);
    var t4 := StopAnything(s, t3, 1, 0);
    var t5 := Next(t4, Serve);
    ReachNext(s, t4, Serve);
    t := Next(t5, Serve);
    ReachNext(s, t5, Serve);
  }

  /** A server gives up exactly over the INIT of a client that has already closed, with room for it. */
  lemma FailsIff(s: State, m: Move)
    requires Sound(s) && Enabled(s, m) && !s.server.Failed?
    ensures Next(s, m).server.Failed? <==>
            && m == Serve && s.server.Handling? && s.server.msg.Init?
            && VACANT in s.table && s.procs[s.server.msg.queue].parent.Closed?
  {
    SoundInBounds(s);
    if m == Serve && s.server.Handling? && s.server.msg.Init? {
      var id := FirstVacant(s.table);
      assert id < SLOTS <==> VACANT in s.table;
    }
  }

  /** It can happen: one client that reads nothing is faster than the server. */
  lemma GoneClient(s: State) returns (t: State)
    requires InitState(s) && s.procs != []
    ensures Reaches(s, t) && t.server == Failed(Init(0))
  {
    ReachSelf(s);
    var t1 := Next(s, SendInit(0));
    ReachNext(s, s, SendInit(0));
    var t2 := Next(t1, InterruptChild(0));
    ReachNext(s, t1, InterruptChild(0));
    var t3 := Next(t2, Look(0));
    ReachNext(s, t2, Look(0));
    assert t3.procs[0].child == Exited && t3.procs[0].parent == AwaitingId && t3.queue == [Init(0)];
    t := GoneBeforeServed(s, t3);
  }

  lemma GoneBeforeServed(s: State, t: State) returns (u: State)
    requires Reaches(s, t) && |t.table| == SLOTS && t.server == Receiving && t.queue == [Init(0)]
    requires t.table[0] == VACANT && t.procs != []
    requires t.procs[0].parent == AwaitingId && t.procs[0].pipe == [] && t.procs[0].child == Exited
    ensures Reaches(s, u) && u.server == Failed(Init(0))
  {
    var t1 := Next(t, ReadNothing(0, 0));
    ReachNext(s, t, ReadNothing(0, 0));
    var t2 := Next(t1, Interrupt(0));
    ReachNext(s, t1, Interrupt(0));
    var t3 := Next(t2, SendStop(0));
    ReachNext(s, t2, SendStop(0));
    var t4 := Next(t3, Reap(0));
    ReachNext(s, t3, Reap(0));
    u := InitTooLate(s, t4);
  }

  lemma InitTooLate(s: State, t: State) returns (u: State)
    requires Reaches(s, t) && |t.table| == SLOTS && t.server == Receiving
    requires t.queue != [] && t.queue[0] == Init(0) && t.table[0] == VACANT
    requires t.procs != [] && t.procs[0].parent.Closed?
    ensures Reaches(s, u) && u.server == Failed(Init(0))
  {
    var t1 := Next(t, Serve);
    ReachNext(s, t, Serve);
    assert FirstVacant(t1.table) == 0;
    u := Next(t1, Serve);
    ReachNext(s, t1, Serve);
  }
}
