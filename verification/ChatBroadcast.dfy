/** The server as a total-order broadcast, in every run: its log orders all texts, clients are sent
    their stretch of it, and what they write reaches it. */
module ChatBroadcast {
  import opened Chat
  import opened ChatInvariant
  import opened ChatIdentity
  import opened ChatOrder

  // ----- Total-order broadcast -----

  /** The stretch of the log that falls in a client's registration. */
  function Start(membership: Membership): nat {
    if membership.Outside? then 0 else membership.from
  }

  function End(s: State, membership: Membership): nat {
    match membership
    case Outside => 0
    case Member(slot, _) => Reached(s, slot)
    case Left(_, _, to) => to
  }

  ghost predicate SawUpTo(s: State, membership: Membership) {
    Start(membership) <= End(s, membership) <= |s.log|
  }

  function Texts(mail: seq<Message>): seq<Message> {
    if mail == [] then [] else (if mail[0].Text? then [mail[0]] else []) + Texts(mail[1..])
  }

  lemma {:induction false} TextsOnly(mail: seq<Message>)
    requires forall k :: 0 <= k < |mail| ==> mail[k].Text?
    ensures Texts(mail) == mail
  {
    if mail == [] {
    } else {
      TextsOnly(mail[1..]);
    }
  }

  lemma {:induction false} TextsConcat(a: seq<Message>, b: seq<Message>)
    ensures Texts(a + b) == Texts(a) + Texts(b)
  {
    if a == [] {
      assert a + b == b;
    } else {
      var head := if a[0].Text? then [a[0]] else [];
      TextsConcat(a[1..], b);
      assert (a + b)[1..] == a[1..] + b;
      assert Texts(a + b) == head + (Texts(a[1..]) + Texts(b)) == (head + Texts(a[1..])) + Texts(b);
    }
  }

  /** The texts a client is sent: those of its stretch of the log that carry other ids. */
  ghost predicate SentById(s: State, p: Pid) {
    && p < |s.procs|
    && var m := s.procs[p].membership;
    && SawUpTo(s, m)
    && Texts(s.procs[p].mail) == OtherIds(s.log[Start(m)..End(s, m)], SlotOf(m))
  }

  /** Between the identifier and the goodbye there is nothing but texts. */
  lemma DueTexts(id: int, stretch: seq<Message>, goodbye: seq<Message>)
    requires forall k :: 0 <= k < |stretch| ==> stretch[k].Text?
    requires |goodbye| <= 1 && (goodbye != [] ==> !goodbye[0].Text?)
    ensures Texts([Identifier(id)] + OtherIds(stretch, id) + goodbye) == OtherIds(stretch, id)
  {
    OtherIdsTexts(stretch, id);
    TextsOnly(OtherIds(stretch, id));
    TextsBetween([Identifier(id)], OtherIds(stretch, id), goodbye);
  }

  lemma MemberTexts(s: State, p: Pid)
    requires LogOk(s) && Delivering(s, p) && s.procs[p].membership.Member?
    requires AnsweringTo(s.server, p) ==> s.procs[p].membership.from == |s.log|
    ensures SentById(s, p)
  {
    var m := s.procs[p].membership;
    var stretch := s.log[m.from..Reached(s, m.slot)];
    if AnsweringTo(s.server, p) {
      assert stretch == [];
    } else {
      DueTexts(m.slot, stretch, []);
      assert s.procs[p].mail == [Identifier(m.slot)] + OtherIds(stretch, m.slot) + [];
    }
  }

  lemma LeftTexts(s: State, p: Pid)
    requires LogOk(s) && Delivering(s, p) && s.procs[p].membership.Left?
    ensures SentById(s, p)
  {
    var m, mail := s.procs[p].membership, s.procs[p].mail;
    var n := |mail| - 1;
    DueTexts(m.slot, s.log[m.from..m.to], [mail[n]]);
    assert mail == mail[..n] + [mail[n]];
  }

  /** What a client has been sent, whatever ids the others use: the texts with other ids in its
      stretch of the log, each once, in the order the server processed them.  Its child has shown
      a prefix of it. */
  lemma BroadcastInLogOrder(s: State, p: Pid)
    requires Ordered(s) && p < |s.procs|
    ensures s.procs[p].shown + s.procs[p].inbox == s.procs[p].mail
    ensures SentById(s, p)
  {
    assert Delivering(s, p) && Addressed(s, p);
    match s.procs[p].membership
    case Outside =>
    case Member(_, _) => MemberTexts(s, p);
    case Left(_, _, _) => LeftTexts(s, p);
  }

  /** A client has been sent the texts of the other clients in its stretch of the log. */
  ghost predicate SentOthers(s: State, p: Pid) {
    && p < |s.procs|
    && var m := s.procs[p].membership;
    && SawUpTo(s, m)
    && Texts(s.procs[p].mail) == Others(s.log[Start(m)..End(s, m)], p)
  }

  /** As long as ids name their owners, the texts with other ids are those of the other clients. */
  lemma BroadcastToOthers(s: State, p: Pid)
    requires Inv(s) && p < |s.procs|
    ensures s.procs[p].shown + s.procs[p].inbox == s.procs[p].mail
    ensures SentOthers(s, p)
  {
    var c := s.procs[p];
    assert ClientOk(s, p);
    var texts := Others(s.log[Start(c.membership)..End(s, c.membership)], p);
    OthersTexts(s.log[Start(c.membership)..End(s, c.membership)], p);
    TextsOnly(texts);
    match c.membership
    case Outside =>
    case Member(slot, from) =>
      if s.server == Answering(p, slot) {
        assert s.log[|s.log|..|s.log|] == [];
      } else {
        TextsBetween([Identifier(slot)], texts, []);
        assert [Identifier(slot)] + texts + [] == c.mail;
      }
    case Left(slot, from, to) => TextsBetween([Identifier(slot)], texts, [Stop(slot, p)]);
  }

  lemma TextsBetween(a: seq<Message>, texts: seq<Message>, b: seq<Message>)
    requires |a| <= 1 && (a != [] ==> !a[0].Text?) && |b| <= 1 && (b != [] ==> !b[0].Text?)
    requires Texts(texts) == texts
    ensures Texts(a + texts + b) == texts
  {
    TextsConcat(a + texts, b);
    TextsConcat(a, texts);
    assert Texts(a) == [] && Texts(b) == [];
  }

  lemma {:induction false} OthersCommute(log: seq<Message>, p: Pid, q: Pid)
    ensures Others(Others(log, p), q) == Others(Others(log, q), p)
  {
    if log == [] {
    } else {
      OthersCommute(log[1..], p, q);
      assert log == [log[0]] + log[1..];
      OthersCons(log[0], log[1..], p);
      OthersCons(log[0], log[1..], q);
      OthersCons(log[0], Others(log[1..], p), q);
      OthersCons(log[0], Others(log[1..], q), p);
    }
  }

  lemma OthersCons(m: Message, rest: seq<Message>, p: Pid)
    ensures SentBy(m, p) ==> Others([m] + rest, p) == Others(rest, p)
    ensures !SentBy(m, p) ==> Others([m] + rest, p) == [m] + Others(rest, p)
  {
    assert ([m] + rest)[1..] == rest;
  }

  function Max(a: nat, b: nat): nat { if a < b then b else a }

  function Min(a: nat, b: nat): nat { if a < b then a else b }

  /** Total order, in every run: any two clients get the texts of the stretch of the log they both
      saw as one consecutive part of their mail, and agree on the order of the texts that reached
      both. */
  lemma ClientsAgree(s: State, p: Pid, q: Pid)
    returns (common: seq<Message>, beforeP: seq<Message>, afterP: seq<Message>,
             beforeQ: seq<Message>, afterQ: seq<Message>)
    requires Ordered(s) && p < |s.procs| && q < |s.procs|
    requires Start(s.procs[p].membership) < End(s, s.procs[q].membership)
    requires Start(s.procs[q].membership) < End(s, s.procs[p].membership)
    ensures SawUpTo(s, s.procs[p].membership) && SawUpTo(s, s.procs[q].membership)
    ensures common == s.log[Max(Start(s.procs[p].membership), Start(s.procs[q].membership))
                            ..Min(End(s, s.procs[p].membership), End(s, s.procs[q].membership))]
    ensures var i, j := SlotOf(s.procs[p].membership), SlotOf(s.procs[q].membership);
            && Texts(s.procs[p].mail) == beforeP + OtherIds(common, i) + afterP
            && Texts(s.procs[q].mail) == beforeQ + OtherIds(common, j) + afterQ
            && OtherIds(OtherIds(common, i), j) == OtherIds(OtherIds(common, j), i)
  {
    var mp, mq := s.procs[p].membership, s.procs[q].membership;
    BroadcastInLogOrder(s, p);
    BroadcastInLogOrder(s, q);
    var lo, hi := Max(Start(mp), Start(mq)), Min(End(s, mp), End(s, mq));
    common := s.log[lo..hi];
    beforeP, afterP := SplitOtherIds(s.log, SlotOf(mp), Start(mp), lo, hi, End(s, mp));
    beforeQ, afterQ := SplitOtherIds(s.log, SlotOf(mq), Start(mq), lo, hi, End(s, mq));
    OtherIdsCommute(common, SlotOf(mp), SlotOf(mq));
  }

  lemma {:induction false} OtherIdsCommute(log: seq<Message>, i: int, j: int)
    ensures OtherIds(OtherIds(log, i), j) == OtherIds(OtherIds(log, j), i)
  {
    if log == [] {
    } else {
      OtherIdsCommute(log[1..], i, j);
      assert log == [log[0]] + log[1..];
      OtherIdsCons(log[0], log[1..], i);
      OtherIdsCons(log[0], log[1..], j);
      OtherIdsCons(log[0], OtherIds(log[1..], i), j);
      OtherIdsCons(log[0], OtherIds(log[1..], j), i);
    }
  }

  lemma OtherIdsCons(m: Message, rest: seq<Message>, id: int)
    ensures Carries(m, id) ==> OtherIds([m] + rest, id) == OtherIds(rest, id)
    ensures !Carries(m, id) ==> OtherIds([m] + rest, id) == [m] + OtherIds(rest, id)
  {
    assert ([m] + rest)[1..] == rest;
  }

  lemma SplitOtherIds(log: seq<Message>, id: int, a: nat, b: nat, c: nat, d: nat)
    returns (before: seq<Message>, after: seq<Message>)
    requires a <= b <= c <= d <= |log|
    ensures OtherIds(log[a..d], id) == before + OtherIds(log[b..c], id) + after
  {
    before, after := OtherIds(log[a..b], id), OtherIds(log[c..d], id);
    SplitSlice(log, a, c, d);
    SplitSlice(log, a, b, c);
    OtherIdsConcat(log[a..b] + log[b..c], log[c..d], id);
    OtherIdsConcat(log[a..b], log[b..c], id);
  }

  /** As long as ids name their owners, the same by sender. */
  lemma ClientsAgreeOnOthers(s: State, p: Pid, q: Pid)
    returns (common: seq<Message>, beforeP: seq<Message>, afterP: seq<Message>,
             beforeQ: seq<Message>, afterQ: seq<Message>)
    requires Inv(s) && p < |s.procs| && q < |s.procs|
    requires Start(s.procs[p].membership) < End(s, s.procs[q].membership)
    requires Start(s.procs[q].membership) < End(s, s.procs[p].membership)
    ensures SawUpTo(s, s.procs[p].membership) && SawUpTo(s, s.procs[q].membership)
    ensures common == s.log[Max(Start(s.procs[p].membership), Start(s.procs[q].membership))
                            ..Min(End(s, s.procs[p].membership), End(s, s.procs[q].membership))]
    ensures Texts(s.procs[p].mail) == beforeP + Others(common, p) + afterP
    ensures Texts(s.procs[q].mail) == beforeQ + Others(common, q) + afterQ
    ensures Others(Others(common, p), q) == Others(Others(common, q), p)
  {
    var mp, mq := s.procs[p].membership, s.procs[q].membership;
    BroadcastToOthers(s, p);
    BroadcastToOthers(s, q);
    var lo, hi := Max(Start(mp), Start(mq)), Min(End(s, mp), End(s, mq));
    common := s.log[lo..hi];
    beforeP, afterP := SplitOthers(s.log, p, Start(mp), lo, hi, End(s, mp));
    beforeQ, afterQ := SplitOthers(s.log, q, Start(mq), lo, hi, End(s, mq));
    OthersCommute(common, p, q);
  }

  lemma SplitSlice(log: seq<Message>, a: nat, b: nat, c: nat)
    requires a <= b <= c <= |log|
    ensures log[a..c] == log[a..b] + log[b..c]
  {
    var whole, parts := log[a..c], log[a..b] + log[b..c];
    assert |whole| == |parts|;
    forall k | 0 <= k < |whole| ensures whole[k] == parts[k] {
      assert whole[k] == log[a + k];
    }
  }

  lemma SplitOthers(log: seq<Message>, p: Pid, a: nat, b: nat, c: nat, d: nat)
    returns (before: seq<Message>, after: seq<Message>)
    requires a <= b <= c <= d <= |log|
    ensures Others(log[a..d], p) == before + Others(log[b..c], p) + after
  {
    before, after := Others(log[a..b], p), Others(log[c..d], p);
    SplitSlice(log, a, c, d);
    SplitSlice(log, a, b, c);
    OthersConcat(log[a..b] + log[b..c], log[c..d], p);
    OthersConcat(log[a..b], log[b..c], p);
  }

  // ----- No text is lost on the way to the server -----

  /** What the server has not put in its log yet. */
  function Unlogged(s: State): seq<Message> {
    (if s.server.Handling? then [s.server.msg] else []) + s.queue
  }

  /** The texts a client wrote are those of its in the log, then those still to come, in the
      order it wrote them. */
  predicate WroteOk(s: State, p: Pid)
    requires p < |s.procs|
  {
    s.procs[p].wrote == From(p, s.log) + Texts(From(p, Unlogged(s)))
  }

  lemma FromOne(p: Pid, m: Message)
    ensures From(p, [m]) == if SentBy(m, p) then [m] else []
    ensures Texts([m]) == if m.Text? then [m] else []
  {
    assert [m][1..] == [];
  }

  lemma PendingGrows(p: Pid, u: seq<Message>, m: Message)
    ensures Texts(From(p, u + [m])) == Texts(From(p, u)) + (if SentBy(m, p) && m.Text? then [m] else [])
  {
    FromConcat(p, u, [m]);
    FromOne(p, m);
    TextsConcat(From(p, u), From(p, [m]));
  }

  lemma TextLogged(p: Pid, log: seq<Message>, m: Message)
    ensures var log' := if m.Text? then log + [m] else log;
            From(p, log') == From(p, log) + Texts(From(p, [m]))
  {
    FromOne(p, m);
    if m.Text? {
      FromConcat(p, log, [m]);
    }
  }

  lemma LogGrows(p: Pid, log: seq<Message>, m: Message, queue: seq<Message>)
    ensures var log' := if m.Text? then log + [m] else log;
            From(p, log) + Texts(From(p, [m] + queue)) == From(p, log') + Texts(From(p, queue))
  {
    TextLogged(p, log, m);
    FromConcat(p, [m], queue);
    TextsConcat(From(p, [m]), From(p, queue));
    var a, b, c := From(p, log), Texts(From(p, [m])), Texts(From(p, queue));
    assert a + (b + c) == (a + b) + c;
  }

  lemma MoveUnlogged(s: State, m: Move)
    requires Enabled(s, m) && !m.Serve?
    ensures Unlogged(Next(s, m)) == Unlogged(s) + Sent(s, m) && |Sent(s, m)| <= 1
  {
  }

  /** What a move of a client puts in its own record of what it wrote. */
  function Written(sent: seq<Message>, p: Pid): seq<Message> {
    if sent != [] && sent[0].Text? && SentBy(sent[0], p) then sent else []
  }

  lemma WroteGrows(s: State, s': State, p: Pid, sent: seq<Message>)
    requires p < |s.procs| && p < |s'.procs| && WroteOk(s, p) && |sent| <= 1
    requires s'.log == s.log && Unlogged(s') == Unlogged(s) + sent
    requires s'.procs[p].wrote == s.procs[p].wrote + Written(sent, p)
    ensures WroteOk(s', p)
  {
    if sent == [] {
      assert Unlogged(s) + [] == Unlogged(s);
    } else {
      assert sent == [sent[0]];
      PendingGrows(p, Unlogged(s), sent[0]);
    }
  }

  lemma MoveWrote(s: State, m: Move, p: Pid)
    requires Enabled(s, m) && !m.Serve? && p < |s.procs| && WroteOk(s, p)
    ensures p < |Next(s, m).procs| && WroteOk(Next(s, m), p)
  {
    MoveFrame(s, m);
    MoveUnlogged(s, m);
    MoveWrites(s, m, p);
    WroteGrows(s, Next(s, m), p, Sent(s, m));
  }

  lemma MoveWrites(s: State, m: Move, p: Pid)
    requires Enabled(s, m) && !m.Serve? && p < |s.procs|
    ensures Next(s, m).procs[p].wrote == s.procs[p].wrote + Written(Sent(s, m), p)
  {
  }

  lemma ServeFrame(s: State, p: Pid)
    requires Enabled(s, Serve) && p < |s.procs|
    ensures var s' := ServerNext(s);
            && |s'.procs| == |s.procs| && s'.procs[p].wrote == s.procs[p].wrote
            && if s.server.Handling? then
                 Unlogged(s) == [s.server.msg] + s.queue && Unlogged(s') == s.queue
                 && s'.log == (if s.server.msg.Text? then s.log + [s.server.msg] else s.log)
               else Unlogged(s') == Unlogged(s) && s'.log == s.log
  {
  }

  lemma ServeWrote(s: State, p: Pid)
    requires Enabled(s, Serve) && p < |s.procs| && WroteOk(s, p)
    ensures p < |ServerNext(s).procs| && WroteOk(ServerNext(s), p)
  {
    ServeFrame(s, p);
    if s.server.Handling? {
      LogGrows(p, s.log, s.server.msg, s.queue);
    }
  }

  ghost predicate AllWrote(s: State) {
    forall p :: 0 <= p < |s.procs| ==> WroteOk(s, p)
  }

  lemma StepWrote(s: State, m: Move)
    requires Enabled(s, m) && AllWrote(s)
    ensures AllWrote(Next(s, m)) && |Next(s, m).procs| == |s.procs|
  {
    if m.Serve? && s.procs != [] {
      ServeFrame(s, 0);
    }
    forall p | 0 <= p < |s.procs| ensures p < |Next(s, m).procs| && WroteOk(Next(s, m), p) {
      if m.Serve? {
        ServeWrote(s, p);
      } else {
        MoveWrote(s, m, p);
      }
    }
  }

  lemma {:induction false} RunWrote(tr: seq<State>, ms: seq<Move>)
    requires IsRun(tr, ms) && InitState(tr[0])
    ensures AllWrote(tr[|tr| - 1]) && |tr[|tr| - 1].procs| == |tr[0].procs|
  {
    if ms == [] {
      assert forall p :: 0 <= p < |tr[0].procs| ==> tr[0].procs[p].wrote == [];
    } else {
      var k := |ms| - 1;
      LastStep(tr, ms);
      RunWrote(tr[..|tr| - 1], ms[..k]);
      StepWrote(tr[k], ms[k]);
    }
  }

  // ----- What a client wrote is what was typed -----

  /** The strings typed at client p, in order. */
  function Typed(ms: seq<Move>, p: Pid): seq<string> {
    if ms == [] then []
    else
      var m := ms[|ms| - 1];
      Typed(ms[..|ms| - 1], p) + (if m.SendText? && m.p == p then [m.body] else [])
  }

  /** The texts carry these strings, and the client as their sender. */
  predicate Carry(texts: seq<Message>, bodies: seq<string>, p: Pid) {
    && |texts| == |bodies|
    && forall k :: 0 <= k < |texts| ==> texts[k].Text? && texts[k].sender == p && texts[k].body == bodies[k]
  }

  lemma StepTypes(s: State, m: Move, p: Pid)
    requires Enabled(s, m) && p < |s.procs|
    ensures p < |Next(s, m).procs|
    ensures var was, now := s.procs[p].wrote, Next(s, m).procs[p].wrote;
            if m.SendText? && m.p == p
            then |now| == |was| + 1 && now[..|was|] == was && Carry(now[|was|..], [m.body], p)
            else now == was
  {
  }

  lemma CarryMore(texts: seq<Message>, bodies: seq<string>, text: seq<Message>, body: string, p: Pid)
    requires Carry(texts, bodies, p) && Carry(text, [body], p)
    ensures Carry(texts + text, bodies + [body], p)
  {
  }

  lemma {:induction false} RunTypes(tr: seq<State>, ms: seq<Move>, p: Pid)
    requires IsRun(tr, ms) && InitState(tr[0]) && p < |tr[0].procs|
    ensures p < |tr[|tr| - 1].procs| && Carry(tr[|tr| - 1].procs[p].wrote, Typed(ms, p), p)
  {
    if ms == [] {
      assert tr[0].procs[p].wrote == [];
    } else {
      var k := |ms| - 1;
      LastStep(tr, ms);
      RunTypes(tr[..|tr| - 1], ms[..k], p);
      StepTypes(tr[k], ms[k], p);
      if ms[k].SendText? && ms[k].p == p {
        var was, now := tr[k].procs[p].wrote, tr[k + 1].procs[p].wrote;
        assert now == now[..|was|] + now[|was|..];
        CarryMore(was, Typed(ms[..k], p), now[|was|..], ms[k].body, p);
      }
    }
  }

  /** In every run: what is typed at a client is what it wrote, and nothing of that is lost, repeated
      or reordered on its way to the log; and
      every client is sent the texts with other ids of its stretch of the log, in log order.  Unless
      some parent read nothing, for which a child must be interrupted early, these are the texts of
      the other clients. */
  lemma RunBroadcasts(tr: seq<State>, ms: seq<Move>, p: Pid)
    requires IsRun(tr, ms) && InitState(tr[0]) && p < |tr[0].procs|
    ensures var s := tr[|tr| - 1];
            p < |s.procs| &&
            var c := s.procs[p];
            && Carry(c.wrote, Typed(ms, p), p)
            && c.wrote == From(p, s.log) + Texts(From(p, Unlogged(s)))
            && c.shown + c.inbox == c.mail && |c.inbox| <= QUEUE_LENGTH
            && SentById(s, p)
            && (NobodyReadNothing(ms) ==> SentOthers(s, p))
    ensures AllCalm(tr, ms) ==> NobodyReadNothing(ms)
  {
    RunTypes(tr, ms, p);
    RunWrote(tr, ms);
    assert WroteOk(tr[|tr| - 1], p);
    InitOrdered(tr[0]);
    RunOrdered(tr, ms);
    assert Addressed(tr[|tr| - 1], p);
    BroadcastInLogOrder(tr[|tr| - 1], p);
    if AllCalm(tr, ms) {
      CalmRun(tr, ms);
    }
    if NobodyReadNothing(ms) {
      Initially(tr[0]);
      RunInv(tr, ms);
      BroadcastToOthers(tr[|tr| - 1], p);
    }
  }
}
