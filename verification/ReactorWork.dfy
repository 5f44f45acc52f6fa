/** Who gets work done: in every state of every run each piece of work belongs to a request that may have it. */
module ReactorWork {
  import opened Common
  import opened Ledger
  import opened Reactor
  import Safety = ReactorSafety

  function BodyLimit(p: Policy, target: Target): nat {
    if target == Ingest then p.ingestMaxBody else p.maxBody
  }

  /**
   A request that is neither answered nor reset has a body within the limit, and an ingest body is admitted.
   Only a connection without its socket is abandoned.
   */
  predicate HeadOk(c: Connection, p: Policy) {
    && (c.abandoned <==> !c.open)
    && (c.head.Some? && !c.responsePending && c.head.value.length.Some? ==>
          && c.head.value.length.value <= BodyLimit(p, c.head.value.target)
          && (c.head.value.target == Ingest && c.head.value.length.value > 0 ==> c.admitted))
  }

  /**
   Work is done for a known target and its method only: health without a body, anything else on a JSON
   body within the limit.  Writers are authorized and admitted; searches hold a permit, and only they.
   */
  predicate Entitled(c: Connection, permit: bool, p: Policy) {
    && c.head.Some?
    && var r := c.head.value;
    && r.target != Unknown && r.methodOk
    && (if r.target == Health then r.length == None && c.bodyBytes == 0
        else r.json && r.length == Some(c.bodyBytes) && 0 < c.bodyBytes <= BodyLimit(p, r.target))
    && (r.target == Ingest ==> r.authorized && c.admitted)
    && (permit <==> r.target == Search || r.target == Retrieve)
  }

  ghost predicate WorkOk(s: State, p: Policy) {
    && (forall id :: id in s.connections ==> HeadOk(s.connections[id], p))
    && (forall e :: e in s.executions ==>
          s.executions[e].connection in s.connections && Entitled(s.connections[s.executions[e].connection], s.executions[e].permit, p))
  }

  predicate NoWork(s: State, id: nat) {
    forall e :: e in s.executions ==> s.executions[e].connection != id
  }

  lemma IdleHasNoWork(s: State, id: nat)
    requires Linked(s) && id in s.connections && s.connections[id].execution.None?
    ensures NoWork(s, id)
  {
  }

  predicate SameRequest(c: Connection, d: Connection) {
    d.head == c.head && d.bodyBytes == c.bodyBytes && d.admitted == c.admitted
  }

  // ---------------------------------------------------------------- the changes a step is made of

  lemma WithKeeps(s: State, p: Policy, id: nat, d: Connection)
    requires WorkOk(s, p) && HeadOk(d, p)
    requires NoWork(s, id) || (id in s.connections && SameRequest(s.connections[id], d))
    ensures WorkOk(With(s, id, d), p)
  {
    hide HeadOk, BodyLimit;
  }

  lemma FreedKeeps(s: State, p: Policy, id: nat)
    requires WorkOk(s, p) && id in s.connections && NoWork(s, id)
    ensures WorkOk(Freed(s, id), p)
  {
    hide HeadOk, Entitled;
  }

  lemma AbandonedKeeps(s: State, p: Policy, id: nat)
    requires WorkOk(s, p) && id in s.connections && (s.connections[id].execution.None? ==> NoWork(s, id))
    ensures WorkOk(Abandoned(s, id), p)
  {
    var c := s.connections[id];
    if c.execution.Some? {
      WithKeeps(s, p, id, c.(open := false, abandoned := true));
    } else {
      hide WorkOk;
      FreedKeeps(s, p, id);
    }
  }

  lemma RespondedKeeps(s: State, p: Policy, id: nat, written: bool)
    requires WorkOk(s, p) && id in s.connections && NoWork(s, id)
    ensures WorkOk(Responded(s, id, written), p)
  {
    assert HeadOk(s.connections[id], p);
    hide WorkOk, Abandoned;
    if written && s.connections[id].open {
      WithKeeps(s, p, id, s.connections[id].(responsePending := true));
    } else {
      AbandonedKeeps(s, p, id);
    }
  }

  /** The head may be anything: the connection is answered or gone. */
  lemma FatalKeeps(s: State, p: Policy, id: nat, c: Connection, written: bool)
    requires WorkOk(s, p) && id in s.connections && NoWork(s, id) && c.execution.None? && (c.abandoned <==> !c.open)
    ensures WorkOk(FatalError(With(s, id, c), id, written), p)
  {
    hide HeadOk, Entitled;
    if written && c.open {
      AnsweredOk(c.(closeAfter := true, responsePending := true), p);
    }
  }

  lemma AnsweredOk(c: Connection, p: Policy)
    requires c.responsePending && (c.abandoned <==> !c.open)
    ensures HeadOk(c, p)
  {
  }

  lemma ResetKeeps(s: State, p: Policy, id: nat)
    requires WorkOk(s, p) && id in s.connections && NoWork(s, id)
    ensures WorkOk(Reset(s, id), p) && NoWork(Reset(s, id), id)
  {
    hide Entitled;
  }

  lemma AfterHeadKeeps(s: State, p: Policy, id: nat, r: Request, written: bool)
    requires WorkOk(s, p) && id in s.connections && NoWork(s, id) && s.connections[id].execution.None?
    ensures WorkOk(AfterHead(s, p, id, r, written), p)
  {
    assert HeadOk(s.connections[id], p);
    hide WorkOk, FatalError, Acquired, NoWork;
    var c := s.connections[id].(head := Some(r), closeAfter := r.close);
    FatalKeeps(s, p, id, c, written);
    if r.length.None? || (r.length.value <= BodyLimit(p, r.target) && !(r.target == Ingest && r.length.value != 0)) {
      WithKeeps(s, p, id, c);
    } else if r.length.value <= BodyLimit(p, r.target) {
      var a := Acquired(s.writer, r.length.value);
      if a.Some? {
        WithKeeps(s, p, id, c.(admitted := true));
        WriterIsFree(With(s, id, c.(admitted := true)), p, a.value);
      }
    }
  }

  lemma WriterIsFree(s: State, p: Policy, l: Limit)
    requires WorkOk(s, p)
    ensures WorkOk(s.(writer := l), p)
  {
    hide HeadOk, Entitled;
  }

  /** A new piece of work is one the connection is entitled to. */
  lemma StartedKeeps(s: State, p: Policy, id: nat, e: nat, permit: bool, l: Limit)
    requires WorkOk(s, p) && id in s.connections && Entitled(s.connections[id], permit, p)
    ensures WorkOk(With(s, id, s.connections[id].(execution := Some(e))).(search := l, executions := s.executions[e := Execution(id, permit, false)]), p)
  {
    hide BodyLimit;
  }

  lemma SubmittedKeeps(s: State, p: Policy, id: nat, e: nat, memory: bool, accepted: bool, written: bool)
    requires WorkOk(s, p) && id in s.connections && NoWork(s, id) && !s.connections[id].responsePending
    requires s.connections[id].head.Some? && s.connections[id].bodyBytes == ContentLength(s.connections[id])
    ensures WorkOk(Submitted(s, id, e, memory, accepted, written), p)
  {
    RespondedKeeps(s, p, id, written);
    var c := s.connections[id];
    var r := c.head.value;
    assert HeadOk(c, p);
    hide WorkOk, Responded, NoWork;
    if !Refused(r, c.bodyBytes) && memory && (r.target == Ingest ==> r.authorized) {
      var permit := r.target == Search || r.target == Retrieve;
      assert Entitled(c, permit, p);
      var a := Acquired(s.search, c.bodyBytes);
      hide Acquired, Refused, Entitled, Released;
      StartedKeeps(s, p, id, e, permit, if permit && a.Some? then a.value else s.search);
      if permit && a.Some? { Safety.UndoneAcquire(s.search, c.bodyBytes); assert s.(search := s.search) == s; }
    }
  }

  lemma CompletedKeeps(s: State, p: Policy, e: nat, ok: bool)
    requires Linked(s) && WorkOk(s, p) && e in s.executions && s.executions[e].connection in s.connections
    ensures WorkOk(Completed(s, e, ok), p)
  {
    var id := s.executions[e].connection;
    var t := Safety.Settled(s, e);
    SettledKeeps(s, p, e);
    hide WorkOk, NoWork, Linked;
    if s.connections[id].abandoned || !s.connections[id].open {
      FreedKeeps(t, p, id);
    } else {
      RespondedKeeps(t, p, id, ok);
    }
  }

  lemma SettledKeeps(s: State, p: Policy, e: nat)
    requires Linked(s) && WorkOk(s, p) && e in s.executions && s.executions[e].connection in s.connections
    ensures WorkOk(Safety.Settled(s, e), p) && NoWork(Safety.Settled(s, e), s.executions[e].connection)
  {
    hide BodyLimit, Released;
  }

  // ---------------------------------------------------------------- all steps

  lemma FlushedKeeps(s: State, p: Policy, id: nat, enabled: bool)
    requires WorkOk(s, p) && id in s.connections && NoWork(s, id)
    ensures WorkOk(if s.connections[id].closeAfter then Abandoned(s, id) else if enabled then Reset(s, id) else Abandoned(Reset(s, id), id), p)
  {
    AbandonedKeeps(s, p, id);
    ResetKeeps(s, p, id);
    AbandonedKeeps(Reset(s, id), p, id);
  }

  lemma WorkDoneKeeps(s: State, p: Policy, e: nat)
    requires WorkOk(s, p) && e in s.executions
    ensures WorkOk(s.(executions := s.executions[e := s.executions[e].(done := true)]), p)
  {
    hide HeadOk, Entitled;
  }

  /** Reading the body does not change what the connection is entitled to: it has no work yet. */
  lemma BodyKeeps(s: State, p: Policy, id: nat, e: nat, memory: bool, accepted: bool, written: bool)
    requires Linked(s) && WorkOk(s, p) && Reading(s, id) && s.connections[id].head.Some? && e !in s.executions
    ensures WorkOk(Submitted(With(s, id, s.connections[id].(bodyBytes := ContentLength(s.connections[id]))), id, e, memory, accepted, written), p)
  {
    IdleHasNoWork(s, id);
    hide Linked;
    var d := s.connections[id].(bodyBytes := ContentLength(s.connections[id]));
    WithKeeps(s, p, id, d);
    hide WorkOk, Submitted;
    SubmittedKeeps(With(s, id, d), p, id, e, memory, accepted, written);
  }

  lemma StepKeeps(s: State, p: Policy, a: Action)
    requires Linked(s) && WorkOk(s, p) && Enabled(s, a)
    ensures WorkOk(Next(s, p, a), p)
  {
    hide WorkOk, AfterHead, FatalError, Abandoned, Reset, Submitted, Completed, ContentLength, NoWork, HeadOk;
    if id :| id in s.connections && (a == BrokenInput(id) || (a.HangUp? && a.id == id)) {
      IdleFacts(s, p, id);
      AbandonedKeeps(s, p, id);
      WithKeeps(s, p, id, s.connections[id].(closeAfter := true));
    }
    match a
    case Accept(id) => NewIdHasNoWork(s, id, p); WithKeeps(s, p, id, Fresh);
    case BadHead(id, written) => IdleFacts(s, p, id); KeptHere(s, id); FatalKeeps(s, p, id, s.connections[id], written);
    case Head(id, r, written) => IdleFacts(s, p, id); AfterHeadKeeps(s, p, id, r, written);
    case NoMemory(id, written) => IdleFacts(s, p, id); KeptHere(s, id); FatalKeeps(s, p, id, s.connections[id], written);
    case BrokenInput(id) =>
    case Body(id, e, memory, accepted, written) => BodyKeeps(s, p, id, e, memory, accepted, written);
    case Flushed(id, enabled) => AnsweredHasNoWork(s, id); FlushedKeeps(s, p, id, enabled);
    case HangUp(id, endOfInput) =>
    case Work(e) => WorkDoneKeeps(s, p, e);
    case Complete(e, ok) => CompletedKeeps(s, p, e, ok);
  }

  lemma KeptHere(s: State, id: nat)
    requires id in s.connections
    ensures With(s, id, s.connections[id]) == s
  {
  }

  lemma IdleFacts(s: State, p: Policy, id: nat)
    requires Linked(s) && WorkOk(s, p) && id in s.connections
    ensures s.connections[id].execution.None? ==> NoWork(s, id)
    ensures HeadOk(s.connections[id].(closeAfter := true), p) && (s.connections[id].abandoned <==> !s.connections[id].open)
  {
    if s.connections[id].execution.None? { IdleHasNoWork(s, id); }
  }

  lemma NewIdHasNoWork(s: State, id: nat, p: Policy)
    requires WorkOk(s, p) && id !in s.connections
    ensures NoWork(s, id) && HeadOk(Fresh, p)
  {
  }

  lemma AnsweredHasNoWork(s: State, id: nat)
    requires Linked(s) && id in s.connections && s.connections[id].responsePending
    ensures NoWork(s, id)
  {
    IdleHasNoWork(s, id);
  }

  lemma {:induction false} RunKeeps(states: seq<State>, actions: seq<Action>, p: Policy, n: nat)
    requires Run(states, actions, p) && Initial(states[0]) && n < |states|
    ensures WorkOk(states[n], p)
  {
    hide WorkOk, Inv, Enabled, Next;
    if n == 0 {
      NothingYet(states[0], p);
    } else {
      RunKeeps(states, actions, p, n - 1);
      Safety.RunKeeps(states, actions, p, n - 1);
      LinkedOf(states[n - 1]);
      assert Leads(states[n - 1], p, actions[n - 1], states[n]);
      StepKeeps(states[n - 1], p, actions[n - 1]);
    }
  }

  lemma NothingYet(s: State, p: Policy)
    requires Initial(s)
    ensures WorkOk(s, p)
  {
  }

  lemma LinkedOf(s: State)
    requires Inv(s)
    ensures Linked(s)
  {
  }

  lemma EntitledWork(s: State, p: Policy, e: nat)
    requires Linked(s) && WorkOk(s, p) && e in s.executions
    ensures var id := s.executions[e].connection;
      && id in s.connections && s.connections[id].execution == Some(e) && s.connections[id].head.Some?
      && var r := s.connections[id].head.value;
      && !Refused(r, s.connections[id].bodyBytes)
      && (r.target == Ingest ==> r.authorized && s.connections[id].admitted)
      && (s.executions[e].permit <==> r.target == Search || r.target == Retrieve)
      && s.connections[id].bodyBytes <= BodyLimit(p, r.target)
  {
    assert Entitled(s.connections[s.executions[e].connection], s.executions[e].permit, p);
  }

  /**
   In every state of every run, whatever the interleaving: a piece of work belongs to an open request that
   no check turns away.  It is authorized and admitted when it writes, holds a permit exactly when it
   searches, and its body is within the limit.
   */
  lemma WorkIsEntitled(states: seq<State>, actions: seq<Action>, p: Policy, n: nat, e: nat)
    requires Run(states, actions, p) && Initial(states[0]) && n < |states| && e in states[n].executions
    ensures var s := states[n];
      var id := s.executions[e].connection;
      && id in s.connections && s.connections[id].execution == Some(e) && s.connections[id].head.Some?
      && var r := s.connections[id].head.value;
      && r.methodOk && r.target != Unknown
      && (if r.target == Health then r.length == None else r.json && r.length == Some(s.connections[id].bodyBytes) && s.connections[id].bodyBytes > 0)
      && (r.target == Ingest ==> r.authorized && s.connections[id].admitted && s.connections[id].bodyBytes <= p.ingestMaxBody)
      && (r.target == Search || r.target == Retrieve ==> s.connections[id].bodyBytes <= p.maxBody)
      && (s.executions[e].permit <==> r.target == Search || r.target == Retrieve)
  {
    Safety.RunKeeps(states, actions, p, n);
    RunKeeps(states, actions, p, n);
    hide Run, Initial, Balanced, Admitted, Permits;
    LinkedOf(states[n]);
    EntitledWork(states[n], p, e);
  }

  // ---------------------------------------------------------------- what a request comes to

  /** A request is answered, being worked on, or its connection is gone: none is dropped without a reply. */
  predicate Settles(s: State, id: nat) {
    id in s.connections ==> s.connections[id].responsePending || s.connections[id].execution.Some?
  }

  /** Exactly when a complete request gets work, and what happens to everything else when it does not. */
  lemma SubmittedExactly(s: State, id: nat, e: nat, memory: bool, accepted: bool, written: bool)
    requires Reading(s, id) && s.connections[id].head.Some? && e !in s.executions
    ensures var t := Submitted(s, id, e, memory, accepted, written);
      var c := s.connections[id];
      var r := c.head.value;
      && Settles(t, id)
      && (e in t.executions <==>
            && r.target != Unknown && r.methodOk && memory && accepted
            && (if r.target == Health then r.length.None? else r.length.Some? && c.bodyBytes > 0 && r.json)
            && (r.target == Ingest ==> r.authorized)
            && (r.target == Search || r.target == Retrieve ==>
                  c.bodyBytes > 0 && s.search.inflight < s.search.maxInflight && s.search.bytes + c.bodyBytes <= s.search.maxBytes))
      && (e !in t.executions ==> t.executions == s.executions && t.search == s.search && (written <==> id in t.connections))
  {
    if Acquired(s.search, s.connections[id].bodyBytes).Some? {
      Safety.UndoneAcquire(s.search, s.connections[id].bodyBytes);
    }
  }

  /** Exactly when a new head is read on, when it is admitted, and that a refused one is answered and closed. */
  lemma AfterHeadExactly(s: State, p: Policy, id: nat, r: Request, written: bool)
    requires Reading(s, id) && !s.connections[id].admitted
    ensures var t := AfterHead(s, p, id, r, written);
      var n := if r.length.Some? then r.length.value else 0;
      var room := s.writer.inflight < s.writer.maxInflight && s.writer.bytes + n <= s.writer.maxBytes;
      var ok := n <= (if r.target == Ingest then p.ingestMaxBody else p.maxBody) && (r.target == Ingest && n > 0 ==> room);
      && (ok ==> id in t.connections && Reading(t, id) && t.connections[id].head == Some(r) && t.connections[id].closeAfter == r.close)
      && (!ok ==> t.writer == s.writer && if written then id in t.connections && t.connections[id].responsePending && t.connections[id].closeAfter else id !in t.connections)
      && (id in t.connections && t.connections[id].admitted <==> ok && r.target == Ingest && n > 0)
  {
  }

  /** A sent answer ends the connection or leaves it as new, with nothing of the old request in it. */
  lemma FlushedExactly(s: State, p: Policy, id: nat, enabled: bool)
    requires Linked(s) && WorkOk(s, p) && Enabled(s, Flushed(id, enabled))
    ensures var c := s.connections[id];
      var t := Next(s, p, Flushed(id, enabled));
      && t.executions == s.executions && t.connections - {id} == s.connections - {id}
      && (id in t.connections <==> enabled && !c.closeAfter)
      && (id in t.connections ==> t.connections[id] == Connection(None, 0, None, false, true, false, false, false))
      && t.writer == if c.admitted then Released(s.writer, ContentLength(c)) else s.writer
  {
    assert s.connections[id].execution.None? && HeadOk(s.connections[id], p);
    hide Admitted, Permits, Entitled, BodyLimit;
  }

  /**
   A peer that only stops sending still gets the answer under way, and then the connection closes.  Any
   other end gives the socket up at once, but the record and its place stay while work uses them.
   */
  lemma HangUpExactly(s: State, p: Policy, id: nat, endOfInput: bool)
    requires Enabled(s, HangUp(id, endOfInput))
    ensures var c := s.connections[id];
      var t := Next(s, p, HangUp(id, endOfInput));
      && t.executions == s.executions && t.search == s.search && t.connections - {id} == s.connections - {id}
      && (endOfInput && (c.execution.Some? || c.responsePending) ==>
            id in t.connections && t.connections[id] == c.(closeAfter := true) && t.writer == s.writer)
      && (!endOfInput && c.execution.Some? ==>
            id in t.connections && t.connections[id] == c.(open := false, abandoned := true) && t.writer == s.writer)
      && (c.execution.None? && !(endOfInput && c.responsePending) ==>
            id !in t.connections && t.writer == if c.admitted then Released(s.writer, ContentLength(c)) else s.writer)
  {
  }

  /** Work that comes back frees its connection's place, and the connection is answered unless it was given up. */
  lemma CompletedExactly(s: State, p: Policy, e: nat, ok: bool)
    requires Linked(s) && WorkOk(s, p) && e in s.executions && s.executions[e].connection in s.connections
    ensures var id := s.executions[e].connection;
      var c := s.connections[id];
      var t := Completed(s, e, ok);
      && t.executions == s.executions - {e}
      && if c.open && ok then id in t.connections && t.connections[id] == c.(execution := None, responsePending := true) else id !in t.connections
  {
    assert HeadOk(s.connections[s.executions[e].connection], p);
  }
}
