/** The limiter ledgers balance in every reachable state, across all reactors. */
module ReactorSafety {
  import opened Common
  import opened Ledger
  import opened Reactor

  /** A change of flags that no ledger looks at. */
  predicate SameBooks(c: Connection, d: Connection) {
    c.admitted == d.admitted && ContentLength(c) == ContentLength(d) && c.bodyBytes == d.bodyBytes && c.execution == d.execution
  }

  lemma BooksUnchanged(s: State, id: nat, d: Connection)
    requires id in s.connections && SameBooks(s.connections[id], d)
    ensures Admitted(With(s, id, d)) == Admitted(s) && Permits(With(s, id, d)) == Permits(s)
  {
  }

  predicate FlagsOk(d: Connection) {
    && (d.responsePending ==> d.execution.None?) && (!d.open ==> d.execution.Some?) && (d.admitted ==> d.head.Some?)
  }

  lemma LinkedUnchanged(s: State, id: nat, d: Connection)
    requires Linked(s) && id in s.connections && d.execution == s.connections[id].execution && FlagsOk(d)
    ensures Linked(With(s, id, d))
  {
  }

  lemma FlagsKeep(s: State, id: nat, d: Connection)
    requires Inv(s) && id in s.connections && SameBooks(s.connections[id], d) && FlagsOk(d)
    ensures Inv(With(s, id, d))
  {
    hide Linked, Balanced, Admitted, Permits, SameBooks, FlagsOk;
    BooksUnchanged(s, id, d);
    LinkedFlags(s, id, d);
  }

  lemma LinkedFlags(s: State, id: nat, d: Connection)
    requires Linked(s) && id in s.connections && SameBooks(s.connections[id], d) && FlagsOk(d)
    ensures Linked(With(s, id, d))
  {
    LinkedUnchanged(s, id, d);
  }

  // ---------------------------------------------------------------- freeing

  lemma FreedBooks(s: State, id: nat)
    requires Linked(s) && id in s.connections && s.connections[id].execution.None?
    ensures Linked(Freed(s, id)) && Admitted(Freed(s, id)) == Admitted(s) - {id} && Permits(Freed(s, id)) == Permits(s)
  {
  }

  lemma AdmittedAt(s: State, id: nat)
    requires id in s.connections
    ensures id in Admitted(s) <==> s.connections[id].admitted
    ensures s.connections[id].admitted ==> Admitted(s)[id] == ContentLength(s.connections[id])
    ensures !s.connections[id].admitted ==> Admitted(s) - {id} == Admitted(s)
  {
  }

  /** Releases the admission exactly when the connection had one. */
  lemma FreedKeeps(s: State, id: nat)
    requires Inv(s) && id in s.connections && s.connections[id].execution.None?
    ensures Inv(Freed(s, id))
  {
    hide Linked, Balanced, Admitted, Permits;
    FreedBooks(s, id);
    AdmittedAt(s, id);
    if s.connections[id].admitted { ReleaseBalances(s.writer, Admitted(s), id); }
  }

  lemma AbandonedKeeps(s: State, id: nat)
    requires Inv(s) && id in s.connections
    ensures Inv(Abandoned(s, id))
  {
    var c := s.connections[id];
    FlagFacts(s, id);
    hide Inv, Freed;
    if c.execution.Some? {
      FlagsKeep(s, id, c.(open := false, abandoned := true));
    } else {
      FreedKeeps(s, id);
    }
  }

  lemma FlagFacts(s: State, id: nat)
    requires Inv(s) && id in s.connections
    ensures FlagsOk(s.connections[id])
  {
    hide Balanced, Admitted, Permits;
  }

  lemma RespondedKeeps(s: State, id: nat, written: bool)
    requires Inv(s) && id in s.connections && s.connections[id].execution.None?
    ensures Inv(Responded(s, id, written))
  {
    FlagFacts(s, id);
    hide Inv, Abandoned;
    if written && s.connections[id].open {
      FlagsKeep(s, id, s.connections[id].(responsePending := true));
    } else {
      AbandonedKeeps(s, id);
    }
  }

  lemma FatalKeeps(s: State, id: nat, written: bool)
    requires Inv(s) && id in s.connections && s.connections[id].execution.None?
    ensures Inv(FatalError(s, id, written))
  {
    FlagFacts(s, id);
    hide Inv, Responded;
    FlagsKeep(s, id, s.connections[id].(closeAfter := true));
    RespondedKeeps(With(s, id, s.connections[id].(closeAfter := true)), id, written);
  }

  // ---------------------------------------------------------------- keep-alive

  lemma ResetLinked(s: State, id: nat)
    requires Linked(s) && id in s.connections && s.connections[id].execution.None? && s.connections[id].open
    ensures Linked(Reset(s, id))
  {
  }

  lemma ResetMaps(s: State, id: nat)
    requires Linked(s) && id in s.connections && s.connections[id].execution.None?
    ensures Admitted(Reset(s, id)) == Admitted(s) - {id} && Permits(Reset(s, id)) == Permits(s)
  {
  }

  lemma ResetKeeps(s: State, id: nat)
    requires Inv(s) && id in s.connections && s.connections[id].execution.None? && s.connections[id].open
    ensures Inv(Reset(s, id))
  {
    hide Linked, Balanced, Admitted, Permits;
    ResetLinked(s, id);
    ResetMaps(s, id);
    AdmittedAt(s, id);
    if s.connections[id].admitted { ReleaseBalances(s.writer, Admitted(s), id); }
  }

  // ---------------------------------------------------------------- heads

  lemma NewHead(s: State, id: nat, r: Request)
    requires Inv(s) && Reading(s, id) && s.connections[id].head.None?
    ensures Inv(With(s, id, s.connections[id].(head := Some(r), closeAfter := r.close))) && !s.connections[id].admitted
  {
    hide Balanced;
    var d := s.connections[id].(head := Some(r), closeAfter := r.close);
    LinkedUnchanged(s, id, d);
    assert Admitted(With(s, id, d)) == Admitted(s);
    assert Permits(With(s, id, d)) == Permits(s);
  }

  lemma AdmitMaps(s: State, id: nat, d: Connection)
    requires id in s.connections && !s.connections[id].admitted && d.admitted && d.bodyBytes == s.connections[id].bodyBytes
    ensures id !in Admitted(s) && Admitted(With(s, id, d)) == Admitted(s)[id := ContentLength(d)] && Permits(With(s, id, d)) == Permits(s)
  {
  }

  lemma AdmitBooks(s: State, id: nat, d: Connection, w: Limit)
    requires Linked(s) && id in s.connections && !s.connections[id].admitted && d.admitted && FlagsOk(d)
    requires d.execution == s.connections[id].execution && d.bodyBytes == s.connections[id].bodyBytes
    ensures var t := With(s, id, d).(writer := w);
            id !in Admitted(s) && Linked(t) && Admitted(t) == Admitted(s)[id := ContentLength(d)] && Permits(t) == Permits(s)
  {
    LinkedUnchanged(s, id, d);
    AdmitMaps(s, id, d);
    OnlyWriter(With(s, id, d), w);
    hide *;
  }

  lemma OnlyWriter(s: State, w: Limit)
    ensures Admitted(s.(writer := w)) == Admitted(s) && Permits(s.(writer := w)) == Permits(s) && Linked(s.(writer := w)) == Linked(s)
  {
  }

  lemma AfterHeadKeeps(s: State, p: Policy, id: nat, r: Request, written: bool)
    requires Inv(s) && Reading(s, id) && s.connections[id].head.None?
    ensures Inv(AfterHead(s, p, id, r, written))
  {
    var c := s.connections[id].(head := Some(r), closeAfter := r.close);
    FlagFacts(s, id);
    NewHead(s, id, r);
    hide Linked, Balanced, Admitted, Permits, FatalError, Acquired;
    if r.length.Some? && r.target == Ingest && r.length.value <= p.ingestMaxBody && r.length.value != 0 && Acquired(s.writer, r.length.value).Some? {
      AdmitBooks(s, id, c.(admitted := true), Acquired(s.writer, r.length.value).value);
      AcquireBalances(s.writer, Admitted(s), id, r.length.value);
    } else {
      FatalKeeps(With(s, id, c), id, written);
    }
  }

  // ---------------------------------------------------------------- submitting

  lemma BodyBooks(s: State, id: nat)
    requires Inv(s) && Reading(s, id)
    ensures Inv(With(s, id, s.connections[id].(bodyBytes := ContentLength(s.connections[id]))))
  {
    hide Balanced;
    var d := s.connections[id].(bodyBytes := ContentLength(s.connections[id]));
    LinkedUnchanged(s, id, d);
    assert Admitted(With(s, id, d)) == Admitted(s);
    assert Permits(With(s, id, d)) == Permits(s);
  }

  /** The state after an executor took the request. */
  function Running(s: State, id: nat, e: nat, permit: bool, l: Limit): State
    requires id in s.connections
  {
    With(s, id, s.connections[id].(execution := Some(e))).(search := l, executions := s.executions[e := Execution(id, permit, false)])
  }

  lemma RunningLinked(s: State, id: nat, e: nat, permit: bool, l: Limit)
    requires Linked(s) && Reading(s, id) && e !in s.executions
    ensures Linked(Running(s, id, e, permit, l))
  {
  }

  lemma RunningAdmitted(s: State, id: nat, e: nat, permit: bool, l: Limit)
    requires id in s.connections
    ensures Admitted(Running(s, id, e, permit, l)) == Admitted(s)
  {
  }

  lemma RunningPermits(s: State, id: nat, e: nat, permit: bool, l: Limit)
    requires Linked(s) && Reading(s, id) && e !in s.executions
    ensures e !in Permits(s)
    ensures Permits(Running(s, id, e, permit, l)) == if permit then Permits(s)[e := s.connections[id].bodyBytes] else Permits(s)
  {
  }

  lemma RunningBooks(s: State, id: nat, e: nat, permit: bool, l: Limit)
    requires Linked(s) && Reading(s, id) && e !in s.executions
    ensures var t := Running(s, id, e, permit, l);
      && Linked(t) && Admitted(t) == Admitted(s) && e !in Permits(s)
      && Permits(t) == if permit then Permits(s)[e := s.connections[id].bodyBytes] else Permits(s)
  {
    hide Linked, Admitted, Permits, Running;
    RunningLinked(s, id, e, permit, l);
    RunningAdmitted(s, id, e, permit, l);
    RunningPermits(s, id, e, permit, l);
  }

  lemma UndoneAcquire(l: Limit, n: nat)
    requires Acquired(l, n).Some?
    ensures Released(Acquired(l, n).value, n) == l
  {
  }

  lemma SubmittedKeeps(s: State, id: nat, e: nat, memory: bool, accepted: bool, written: bool)
    requires Inv(s) && Reading(s, id) && s.connections[id].head.Some? && e !in s.executions
    ensures Inv(Submitted(s, id, e, memory, accepted, written))
  {
    hide Linked, Balanced, Admitted, Permits, Responded, Acquired, Released, Refused;
    var c := s.connections[id];
    RespondedKeeps(s, id, written);
    RunningBooks(s, id, e, false, s.search);
    var a := Acquired(s.search, c.bodyBytes);
    if a.Some? {
      RunningBooks(s, id, e, true, a.value);
      AcquireBalances(s.search, Permits(s), e, c.bodyBytes);
      UndoneAcquire(s.search, c.bodyBytes);
      assert s.(search := s.search) == s;
    }
  }

  // ---------------------------------------------------------------- completing

  function Settled(s: State, e: nat): State
    requires e in s.executions && s.executions[e].connection in s.connections
  {
    var x := s.executions[e];
    var c := s.connections[x.connection];
    With(s, x.connection, c.(execution := None)).(
      executions := s.executions - {e}, search := if x.permit then Released(s.search, c.bodyBytes) else s.search)
  }

  /** Like Linked, but the connection whose work just came back may be closed. */
  predicate LinkedExcept(s: State, id: nat) {
    && (forall x :: x in s.connections && s.connections[x].execution.Some? ==>
          s.connections[x].execution.value in s.executions && s.executions[s.connections[x].execution.value].connection == x)
    && (forall e :: e in s.executions ==>
          s.executions[e].connection in s.connections && s.connections[s.executions[e].connection].execution == Some(e))
    && (forall x :: x in s.connections && s.connections[x].responsePending ==> s.connections[x].execution.None?)
    && (forall x :: x in s.connections && x != id && !s.connections[x].open ==> s.connections[x].execution.Some?)
    && (forall x :: x in s.connections && s.connections[x].admitted ==> s.connections[x].head.Some?)
  }

  lemma SettledLinked(s: State, e: nat)
    requires Linked(s) && e in s.executions
    ensures LinkedExcept(Settled(s, e), s.executions[e].connection)
    ensures Settled(s, e).connections[s.executions[e].connection].open ==> Linked(Settled(s, e))
  {
  }

  lemma SettledAdmitted(s: State, e: nat)
    requires e in s.executions && s.executions[e].connection in s.connections
    ensures Admitted(Settled(s, e)) == Admitted(s)
  {
  }

  lemma SettledPermits(s: State, e: nat)
    requires Linked(s) && e in s.executions
    ensures Permits(Settled(s, e)) == Permits(s) - {e}
  {
    hide Admitted;
  }

  lemma SettledBooks(s: State, e: nat)
    requires Linked(s) && e in s.executions
    ensures var t := Settled(s, e);
      && LinkedExcept(t, s.executions[e].connection) && Admitted(t) == Admitted(s) && Permits(t) == Permits(s) - {e}
      && (t.connections[s.executions[e].connection].open ==> Linked(t))
  {
    SettledLinked(s, e);
    SettledAdmitted(s, e);
    SettledPermits(s, e);
    hide LinkedExcept, Admitted, Permits, Settled;
  }

  lemma PermitAt(s: State, e: nat)
    requires e in s.executions && s.executions[e].connection in s.connections
    ensures e in Permits(s) <==> s.executions[e].permit
    ensures s.executions[e].permit ==> Permits(s)[e] == s.connections[s.executions[e].connection].bodyBytes
    ensures !s.executions[e].permit ==> Permits(s) - {e} == Permits(s)
  {
  }

  lemma SettledBalances(s: State, e: nat)
    requires Inv(s) && e in s.executions
    ensures s.executions[e].connection in s.connections
    ensures var t := Settled(s, e); Balanced(t.writer, Admitted(t)) && Balanced(t.search, Permits(t))
    ensures LinkedExcept(Settled(s, e), s.executions[e].connection)
    ensures Settled(s, e).connections[s.executions[e].connection].open ==> Inv(Settled(s, e))
  {
    SettledBooks(s, e);
    PermitAt(s, e);
    hide Linked, LinkedExcept, Balanced, Admitted, Permits;
    if s.executions[e].permit { ReleaseBalances(s.search, Permits(s), e); }
  }

  lemma FreedExcept(s: State, id: nat)
    requires LinkedExcept(s, id) && id in s.connections && s.connections[id].execution.None?
    ensures Linked(Freed(s, id)) && Admitted(Freed(s, id)) == Admitted(s) - {id} && Permits(Freed(s, id)) == Permits(s)
  {
  }

  lemma CompletedKeeps(s: State, e: nat, ok: bool)
    requires Inv(s) && e in s.executions && s.executions[e].connection in s.connections
    ensures Inv(Completed(s, e, ok))
  {
    var id := s.executions[e].connection;
    var t := Settled(s, e);
    SettledBalances(s, e);
    hide Linked, LinkedExcept, Balanced, Admitted, Permits, Responded, Released;
    if s.connections[id].abandoned || !s.connections[id].open {
      FreedExcept(t, id);
      AdmittedAt(t, id);
      if t.connections[id].admitted { ReleaseBalances(t.writer, Admitted(t), id); }
    } else {
      RespondedKeeps(t, id, ok);
    }
  }

  // ---------------------------------------------------------------- all steps

  lemma AcceptKeeps(s: State, id: nat)
    requires Inv(s) && id !in s.connections
    ensures Inv(With(s, id, Fresh))
  {
    hide Linked, Balanced, Admitted, Permits;
    AcceptLinked(s, id);
    AcceptBooks(s, id);
  }

  lemma AcceptLinked(s: State, id: nat)
    requires Linked(s) && id !in s.connections
    ensures Linked(With(s, id, Fresh))
  {
  }

  lemma AcceptBooks(s: State, id: nat)
    requires Linked(s) && id !in s.connections
    ensures Admitted(With(s, id, Fresh)) == Admitted(s) && Permits(With(s, id, Fresh)) == Permits(s)
  {
    var t := With(s, id, Fresh);
    assert forall e :: e in s.executions ==> s.executions[e].connection != id;
    assert forall x :: x in Admitted(t) <==> x in Admitted(s);
    assert forall e :: e in Permits(t) <==> e in Permits(s);
  }

  lemma WorkKeeps(s: State, e: nat)
    requires Inv(s) && e in s.executions
    ensures Inv(s.(executions := s.executions[e := s.executions[e].(done := true)]))
  {
    hide Balanced;
    var t := s.(executions := s.executions[e := s.executions[e].(done := true)]);
    assert Admitted(t) == Admitted(s);
    assert Permits(t) == Permits(s);
  }

  lemma FlushedKeeps(s: State, id: nat, enabled: bool)
    requires Inv(s) && id in s.connections && s.connections[id].open && s.connections[id].responsePending
    ensures Inv(if s.connections[id].closeAfter then Abandoned(s, id) else if enabled then Reset(s, id) else Abandoned(Reset(s, id), id))
  {
    FlagFacts(s, id);
    hide Inv, Abandoned;
    if s.connections[id].closeAfter {
      AbandonedKeeps(s, id);
    } else {
      ResetKeeps(s, id);
      AbandonedKeeps(Reset(s, id), id);
    }
  }

  lemma StepKeeps(s: State, p: Policy, a: Action)
    requires Inv(s) && Enabled(s, a)
    ensures Inv(Next(s, p, a))
  {
    hide Inv, AfterHead, FatalError, Abandoned, Reset, Submitted, Completed, ContentLength;
    match a
    case Accept(id) => AcceptKeeps(s, id);
    case BadHead(id, written) => FatalKeeps(s, id, written);
    case Head(id, r, written) => AfterHeadKeeps(s, p, id, r, written);
    case NoMemory(id, written) => FatalKeeps(s, id, written);
    case BrokenInput(id) => AbandonedKeeps(s, id);
    case Body(id, e, memory, accepted, written) =>
      BodyBooks(s, id);
      SubmittedKeeps(With(s, id, s.connections[id].(bodyBytes := ContentLength(s.connections[id]))), id, e, memory, accepted, written);
    case Flushed(id, enabled) => FlushedKeeps(s, id, enabled);
    case HangUp(id, endOfInput) => HangUpKeeps(s, id, endOfInput);
    case Work(e) => WorkKeeps(s, e);
    case Complete(e, ok) => CompletedKeeps(s, e, ok);
  }

  lemma HangUpKeeps(s: State, id: nat, endOfInput: bool)
    requires Inv(s) && id in s.connections && s.connections[id].open
    ensures Inv(With(s, id, s.connections[id].(closeAfter := true))) && Inv(Abandoned(s, id))
  {
    FlagFacts(s, id);
    hide Inv, Abandoned;
    FlagsKeep(s, id, s.connections[id].(closeAfter := true));
    AbandonedKeeps(s, id);
  }

  lemma InitialOk(s: State)
    requires Initial(s)
    ensures Inv(s)
  {
    assert Admitted(s) == map[] && Permits(s) == map[];
  }

  lemma {:induction false} RunKeeps(states: seq<State>, actions: seq<Action>, p: Policy, n: nat)
    requires Run(states, actions, p) && Initial(states[0]) && n < |states|
    ensures Inv(states[n])
  {
    hide Inv, Enabled, Next, Initial;
    if n == 0 {
      InitialOk(states[0]);
    } else {
      RunKeeps(states, actions, p, n - 1);
      assert Leads(states[n - 1], p, actions[n - 1], states[n]);
      StepKeeps(states[n - 1], p, actions[n - 1]);
    }
  }

  /**
   In every state of every run the writer limiter holds exactly the connections marked admitted and
   their bytes, the search limiter exactly the executions with a permit, and neither exceeds its
   maxima.  When all connections are gone, both are empty again.
   */
  lemma LedgersBalance(states: seq<State>, actions: seq<Action>, p: Policy, n: nat)
    requires Run(states, actions, p) && Initial(states[0]) && n < |states|
    ensures Balanced(states[n].writer, Admitted(states[n])) && Balanced(states[n].search, Permits(states[n]))
    ensures states[n].connections == map[] ==> states[n].writer.inflight == states[n].writer.bytes == states[n].search.inflight == states[n].search.bytes == 0
  {
    RunKeeps(states, actions, p, n);
    if states[n].connections == map[] {
      assert Admitted(states[n]) == map[] && Permits(states[n]) == map[];
      NobodyHolds(states[n].writer);
      NobodyHolds(states[n].search);
    }
  }
}
