/**
 Connections of all reactors as a state machine.  Each step is one callback of an event loop or the
 completion of a piece of work; steps of different reactors interleave freely.
 */
module Reactor {
  import opened Common
  import opened Ledger

  datatype Target = Search | Retrieve | Ingest | Health | Unknown

  /** What parsing the head of a request yields. */
  datatype Request = Request(target: Target, methodOk: bool, json: bool, authorized: bool, length: Option<nat>, close: bool)

  datatype Connection = Connection(
    head: Option<Request>, bodyBytes: nat, execution: Option<nat>, abandoned: bool, open: bool,
    responsePending: bool, closeAfter: bool, admitted: bool)

  datatype Execution = Execution(connection: nat, permit: bool, done: bool)

  datatype State = State(writer: Limit, search: Limit, connections: map<nat, Connection>, executions: map<nat, Execution>)

  datatype Policy = Policy(ingestMaxBody: nat, maxBody: nat)

  const Fresh := Connection(None, 0, None, false, true, false, false, false)

  function ContentLength(c: Connection): nat {
    if c.head.Some? && c.head.value.length.Some? then c.head.value.length.value else 0
  }

  // ---------------------------------------------------------------- what callbacks do

  function With(s: State, id: nat, c: Connection): State {
    s.(connections := s.connections[id := c])
  }

  function Freed(s: State, id: nat): State
    requires id in s.connections
  {
    var c := s.connections[id];
    s.(connections := s.connections - {id}, writer := if c.admitted then Released(s.writer, ContentLength(c)) else s.writer)
  }

  /** Give the socket up; the record stays while a worker still uses it. */
  function Abandoned(s: State, id: nat): State
    requires id in s.connections
  {
    var c := s.connections[id];
    if c.execution.Some? then With(s, id, c.(open := false, abandoned := true)) else Freed(s, id)
  }

  /** Queue a response, or give the connection up when that fails. */
  function Responded(s: State, id: nat, written: bool): State
    requires id in s.connections
  {
    if written && s.connections[id].open then With(s, id, s.connections[id].(responsePending := true)) else Abandoned(s, id)
  }

  function FatalError(s: State, id: nat, written: bool): State
    requires id in s.connections
  {
    Responded(With(s, id, s.connections[id].(closeAfter := true)), id, written)
  }

  /** Keep-alive: forget the request and release its admission. */
  function Reset(s: State, id: nat): State
    requires id in s.connections
  {
    var c := s.connections[id];
    With(s, id, c.(head := None, bodyBytes := 0, responsePending := false, closeAfter := false, admitted := false)).(
      writer := if c.admitted then Released(s.writer, ContentLength(c)) else s.writer)
  }

  predicate Reading(s: State, id: nat) {
    id in s.connections && s.connections[id].open && s.connections[id].execution.None? && !s.connections[id].responsePending
  }

  function AfterHead(s: State, p: Policy, id: nat, r: Request, written: bool): State
    requires id in s.connections
  {
    var c := s.connections[id].(head := Some(r), closeAfter := r.close);
    var t := With(s, id, c);
    if r.length.None? then t
    else if r.length.value > (if r.target == Ingest then p.ingestMaxBody else p.maxBody) then FatalError(t, id, written)
    else if r.target == Ingest && r.length.value != 0 then
      var a := Acquired(s.writer, r.length.value);
      if a.None? then FatalError(t, id, written) else With(s, id, c.(admitted := true)).(writer := a.value)
    else t
  }

  /** Requests that are answered without any work. */
  predicate Refused(r: Request, bodyBytes: nat) {
    || r.target == Unknown || !r.methodOk
    || (r.target == Health && r.length.Some?)
    || (r.target != Health && (r.length.None? || bodyBytes == 0 || !r.json))
  }

  /** Hand the request to an executor: check, acquire a permit for searches, submit, undo on rejection. */
  function Submitted(s: State, id: nat, e: nat, memory: bool, accepted: bool, written: bool): State
    requires id in s.connections && s.connections[id].head.Some?
  {
    var c := s.connections[id];
    var r := c.head.value;
    if Refused(r, c.bodyBytes) || !memory then Responded(s, id, written)
    else if r.target == Ingest && !r.authorized then Responded(s, id, written)
    else if r.target == Search || r.target == Retrieve then
      var a := Acquired(s.search, c.bodyBytes);
      if a.None? then Responded(s, id, written)
      else if accepted then
        With(s, id, c.(execution := Some(e))).(search := a.value, executions := s.executions[e := Execution(id, true, false)])
      else Responded(s.(search := Released(a.value, c.bodyBytes)), id, written)
    else if accepted then
      With(s, id, c.(execution := Some(e))).(executions := s.executions[e := Execution(id, false, false)])
    else Responded(s, id, written)
  }

  /** The work is back: release the permit, then respond, abandon or free. */
  function Completed(s: State, e: nat, ok: bool): State
    requires e in s.executions && s.executions[e].connection in s.connections
  {
    var x := s.executions[e];
    var c := s.connections[x.connection];
    var t := With(s, x.connection, c.(execution := None)).(
      executions := s.executions - {e}, search := if x.permit then Released(s.search, c.bodyBytes) else s.search);
    if c.abandoned || !c.open then Freed(t, x.connection) else Responded(t, x.connection, ok)
  }

  // ---------------------------------------------------------------- steps

  datatype Action =
    | Accept(id: nat)
    | BadHead(id: nat, written: bool)
    | Head(id: nat, request: Request, written: bool)
    | NoMemory(id: nat, written: bool)
    | BrokenInput(id: nat)
    | Body(id: nat, execution: nat, memory: bool, accepted: bool, written: bool)
    | Flushed(id: nat, enabled: bool)
    | HangUp(id: nat, endOfInput: bool)
    | Work(execution: nat)
    | Complete(execution: nat, ok: bool)

  predicate Enabled(s: State, a: Action) {
    match a
    case Accept(id) => id !in s.connections
    case BadHead(id, _) => Reading(s, id) && s.connections[id].head.None?
    case Head(id, _, _) => Reading(s, id) && s.connections[id].head.None?
    case NoMemory(id, _) => Reading(s, id) && s.connections[id].head.Some?
    case BrokenInput(id) => Reading(s, id) && s.connections[id].head.Some?
    case Body(id, e, _, _, _) => Reading(s, id) && s.connections[id].head.Some? && e !in s.executions
    case Flushed(id, _) => id in s.connections && s.connections[id].open && s.connections[id].responsePending
    case HangUp(id, _) => id in s.connections && s.connections[id].open
    case Work(e) => e in s.executions && !s.executions[e].done
    case Complete(e, _) => e in s.executions && s.executions[e].done && s.executions[e].connection in s.connections
  }

  function Next(s: State, p: Policy, a: Action): State
    requires Enabled(s, a)
  {
    match a
    case Accept(id) => With(s, id, Fresh)
    case BadHead(id, written) => FatalError(s, id, written)
    case Head(id, r, written) => AfterHead(s, p, id, r, written)
    case NoMemory(id, written) => FatalError(s, id, written)
    case BrokenInput(id) => Abandoned(s, id)
    case Body(id, e, memory, accepted, written) =>
      Submitted(With(s, id, s.connections[id].(bodyBytes := ContentLength(s.connections[id]))), id, e, memory, accepted, written)
    case Flushed(id, enabled) =>
      if s.connections[id].closeAfter then Abandoned(s, id)
      else if enabled then Reset(s, id) else Abandoned(Reset(s, id), id)
    case HangUp(id, endOfInput) =>
      if endOfInput && (s.connections[id].execution.Some? || s.connections[id].responsePending)
      then With(s, id, s.connections[id].(closeAfter := true)) else Abandoned(s, id)
    case Work(e) => s.(executions := s.executions[e := s.executions[e].(done := true)])
    case Complete(e, ok) => Completed(s, e, ok)
  }

  ghost predicate Leads(s: State, p: Policy, a: Action, t: State) {
    Enabled(s, a) && t == Next(s, p, a)
  }

  /** Any interleaving of callbacks and completions. */
  ghost predicate Run(states: seq<State>, actions: seq<Action>, p: Policy) {
    && |states| == |actions| + 1
    && forall i, j :: 0 <= i < j < |states| && j == i + 1 ==> Leads(states[i], p, actions[i], states[j])
  }

  predicate Initial(s: State) {
    s.connections == map[] && s.executions == map[] && s.writer.inflight == 0 && s.writer.bytes == 0 && s.search.inflight == 0 && s.search.bytes == 0
  }

  // ---------------------------------------------------------------- the ledger

  /** Bytes of every connection that is marked admitted. */
  function Admitted(s: State): Holders {
    map id | id in s.connections && s.connections[id].admitted :: ContentLength(s.connections[id])
  }

  /** Bytes of every execution that holds a search permit. */
  function Permits(s: State): Holders {
    map e | e in s.executions && s.executions[e].permit ::
      if s.executions[e].connection in s.connections then s.connections[s.executions[e].connection].bodyBytes else 0
  }

  /** Connections and executions point at each other, and a closed connection only waits for its work. */
  predicate Linked(s: State) {
    && (forall id :: id in s.connections && s.connections[id].execution.Some? ==>
          s.connections[id].execution.value in s.executions && s.executions[s.connections[id].execution.value].connection == id)
    && (forall e :: e in s.executions ==>
          s.executions[e].connection in s.connections && s.connections[s.executions[e].connection].execution == Some(e))
    && (forall id :: id in s.connections && s.connections[id].responsePending ==> s.connections[id].execution.None?)
    && (forall id :: id in s.connections && !s.connections[id].open ==> s.connections[id].execution.Some?)
    && (forall id :: id in s.connections && s.connections[id].admitted ==> s.connections[id].head.Some?)
  }

  ghost predicate Inv(s: State) {
    Linked(s) && Balanced(s.writer, Admitted(s)) && Balanced(s.search, Permits(s))
  }
}
