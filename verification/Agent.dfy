/** The secret agent of internal/nm/agent.go: pending GetSecrets requests that a
    surface, NetworkManager, a timeout or the shutdown may resolve, whoever comes
    first. Every method is one critical section of the agent's mutex. */
module Agent {
  import opened Options
  import opened Visiting

  type Id = string
  type Path = string

  datatype Outcome = Answered | Cancelled | TimedOut
  datatype Answer = Answer(secrets: map<string, string>, save: bool)

  const NO_ANSWER := Answer(map[], false)

  /** How a request ended. */
  datatype Ending = Ending(outcome: Outcome, answer: Answer, byNM: bool)

  /** One GetSecrets call; ending is Some exactly when its done channel is closed. */
  datatype Request = Request(path: Path, setting: string, fields: seq<string>, ending: Option<Ending>) {
    predicate Open() { ending == None }
  }

  /** Where the goroutine of a GetSecrets call stands: in its select, past it and
      waiting for done, or returned with what it read. */
  datatype Waiter = Selecting | Draining | Returned(ending: Ending)

  /** A resolved callback: the id and the outcome it reports. */
  datatype Call = Call(id: Id, outcome: Outcome)

  /** requests holds every request ever made; pending the ids the agent still
      knows; due the callbacks taken but not yet run; ran those that ran; handled
      the requests resolved while a handler was set, on a path that keeps the
      callback; closes how often each done channel was closed. */
  datatype State = State(
    requests: map<Id, Request>, pending: set<Id>, waiters: map<Id, Waiter>,
    handler: bool, due: multiset<Call>, ran: multiset<Call>,
    handled: set<Id>, closes: map<Id, nat>)

  const START := State(map[], {}, map[], false, multiset{}, multiset{}, {}, map[])

  datatype Reply = Ok | NotFound | Conflict(outcome: Outcome) | NoneRequested

  // ---- resolving ----

  predicate IsOpen(s: State, id: Id) { id in s.pending && id in s.requests && s.requests[id].Open() }

  /** resolveLocked on an open request; keep says whether the caller runs the
      callback it gets back. */
  function Resolve(s: State, id: Id, e: Ending, keep: bool): State
    requires id in s.requests && id in s.closes
  {
    var call := keep && s.handler;
    s.(requests := s.requests[id := s.requests[id].(ending := Some(e))],
       closes := s.closes[id := s.closes[id] + 1],
       due := if call then s.due + multiset{Call(id, e.outcome)} else s.due,
       handled := if call then s.handled + {id} else s.handled)
  }

  predicate SameKnown(s: State) { s.pending <= s.requests.Keys && s.requests.Keys == s.closes.Keys }

  /** Resolve every open request among ids, visited in the order Go happens to
      iterate the map; requests that are not open are left alone. */
  function ResolveAll(s: State, ids: seq<Id>, e: Ending, keep: bool): (r: State)
    requires SameKnown(s)
    ensures SameKnown(r) && r.pending == s.pending && r.waiters == s.waiters && r.requests.Keys == s.requests.Keys
  {
    if ids == [] then s
    else
      var rest, id := ResolveAll(s, ids[..|ids| - 1], e, keep), ids[|ids| - 1];
      if IsOpen(rest, id) then Resolve(rest, id, e, keep) else rest
  }

  function Matching(s: State, path: Path, setting: string): set<Id> {
    set id | id in s.pending && IsOpen(s, id) && s.requests[id].path == path && s.requests[id].setting == setting
  }

  // ---- the steps ----

  /** getSecrets up to its select: supersede what is open for the same profile and
      setting, throwing those callbacks away, then enter the new request. */
  function Begin(s: State, id: Id, path: Path, setting: string, fields: seq<string>, order: seq<Id>): State
    requires SameKnown(s) && id !in s.requests
  {
    Enter(ResolveAll(s, order, Ending(Cancelled, NO_ANSWER, true), false), id, path, setting, fields)
  }

  /** A new request, open, with its GetSecrets waiting. */
  function Enter(t: State, id: Id, path: Path, setting: string, fields: seq<string>): State {
    t.(requests := t.requests[id := Request(path, setting, fields, None)],
       pending := t.pending + {id},
       waiters := t.waiters[id := Selecting],
       closes := t.closes[id := 0])
  }

  /** resolve: a request the agent has forgotten is left alone. */
  function ResolveIfKnown(s: State, id: Id, e: Ending): State
    requires SameKnown(s)
  {
    if IsOpen(s, id) then Resolve(s, id, e, true) else s
  }

  predicate Carries(fields: seq<string>, ans: Answer) { exists f :: f in fields && f in ans.secrets }

  function AnswerStep(s: State, id: Id, ans: Answer): (State, Reply)
    requires SameKnown(s)
  {
    if id !in s.pending then (s, NotFound)
    else if !s.requests[id].Open() then (s, Conflict(s.requests[id].ending.value.outcome))
    else if !Carries(s.requests[id].fields, ans) then (s, NoneRequested)
    else (Resolve(s, id, Ending(Answered, ans, false), true), Ok)
  }

  function CancelStep(s: State, id: Id): (State, Reply)
    requires SameKnown(s)
  {
    if id !in s.pending then (s, NotFound)
    else if !s.requests[id].Open() then (s, Conflict(s.requests[id].ending.value.outcome))
    else (Resolve(s, id, Ending(Cancelled, NO_ANSWER, false), true), Ok)
  }

  datatype Action =
    | GetSecrets(id: Id, path: Path, setting: string, fields: seq<string>, order: seq<Id>)
    | DoAnswer(id: Id, ans: Answer)
    | DoCancel(id: Id)
    | CancelByNM(path: Path, setting: string, order: seq<Id>)
    | CancelAll(order: seq<Id>)
    | TimerFires(id: Id)
    | ShutdownSeen(id: Id)
    | DoneSeen(id: Id)
    | Return(id: Id)
    | Forget(id: Id)
    | SetHandler(on: bool)
    | RunCallback(call: Call)

  /** When an action can happen. */
  ghost predicate Enabled(s: State, a: Action) {
    match a
    case GetSecrets(id, path, setting, _, order) => id !in s.requests && Visits(order, Matching(s, path, setting))
    case CancelByNM(path, setting, order) => Visits(order, Matching(s, path, setting))
    case CancelAll(order) => Visits(order, s.pending)
    case TimerFires(id) => id in s.waiters && s.waiters[id] == Selecting
    case ShutdownSeen(id) => id in s.waiters && s.waiters[id] == Selecting
    case DoneSeen(id) => id in s.waiters && s.waiters[id] == Selecting && id in s.requests && !s.requests[id].Open()
    case Return(id) => id in s.waiters && s.waiters[id] == Draining && id in s.requests && !s.requests[id].Open()
    case Forget(id) => id in s.waiters && s.waiters[id].Returned?
    case RunCallback(call) => call in s.due
    case _ => true
  }

  ghost function Step(s: State, a: Action): State
    requires SameKnown(s) && Enabled(s, a)
  {
    match a
    case GetSecrets(id, path, setting, fields, order) => Begin(s, id, path, setting, fields, order)
    case DoAnswer(id, ans) => AnswerStep(s, id, ans).0
    case DoCancel(id) => CancelStep(s, id).0
    case CancelByNM(path, setting, order) => ResolveAll(s, order, Ending(Cancelled, NO_ANSWER, true), true)
    case CancelAll(order) => ResolveAll(s, order, Ending(Cancelled, NO_ANSWER, false), true)
    case TimerFires(id) => ResolveIfKnown(s.(waiters := s.waiters[id := Draining]), id, Ending(TimedOut, NO_ANSWER, false))
    case ShutdownSeen(id) => ResolveIfKnown(s.(waiters := s.waiters[id := Draining]), id, Ending(Cancelled, NO_ANSWER, false))
    case DoneSeen(id) => s.(waiters := s.waiters[id := Draining])
    case Return(id) => s.(waiters := s.waiters[id := Returned(s.requests[id].ending.value)])
    case Forget(id) => s.(pending := s.pending - {id})
    case SetHandler(on) => s.(handler := on)
    case RunCallback(call) => s.(due := s.due - multiset{call}, ran := s.ran + multiset{call})
  }

  // ---- what every step keeps ----

  /** A request's book-keeping: its done channel was closed once iff it is resolved,
      its waiter agrees with it, and its callback was taken exactly once iff a
      handler was there to take it. */
  ghost predicate Sound(s: State, id: Id)
    requires SameKnown(s)
  {
    && (id in s.requests <==> id in s.waiters)
    && (id in s.requests ==>
      && s.closes[id] == (if s.requests[id].Open() then 0 else 1)
      && (s.waiters[id].Returned? ==> s.requests[id].ending == Some(s.waiters[id].ending))
      && (s.waiters[id] == Draining ==> !s.requests[id].Open())
      && (!s.waiters[id].Returned? ==> id in s.pending))
    && (id in s.handled ==> id in s.requests && !s.requests[id].Open())
    && (forall o :: (s.due + s.ran)[Call(id, o)] ==
          if id in s.handled && s.requests[id].ending.value.outcome == o then 1 else 0)
  }

  ghost predicate OneOpenEach(s: State) {
    forall x, y :: (IsOpen(s, x) && IsOpen(s, y)
      && s.requests[x].path == s.requests[y].path && s.requests[x].setting == s.requests[y].setting) ==> x == y
  }

  ghost predicate Inv(s: State) {
    SameKnown(s) && OneOpenEach(s) && forall id :: Sound(s, id)
  }
}
