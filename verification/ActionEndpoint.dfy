/** The bounded action endpoints of crates/crikey-app/src/modern_provider.rs and
    crates/crikey-app/src/native_provider.rs, which follow the same protocol: callers
    reserve a place in a shared counter, stamp an id and send to a bounded queue; the
    supervisor executes one action at a time and enqueues its completion; pollers
    collect completions and release the places.

    Each step is one atomic access. History fields record the order of events.
 */
module ActionEndpoints {
  import opened Integers
  import opened Text

  const ACTION_QUEUE_CAPACITY: nat := 8
  const ACTION_COMPLETION_CAPACITY: nat := 64
  const ACTION_IN_FLIGHT_CAPACITY: nat := 32

  /** The sequence number of a request; two requests differ in it. */
  type Id = u64

  datatype Supervisor = Looking | Executing(id: Id) | Draining | Gone

  datatype State = State(
    inFlight: nat,
    nextId: u64,
    callers: map<nat, Option<Id>>, // submit calls holding a place, with the id once stamped
    queue: seq<Id>,
    supervisor: Supervisor,
    mailbox: seq<Id>,
    poller: Option<Id>, // popped under the mailbox lock, its place not yet released
    stop: bool,
    stamped: nat, // history from here on
    admitted: seq<Id>,
    completed: seq<Id>,
    collected: seq<Id>,
    stranded: seq<Id>)

  const INITIAL: State := State(0, 0, map[], [], Looking, [], None, false, 0, [], [], [], [])

  datatype Action =
    | Reserve(caller: nat)
    | Stamp(caller: nat)
    | GiveUp(caller: nat) // no budget, or the send was refused
    | Send(caller: nat)
    | TakeAction
    | Finish
    | SetStop
    | BeginDrain
    | DrainOne
    | DropReceiver
    | Pop
    | Release

  predicate Enabled(s: State, a: Action) {
    match a
    case Reserve(c) => c !in s.callers && s.inFlight < ACTION_IN_FLIGHT_CAPACITY
    case Stamp(c) => c in s.callers && s.callers[c].None?
    case GiveUp(c) => c in s.callers
    case Send(c) => c in s.callers && s.callers[c].Some? && s.supervisor != Gone && |s.queue| < ACTION_QUEUE_CAPACITY
    case TakeAction => s.supervisor == Looking && !s.stop && s.queue != []
    case Finish => s.supervisor.Executing? && s.poller.None?
    case SetStop => true
    case BeginDrain => s.supervisor == Looking && s.stop
    case DrainOne => s.supervisor == Draining && s.queue != [] && s.poller.None?
    case DropReceiver => s.supervisor == Draining
    case Pop => s.poller.None? && s.mailbox != []
    case Release => s.poller.Some?
  }

  /** `fetch_sub(1)`, which wraps. */
  function Released(n: nat): (r: nat) {
    if n == 0 then U64_MAX else n - 1
  }

  /** `enqueue_modern_completion`, `enqueue_native_completion`: a full mailbox drops. */
  function Completed(s: State, id: Id): (r: State) {
    if |s.mailbox| >= ACTION_COMPLETION_CAPACITY then s
    else s.(mailbox := s.mailbox + [id], completed := s.completed + [id])
  }

  function Step(s: State, a: Action): (r: State)
    requires Enabled(s, a)
  {
    match a
    case Reserve(c) => s.(inFlight := s.inFlight + 1, callers := s.callers[c := None])
    case Stamp(c) =>
      s.(callers := s.callers[c := Some(s.nextId)], stamped := s.stamped + 1,
         nextId := if s.nextId == U64_MAX then 1 else s.nextId + 1)
    case GiveUp(c) => s.(inFlight := Released(s.inFlight), callers := s.callers - {c})
    case Send(c) =>
      var id := s.callers[c].value;
      s.(callers := s.callers - {c}, queue := s.queue + [id], admitted := s.admitted + [id])
    case TakeAction => s.(supervisor := Executing(s.queue[0]), queue := s.queue[1..])
    case Finish => Completed(s, s.supervisor.id).(supervisor := Looking)
    case SetStop => s.(stop := true)
    case BeginDrain => s.(supervisor := Draining)
    case DrainOne => Completed(s, s.queue[0]).(queue := s.queue[1..])
    case DropReceiver => s.(supervisor := Gone, stranded := s.queue, queue := [])
    case Pop => s.(poller := Some(s.mailbox[0]), mailbox := s.mailbox[1..])
    case Release =>
      s.(poller := None, collected := s.collected + [s.poller.value], inFlight := Released(s.inFlight))
  }

  predicate Possible(run: seq<Action>)
    decreases |run|, 0
  {
    run == [] || (Possible(run[..|run| - 1]) && Enabled(After(run[..|run| - 1]), run[|run| - 1]))
  }

  function After(run: seq<Action>): (s: State)
    requires Possible(run)
    decreases |run|, 1
  {
    if run == [] then INITIAL else Step(After(run[..|run| - 1]), run[|run| - 1])
  }

  // ---------------------------------------------------------------- places

  function Executed(s: State): (ids: seq<Id>) {
    if s.supervisor.Executing? then [s.supervisor.id] else []
  }

  function Popped(s: State): (ids: seq<Id>) {
    if s.poller.Some? then [s.poller.value] else []
  }

  /** Every place is held by exactly one call, queued, executing or uncollected action,
      or by one a shutdown stranded. */
  ghost predicate Counted(s: State) {
    && s.inFlight == |s.callers| + |s.queue| + |Executed(s)| + |s.mailbox| + |Popped(s)| + |s.stranded|
    && s.inFlight <= ACTION_IN_FLIGHT_CAPACITY
    && |s.queue| <= ACTION_QUEUE_CAPACITY
    && (s.stranded != [] ==> s.supervisor == Gone && s.stop)
    && (s.supervisor == Gone ==> s.queue == [])
    && (s.supervisor == Gone || s.supervisor == Draining ==> s.stop)
  }

  predicate ByCaller(a: Action) {
    a.Reserve? || a.Stamp? || a.GiveUp? || a.Send?
  }

  lemma CallerStepCounted(s: State, a: Action)
    requires Counted(s) && Enabled(s, a) && ByCaller(a)
    ensures Counted(Step(s, a))
  {
    match a
    case Reserve(c) => CallerCounted(s.callers, c, None);
    case Stamp(c) => CallerCounted(s.callers, c, Some(s.nextId));
    case GiveUp(c) => CallerCounted(s.callers, c, None);
    case Send(c) => CallerCounted(s.callers, c, None);
  }

  lemma OtherStepCounted(s: State, a: Action)
    requires Counted(s) && Enabled(s, a) && !ByCaller(a)
    ensures Counted(Step(s, a))
  {
  }

  lemma CallerCounted(m: map<nat, Option<Id>>, c: nat, v: Option<Id>)
    ensures c in m ==> |m - {c}| == |m| - 1
    ensures |m[c := v]| == |m| + if c in m then 0 else 1
  {
    assert (m - {c}).Keys == m.Keys - {c} && |m - {c}| == |(m - {c}).Keys|;
    assert m[c := v].Keys == m.Keys + {c} && |m[c := v]| == |m[c := v].Keys|;
    if c in m { assert m.Keys + {c} == m.Keys; }
  }

  // ---------------------------------------------------------------- order and number

  /** Admitted actions are completed, executing, queued or stranded, in that very order,
      and completions are collected in the order they came. */
  ghost predicate Conserved(s: State) {
    && s.admitted == s.completed + Executed(s) + s.queue + s.stranded
    && s.completed == s.collected + Popped(s) + s.mailbox
  }

  lemma AdmittedStep(s: State, a: Action)
    requires Counted(s) && Conserved(s) && Enabled(s, a)
    ensures var r := Step(s, a); r.admitted == r.completed + Executed(r) + r.queue + r.stranded
  {
    var r := Step(s, a);
    match a
    case Send(_) => assert s.stranded == [];
    case TakeAction => MoveFirst(s.completed, s.queue, s.stranded);
    case Finish => assert r.completed == s.completed + Executed(s);
    case DrainOne => MoveFirst(s.completed, s.queue, s.stranded);
    case DropReceiver => assert s.stranded == [];
    case _ =>
  }

  lemma MoveFirst(a: seq<Id>, b: seq<Id>, c: seq<Id>)
    requires b != []
    ensures a + [] + b + c == a + [b[0]] + b[1..] + c == (a + [b[0]]) + [] + b[1..] + c
  {
    assert b == [b[0]] + b[1..];
  }

  lemma CompletedStep(s: State, a: Action)
    requires Counted(s) && Conserved(s) && Enabled(s, a)
    ensures var r := Step(s, a); r.completed == r.collected + Popped(r) + r.mailbox
  {
    var r := Step(s, a);
    match a
    case Pop => MoveFirst(s.collected, s.mailbox, []);
    case Finish => Appended(s, s.supervisor.id);
    case DrainOne => Appended(s, s.queue[0]);
    case _ =>
  }

  lemma Appended(s: State, id: Id)
    requires s.completed == s.collected + Popped(s) + s.mailbox
    ensures s.completed + [id] == s.collected + Popped(s) + (s.mailbox + [id])
  {
  }

  /** Before the counter wraps, ids are told apart: no two calls or actions share one. */
  ghost predicate Fresh(s: State) {
    s.stamped <= U64_MAX + 1 ==>
      && (s.stamped <= U64_MAX ==> s.nextId == s.stamped)
      && (forall i | 0 <= i < |s.admitted| :: s.admitted[i] < s.stamped)
      && (forall i, j | 0 <= i < j < |s.admitted| :: s.admitted[i] != s.admitted[j])
      && (forall c | c in s.callers && s.callers[c].Some? ::
            s.callers[c].value < s.stamped && s.callers[c].value !in s.admitted)
      && (forall c, d | c in s.callers && d in s.callers && c != d && s.callers[c].Some? ::
            s.callers[c] != s.callers[d])
  }

  lemma FreshStep(s: State, a: Action)
    requires Fresh(s) && Enabled(s, a)
    ensures Fresh(Step(s, a))
  {
    match a
    case Stamp(c) => FreshStamp(s, c);
    case Send(c) => FreshSend(s, c);
    case _ =>
  }

  lemma FreshStamp(s: State, c: nat)
    requires Fresh(s) && Enabled(s, Stamp(c))
    ensures Fresh(Step(s, Stamp(c)))
  {
  }

  lemma FreshSend(s: State, c: nat)
    requires Fresh(s) && Enabled(s, Send(c))
    ensures Fresh(Step(s, Send(c)))
  {
  }

  ghost predicate Inv(s: State) {
    Counted(s) && Conserved(s) && Fresh(s)
  }

  lemma {:induction false} RunKeeps(run: seq<Action>)
    requires Possible(run)
    ensures Inv(After(run))
  {
    if run != [] {
      var s, a := After(run[..|run| - 1]), run[|run| - 1];
      RunKeeps(run[..|run| - 1]);
      if ByCaller(a) { CallerStepCounted(s, a); } else { OtherStepCounted(s, a); }
      AdmittedStep(s, a);
      CompletedStep(s, a);
      FreshStep(s, a);
    }
  }

  /** On every interleaving the counter is the places held, at most 32, so neither the
      completion mailbox nor the counter can overflow. */
  lemma PlacesBounded(run: seq<Action>)
    requires Possible(run)
    ensures var s := After(run);
            && s.inFlight == |s.callers| + |s.queue| + |Executed(s)| + |s.mailbox| + |Popped(s)| + |s.stranded|
               <= ACTION_IN_FLIGHT_CAPACITY
            && |s.mailbox| < ACTION_COMPLETION_CAPACITY && |s.queue| <= ACTION_QUEUE_CAPACITY
  {
    RunKeeps(run);
  }

  /** Until a stop, every admitted action is completed once and in order: completions are
      a prefix of the admissions, all of them once the supervisor is idle, and no id
      occurs twice. */
  lemma CompletedExactlyOnce(run: seq<Action>)
    requires Possible(run)
    ensures var s := After(run);
            && s.collected <= s.completed <= s.admitted
            && (!s.stop ==> s.admitted == s.completed + Executed(s) + s.queue)
            && (!s.stop && s.queue == [] && s.supervisor == Looking ==> s.completed == s.admitted)
            && (s.stamped <= U64_MAX + 1 ==> forall i, j | 0 <= i < j < |s.admitted| :: s.admitted[i] != s.admitted[j])
  {
    RunKeeps(run);
  }
}
