/** The query drivers of crates/crikey-app/src/native_provider.rs and
    crates/crikey-app/src/modern_provider.rs: submitters on any thread, a monotone
    `current`, a single-slot mailbox, and a supervisor thread that drives a job and
    publishes it through a gate. A modern run is one without refresh steps.

    Each step is one atomic access of the program: a load, a compare-and-swap, or what
    is done under one hold of the mailbox lock.
 */
module SupervisorDrivers {
  import opened Integers
  import opened Text

  datatype Job = Job(generation: u64, query: string)

  /** What was published: the generation and query shown, and the job whose pipeline
      state the rows came from. */
  datatype Frame = Frame(context: Job, presents: Option<Job>)

  /** A `submit` call between its steps. */
  datatype Submitter =
    | Observed(job: Job, seen: u64) // `current` loaded
    | Raised(job: Job) // `current` swapped, the mailbox not yet locked

  datatype Supervisor = Looking | Driving(job: Job) | Refreshing

  datatype State = State(
    current: u64,
    slot: Option<Job>,
    stop: bool,
    submitters: map<nat, Submitter>,
    supervisor: Supervisor,
    driven: Option<Job>, // the job the pipeline was last driven for
    lastContext: Option<Job>,
    published: seq<Frame>)

  const INITIAL: State := State(0, None, false, map[], Looking, None, None, [])

  datatype Action =
    | Load(thread: nat, job: Job)
    | Swap(thread: nat, spurious: bool)
    | Enqueue(thread: nat)
    | Stop
    | TakeJob
    | GateJob
    | TimeOut
    | GateRefresh(empty: bool) // `empty`: the pipeline had nothing to present

  predicate Enabled(s: State, a: Action) {
    match a
    case Load(t, _) => t !in s.submitters
    case Swap(t, _) => t in s.submitters && s.submitters[t].Observed?
    case Enqueue(t) => t in s.submitters && s.submitters[t].Raised?
    case Stop => true
    case TakeJob => s.supervisor == Looking && !s.stop && s.slot.Some?
    case GateJob => s.supervisor.Driving?
    case TimeOut => s.supervisor == Looking
    case GateRefresh(_) => s.supervisor == Refreshing
  }

  /** `submit` refuses an older generation, and swaps only what it observed. */
  function Swapped(s: State, t: nat, spurious: bool): (r: State)
    requires Enabled(s, Swap(t, spurious))
  {
    var Observed(job, seen) := s.submitters[t];
    if job.generation < seen then s.(submitters := s.submitters - {t})
    else if s.current == seen && !spurious then
      s.(current := job.generation, submitters := s.submitters[t := Raised(job)])
    else s.(submitters := s.submitters[t := Observed(job, s.current)])
  }

  function Enqueued(s: State, t: nat): (r: State)
    requires Enabled(s, Enqueue(t))
  {
    var rest := s.(submitters := s.submitters - {t});
    if s.stop then rest else rest.(slot := Some(s.submitters[t].job))
  }

  /** What the gate requires, under the mailbox lock. */
  predicate Passes(s: State, generation: u64) {
    !s.stop && s.slot.None? && s.current == generation
  }

  function Step(s: State, a: Action): (r: State)
    requires Enabled(s, a)
  {
    match a
    case Load(t, job) => s.(submitters := s.submitters[t := Observed(job, s.current)])
    case Swap(t, spurious) => Swapped(s, t, spurious)
    case Enqueue(t) => Enqueued(s, t)
    case Stop => s.(stop := true)
    case TakeJob => s.(supervisor := Driving(s.slot.value), driven := s.slot, slot := None)
    case GateJob =>
      var job := s.supervisor.job;
      if Passes(s, job.generation) then
        s.(supervisor := Looking, lastContext := Some(job), published := s.published + [Frame(job, Some(job))])
      else s.(supervisor := Looking)
    case TimeOut => s.(supervisor := Refreshing)
    case GateRefresh(empty) =>
      if s.lastContext.Some? && Passes(s, s.lastContext.value.generation) && !empty then
        s.(supervisor := Looking, published := s.published + [Frame(s.lastContext.value, s.driven)])
      else s.(supervisor := Looking)
  }

  predicate Possible(run: seq<Action>)
    decreases |run|, 0
  {
    run == [] || (Possible(run[..|run| - 1]) && Enabled(After(run[..|run| - 1]), run[|run| - 1]))
  }

  function After(run: seq<Action>): (s: State)
    requires Possible(run)
    decreases |run|, 1
  {
    if run == [] then INITIAL else Step(After(run[..|run| - 1]), run[|run| - 1])
  }

  // ---------------------------------------------------------------- every interleaving

  predicate AtMost(job: Option<Job>, limit: u64) {
    job.Some? ==> job.value.generation <= limit
  }

  ghost predicate Ascending(frames: seq<Frame>, limit: u64) {
    && (forall i | 0 <= i < |frames| :: frames[i].context.generation <= limit)
    && (forall i, j | 0 <= i < j < |frames| :: frames[i].context.generation <= frames[j].context.generation)
  }

  ghost predicate Inv(s: State) {
    && Ascending(s.published, s.current)
    && AtMost(s.slot, s.current) && AtMost(s.driven, s.current) && AtMost(s.lastContext, s.current)
    && (s.supervisor.Driving? ==> s.driven == Some(s.supervisor.job))
    && Caught(s.submitters, s.current)
  }

  /** No submitter is ahead of `current`. */
  ghost predicate Caught(submitters: map<nat, Submitter>, current: u64) {
    forall t | t in submitters ::
      (if submitters[t].Observed? then submitters[t].seen else submitters[t].job.generation) <= current
  }

  lemma StepCatches(s: State, a: Action)
    requires Caught(s.submitters, s.current) && Enabled(s, a)
    ensures Caught(Step(s, a).submitters, Step(s, a).current) && s.current <= Step(s, a).current
  {
  }

  /** Every step keeps the invariant and never lowers `current`; a step that publishes
      shows a generation that equals `current` with nothing queued and no stop set; once
      stop is set nothing is published and stop stays. */
  lemma StepSafe(s: State, a: Action)
    requires Inv(s) && Enabled(s, a)
    ensures Inv(Step(s, a)) && s.current <= Step(s, a).current
    ensures s.published <= Step(s, a).published && |Step(s, a).published| <= |s.published| + 1
    ensures Step(s, a).published != s.published ==>
              && !s.stop && s.slot.None?
              && Step(s, a).published[|s.published|].context.generation == s.current
    ensures s.stop ==> Step(s, a).stop
  {
    StepCatches(s, a);
    StepPublishes(s, a);
  }

  lemma StepPublishes(s: State, a: Action)
    requires AtMost(s.lastContext, s.current) && Ascending(s.published, s.current) && Enabled(s, a)
    ensures var r := Step(s, a);
            r.published == s.published ||
            (&& Passes(s, s.current) && |r.published| == |s.published| + 1 && s.published <= r.published
             && r.published[|s.published|].context.generation == s.current)
  {
  }

  lemma {:induction false} RunSafe(run: seq<Action>)
    requires Possible(run)
    ensures Inv(After(run))
  {
    if run != [] {
      RunSafe(run[..|run| - 1]);
      StepSafe(After(run[..|run| - 1]), run[|run| - 1]);
    }
  }

  /** Over every interleaving: `current` never falls, what was published stays, published
      generations never fall, and a stop is the end of publishing. */
  lemma {:induction false} RunMonotone(run: seq<Action>, n: nat)
    requires Possible(run) && n <= |run|
    ensures Possible(run[..n])
    ensures var s, r := After(run[..n]), After(run);
            && s.current <= r.current && s.published <= r.published && Ascending(r.published, r.current)
            && (s.stop ==> r.stop && r.published == s.published)
  {
    RunSafe(run);
    if n == |run| {
      assert run[..n] == run;
    } else {
      var last := |run| - 1;
      RunMonotone(run[..last], n);
      assert run[..last][..n] == run[..n];
      RunSafe(run[..last]);
      StepSafe(After(run[..last]), run[last]);
    }
  }

  // ---------------------------------------------------------------- what a refresh shows

  ghost predicate Truthful(frames: seq<Frame>) {
    forall i | 0 <= i < |frames| :: frames[i].presents == Some(frames[i].context)
  }

  /** Every job is still the newest when it reaches the slot. */
  predicate Timely(run: seq<Action>)
    requires Possible(run)
  {
    run == [] ||
    (&& Timely(run[..|run| - 1])
     && (run[|run| - 1].Enqueue? ==>
           var s := After(run[..|run| - 1]);
           s.submitters[run[|run| - 1].thread].job.generation == s.current))
  }

  /** Nothing newer than the slot or the job being driven was shown, and what a refresh
      may show is what was last driven. */
  ghost predicate Settled(s: State) {
    s.lastContext.Some? ==>
      var shown := s.lastContext.value.generation;
      && (s.slot.Some? ==> shown <= s.slot.value.generation)
      && (s.supervisor.Driving? ==> shown <= s.supervisor.job.generation)
      && (!s.supervisor.Driving? && Passes(s, shown) ==> s.driven == s.lastContext)
  }

  lemma StepSettles(s: State, a: Action)
    requires Inv(s) && Settled(s) && Truthful(s.published) && Enabled(s, a)
    requires a.Enqueue? ==> s.submitters[a.thread].job.generation == s.current
    ensures Settled(Step(s, a)) && Truthful(Step(s, a).published)
  {
    StepCatches(s, a);
  }

  /** Whatever the threads and generations, if every job is still the newest when it
      reaches the slot, every frame, a refresh included, presents the pipeline state
      driven for the job it is shown under. */
  lemma {:induction false} RefreshIsTruthful(run: seq<Action>)
    requires Possible(run) && Timely(run)
    ensures Settled(After(run)) && Truthful(After(run).published)
  {
    if run != [] {
      var before := run[..|run| - 1];
      RefreshIsTruthful(before);
      RunSafe(before);
      StepSettles(After(before), run[|run| - 1]);
    }
  }

  /** No call starts while another is under way. */
  predicate OneAtATime(run: seq<Action>)
    requires Possible(run)
  {
    run == [] ||
    (OneAtATime(run[..|run| - 1]) && (run[|run| - 1].Load? ==> After(run[..|run| - 1]).submitters == map[]))
  }

  ghost predicate OnlyCall(s: State) {
    && (forall t, u | t in s.submitters && u in s.submitters :: t == u)
    && (forall t | t in s.submitters && s.submitters[t].Raised? :: s.submitters[t].job.generation == s.current)
  }

  lemma {:induction false} OneCall(run: seq<Action>)
    requires Possible(run) && OneAtATime(run)
    ensures OnlyCall(After(run)) && Timely(run)
  {
    if run != [] {
      OneCall(run[..|run| - 1]);
    }
  }

  /** Calls that do not overlap suffice, from any threads and with any generations. */
  lemma OneAtATimeIsTruthful(run: seq<Action>)
    requires Possible(run) && OneAtATime(run)
    ensures Truthful(After(run).published)
  {
    OneCall(run);
    RefreshIsTruthful(run);
  }

  /** At rest: the newest job was shown, and nothing is queued. */
  predicate Resting(s: State) {
    s.supervisor == Looking && s.lastContext.Some? && Passes(s, s.lastContext.value.generation)
  }

  predicate Arriving(s: State, t: nat) {
    t in s.submitters && s.submitters[t].Raised?
  }

  /** A call that queues its job at rest, and the refresh after it. */
  function QueueAndRefresh(t: nat): (steps: seq<Action>) {
    [Enqueue(t), TakeJob, GateJob, TimeOut, GateRefresh(false)]
  }

  /** The exact condition, over every run that comes to rest: the refresh after a queued
      job is truthful if and only if that job was still the newest. */
  lemma LateJobMisleadsIff(run: seq<Action>, t: nat)
    requires Possible(run) && Resting(After(run)) && Arriving(After(run), t) && Truthful(After(run).published)
    ensures Possible(run + QueueAndRefresh(t))
    ensures Truthful(After(run + QueueAndRefresh(t)).published)
            <==> After(run).submitters[t].job.generation == After(run).current
  {
    ShownAfter(run, t);
    RunSafe(run);
    var s, r := After(run), After(run + QueueAndRefresh(t));
    if s.submitters[t].job.generation != s.current {
      assert r.published[|s.published|] == Frame(s.lastContext.value, Some(s.submitters[t].job));
    }
  }

  lemma ShownAfter(run: seq<Action>, t: nat)
    requires Possible(run) && Resting(After(run)) && Arriving(After(run), t)
    ensures Possible(run + QueueAndRefresh(t))
    ensures var s, job := After(run), After(run).submitters[t].job;
            After(run + QueueAndRefresh(t)).published == s.published +
              if job.generation == s.current then [Frame(job, Some(job)), Frame(job, Some(job))]
              else [Frame(s.lastContext.value, Some(job))]
  {
    var queued := QueueAndGate(run, t);
    var timed := Follow(queued, TimeOut);
    var last := Follow(timed, GateRefresh(false));
    assert last == run + QueueAndRefresh(t);
  }

  lemma QueueAndGate(run: seq<Action>, t: nat) returns (longer: seq<Action>)
    requires Possible(run) && Resting(After(run)) && Arriving(After(run), t)
    ensures longer == run + [Enqueue(t), TakeJob, GateJob] && Possible(longer)
    ensures var s, r, job := After(run), After(longer), After(run).submitters[t].job;
            && r.supervisor == Looking && r.driven == Some(job) && r.slot == None && !r.stop && r.current == s.current
            && r.lastContext == (if job.generation == s.current then Some(job) else s.lastContext)
            && r.published == s.published + if job.generation == s.current then [Frame(job, Some(job))] else []
  {
    longer := Follow(run, Enqueue(t));
    longer := Follow(longer, TakeJob);
    longer := Follow(longer, GateJob);
  }

  /** Two submitters are enough to be late: the older call queues its job after the newer
      one was published, its answer is dropped at the gate, and the next refresh shows its
      rows under the newer query. */
  lemma TwoSubmittersMislead(older: Job, newer: Job) returns (run: seq<Action>)
    requires 0 < older.generation < newer.generation
    ensures Possible(run)
    ensures After(run).published == [Frame(newer, Some(newer)), Frame(newer, Some(older))]
  {
    run := NewerShown(older, newer);
    ShownAfter(run, 1);
    run := run + QueueAndRefresh(1);
  }

  lemma NewerShown(older: Job, newer: Job) returns (run: seq<Action>)
    requires 0 < older.generation < newer.generation
    ensures Possible(run) && Resting(After(run)) && After(run).published == [Frame(newer, Some(newer))]
    ensures After(run).lastContext == Some(newer) && After(run).current == newer.generation
    ensures Arriving(After(run), 1) && After(run).submitters[1].job == older
  {
    run := BothRaised(older, newer);
    run := Follow(run, Enqueue(2));
    run := Follow(run, TakeJob);
    run := Follow(run, GateJob);
  }

  lemma BothRaised(older: Job, newer: Job) returns (run: seq<Action>)
    requires 0 < older.generation < newer.generation
    ensures Possible(run)
    ensures After(run) == INITIAL.(current := newer.generation,
              submitters := map[1 := Raised(older), 2 := Raised(newer)])
  {
    run := Follow([], Load(1, older));
    run := Follow(run, Swap(1, false));
    run := Follow(run, Load(2, newer));
    run := Follow(run, Swap(2, false));
    assert After(run).submitters == map[1 := Raised(older), 2 := Raised(newer)];
  }

  lemma Follow(run: seq<Action>, a: Action) returns (longer: seq<Action>)
    requires Possible(run) && Enabled(After(run), a)
    ensures longer == run + [a] && Possible(longer) && After(longer) == Step(After(run), a)
  {
    longer := run + [a];
    assert longer[..|run|] == run;
  }
}
