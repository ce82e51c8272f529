/** The catalog dispatchers of crates/crikey-app/src/modern_provider.rs and
    crates/crikey-app/src/native_provider.rs: builds run on their own threads, send one
    result each into a bounded channel, and the newest request of a plugin wins.

    A worker's send and the dispatcher's calls interleave freely. Requesting spawns the
    worker and records its task in one step: between the two the dispatcher does nothing
    else, and a send in between only lengthens the channel.
 */
module CatalogDispatchers {
  import opened Integers

  const CATALOG_RESULT_CAPACITY: nat := 64

  type Plugin = string

  /** A finished build in the channel. */
  datatype Result = Result(id: u64, built: bool)

  datatype Outcome =
    | Complete(plugin: Plugin, id: u64)
    | Obsolete(plugin: Plugin, id: u64)
    | Failed(plugin: Plugin, id: u64)

  datatype State = State(
    tasks: map<u64, Plugin>,
    latest: map<Plugin, u64>,
    nextId: u64,
    running: set<u64>, // workers that have not sent yet
    channel: seq<Result>,
    issued: nat, // history from here on
    outcomes: seq<Outcome>)

  const INITIAL: State := State(map[], map[], 0, {}, [], 0, [])

  datatype Action =
    | Request(plugin: Plugin)
    | SpawnRefused(plugin: Plugin)
    | Finish(id: u64, built: bool)
    | TakeOne

  function NextId(id: u64): (r: u64) {
    if id == U64_MAX then 1 else id + 1
  }

  predicate Enabled(s: State, a: Action) {
    match a
    case Request(_) => |s.tasks| < CATALOG_RESULT_CAPACITY
    case SpawnRefused(_) => |s.tasks| < CATALOG_RESULT_CAPACITY
    case Finish(id, _) => id in s.running && |s.channel| < CATALOG_RESULT_CAPACITY // a full channel blocks the sender
    case TakeOne => s.channel != []
  }

  /** How `take` reports one result. */
  function Judged(s: State, plugin: Plugin, r: Result): (o: Outcome) {
    if !r.built then Failed(plugin, r.id)
    else if plugin in s.latest && s.latest[plugin] != r.id then Obsolete(plugin, r.id)
    else Complete(plugin, r.id)
  }

  function Step(s: State, a: Action): (r: State)
    requires Enabled(s, a)
  {
    match a
    case Request(plugin) =>
      var id := NextId(s.nextId);
      s.(nextId := id, tasks := s.tasks[id := plugin], latest := s.latest[plugin := id],
         running := s.running + {id}, issued := s.issued + 1)
    case SpawnRefused(_) => s.(nextId := NextId(s.nextId), issued := s.issued + 1)
    case Finish(id, built) => s.(running := s.running - {id}, channel := s.channel + [Result(id, built)])
    case TakeOne =>
      var first, rest := s.channel[0], s.(channel := s.channel[1..]);
      if first.id !in s.tasks then rest
      else rest.(tasks := s.tasks - {first.id}, outcomes := s.outcomes + [Judged(s, s.tasks[first.id], first)])
  }

  predicate Possible(run: seq<Action>)
    decreases |run|, 0
  {
    run == [] || (Possible(run[..|run| - 1]) && Enabled(After(run[..|run| - 1]), run[|run| - 1]))
  }

  function After(run: seq<Action>): (s: State)
    requires Possible(run)
    decreases |run|, 1
  {
    if run == [] then INITIAL else Step(After(run[..|run| - 1]), run[|run| - 1])
  }

  // ---------------------------------------------------------------- room in the channel

  function Sent(channel: seq<Result>): (ids: set<u64>) {
    set i | 0 <= i < |channel| :: channel[i].id
  }

  ghost predicate Separate(channel: seq<Result>) {
    forall i, j | 0 <= i < j < |channel| :: channel[i].id != channel[j].id
  }

  /** Before ids wrap, a live task is a running worker or a result in the channel, never
      both, so every sender has room. */
  ghost predicate Roomy(s: State) {
    && s.nextId == s.issued
    && (forall id | id in s.tasks :: id <= s.nextId)
    && s.tasks.Keys == s.running + Sent(s.channel) && s.running !! Sent(s.channel)
    && Separate(s.channel)
    && |s.running| + |s.channel| == |s.tasks| <= CATALOG_RESULT_CAPACITY
  }

  lemma MapGrows(m: map<u64, Plugin>, id: u64, p: Plugin)
    requires id !in m
    ensures m[id := p].Keys == m.Keys + {id} && |m[id := p]| == |m| + 1
  {
    assert m[id := p].Keys == m.Keys + {id};
    assert |m[id := p]| == |m[id := p].Keys| && |m| == |m.Keys|;
  }

  lemma RoomyRequest(s: State, plugin: Plugin)
    requires Roomy(s) && Enabled(s, Request(plugin)) && s.issued < U64_MAX
    ensures Roomy(Step(s, Request(plugin)))
  {
    var id := NextId(s.nextId);
    assert id !in s.tasks;
    FreshId(s.tasks.Keys, s.running, Sent(s.channel), id);
    MapGrows(s.tasks, id, plugin);
  }

  lemma FreshId(tasks: set<u64>, running: set<u64>, sent: set<u64>, id: u64)
    requires tasks == running + sent && running !! sent && id !in tasks
    ensures tasks + {id} == (running + {id}) + sent && (running + {id}) !! sent && |running + {id}| == |running| + 1
  {
    assert id !in running && id !in sent;
    SetGrows(running, id);
  }

  lemma SetGrows(s: set<u64>, id: u64)
    ensures id !in s ==> |s + {id}| == |s| + 1
    ensures id in s ==> |s - {id}| == |s| - 1
  {
  }

  lemma SeparateMore(channel: seq<Result>, r: Result)
    requires Separate(channel) && r.id !in Sent(channel)
    ensures Separate(channel + [r])
  {
    assert forall i | 0 <= i < |channel| :: channel[i].id in Sent(channel);
  }

  lemma RoomyFinish(s: State, id: u64, built: bool)
    requires Roomy(s) && Enabled(s, Finish(id, built))
    ensures Roomy(Step(s, Finish(id, built)))
  {
    SentMore(s.channel, Result(id, built));
    SeparateMore(s.channel, Result(id, built));
    MovedId(s.tasks.Keys, s.running, Sent(s.channel), id);
  }

  lemma MovedId(tasks: set<u64>, running: set<u64>, sent: set<u64>, id: u64)
    requires tasks == running + sent && running !! sent && id in running
    ensures tasks == (running - {id}) + (sent + {id}) && (running - {id}) !! (sent + {id})
    ensures |running - {id}| == |running| - 1
  {
    SetGrows(running, id);
  }

  lemma RoomyTake(s: State)
    requires Roomy(s) && Enabled(s, TakeOne)
    ensures Roomy(Step(s, TakeOne)) && s.channel[0].id in s.tasks
  {
    var r, first := Step(s, TakeOne), s.channel[0];
    SentFirst(s.channel);
    assert first.id in s.tasks.Keys;
    assert r.tasks.Keys == s.tasks.Keys - {first.id};
    assert |r.tasks| == |r.tasks.Keys| && |s.tasks| == |s.tasks.Keys|;
  }

  lemma RoomyStep(s: State, a: Action)
    requires Roomy(s) && Enabled(s, a) && Step(s, a).issued <= U64_MAX
    ensures Roomy(Step(s, a))
  {
    match a
    case Request(plugin) => RoomyRequest(s, plugin);
    case SpawnRefused(_) =>
    case Finish(id, built) => RoomyFinish(s, id, built);
    case TakeOne => RoomyTake(s);
  }

  lemma SentMore(channel: seq<Result>, r: Result)
    ensures Sent(channel + [r]) == Sent(channel) + {r.id}
  {
    var longer := channel + [r];
    forall x | x in Sent(channel) + {r.id} ensures x in Sent(longer) {
      if x == r.id {
        assert longer[|channel|].id == x;
      } else {
        var i :| 0 <= i < |channel| && channel[i].id == x;
        assert longer[i].id == x;
      }
    }
  }

  lemma SentFirst(channel: seq<Result>)
    requires channel != [] && Separate(channel)
    ensures Sent(channel[1..]) == Sent(channel) - {channel[0].id} && channel[0].id in Sent(channel)
  {
    assert channel[0].id in Sent(channel);
    forall x | x in Sent(channel) && x != channel[0].id ensures x in Sent(channel[1..]) {
      var i :| 0 <= i < |channel| && channel[i].id == x;
      assert channel[1..][i - 1].id == x;
    }
  }

  // ---------------------------------------------------------------- newest wins

  ghost predicate IdsRise(outcomes: seq<Outcome>) {
    forall i, j | && 0 <= i < j < |outcomes| && outcomes[i].Complete? && outcomes[j].Complete?
                  && outcomes[i].plugin == outcomes[j].plugin ::
      outcomes[i].id < outcomes[j].id
  }

  /** The newest id of each plugin bounds its tasks and completions, and a completed
      build left its task behind. */
  ghost predicate Newest(s: State) {
    && (forall p | p in s.latest :: s.latest[p] <= s.nextId)
    && (forall id | id in s.tasks :: s.tasks[id] in s.latest && id <= s.latest[s.tasks[id]])
    && (forall o | o in s.outcomes && o.Complete? ::
          o.plugin in s.latest && o.id <= s.latest[o.plugin] && o.id !in s.tasks)
    && IdsRise(s.outcomes)
  }

  lemma RiseMore(outcomes: seq<Outcome>, o: Outcome)
    requires IdsRise(outcomes)
    requires forall q | q in outcomes && q.Complete? && o.Complete? && q.plugin == o.plugin :: q.id < o.id
    ensures IdsRise(outcomes + [o])
  {
    assert forall i | 0 <= i < |outcomes| :: outcomes[i] in outcomes;
  }

  lemma NewestTake(s: State)
    requires Newest(s) && Enabled(s, TakeOne) && s.channel[0].id in s.tasks
    ensures Newest(Step(s, TakeOne))
  {
    var first := s.channel[0];
    var o := Judged(s, s.tasks[first.id], first);
    var r := Step(s, TakeOne);
    assert r.outcomes == s.outcomes + [o];
    forall q | q in s.outcomes && q.Complete? && o.Complete? && q.plugin == o.plugin ensures q.id < o.id {
      assert q.id <= s.latest[q.plugin] == o.id;
    }
    RiseMore(s.outcomes, o);
    forall q | q in r.outcomes && q.Complete?
      ensures q.plugin in r.latest && q.id <= r.latest[q.plugin] && q.id !in r.tasks
    {
      assert q in s.outcomes || q == o;
    }
  }

  lemma NewestStep(s: State, a: Action)
    requires Roomy(s) && Newest(s) && Enabled(s, a) && Step(s, a).issued <= U64_MAX
    ensures Newest(Step(s, a))
  {
    if a.TakeOne? {
      RoomyTake(s);
      NewestTake(s);
    }
  }

  lemma {:induction false} RunKeeps(run: seq<Action>)
    requires Possible(run) && After(run).issued <= U64_MAX
    ensures Roomy(After(run)) && Newest(After(run))
  {
    if run != [] {
      var s, a := After(run[..|run| - 1]), run[|run| - 1];
      RunKeeps(run[..|run| - 1]);
      RoomyStep(s, a);
      NewestStep(s, a);
    }
  }

  /** Whenever a worker wants to send, the channel has room: a finishing build never blocks. */
  lemma FinishNeverBlocks(run: seq<Action>, id: u64, built: bool)
    requires Possible(run) && After(run).issued <= U64_MAX && id in After(run).running
    ensures Enabled(After(run), Finish(id, built))
    ensures |After(run).channel| < |After(run).tasks| <= CATALOG_RESULT_CAPACITY
  {
    RunKeeps(run);
    assert |After(run).running| > 0;
  }

  lemma FinishOne(run: seq<Action>, id: u64) returns (next: seq<Action>)
    requires Possible(run) && After(run).issued <= U64_MAX && id in After(run).running
    ensures next == run + [Finish(id, false)] && Possible(next)
    ensures After(next).running == After(run).running - {id} && After(next).issued == After(run).issued
  {
    FinishNeverBlocks(run, id, false);
    next := run + [Finish(id, false)];
    assert next[..|run|] == run;
  }

  lemma Prefixed(run: seq<Action>, first: Action, more: seq<Action>) returns (all: seq<Action>)
    requires first.Finish? && OnlyFinishes(more)
    ensures OnlyFinishes(all) && run + all == (run + [first]) + more
  {
    all := [first] + more;
  }

  predicate OnlyFinishes(actions: seq<Action>) {
    forall i | 0 <= i < |actions| :: actions[i].Finish?
  }

  /** Shutdown joins every worker before it takes any result. From any reachable state the
      workers can all finish with nothing taken meanwhile, so it cannot deadlock. */
  lemma {:induction false} JoinThenDrain(run: seq<Action>) returns (finishes: seq<Action>)
    requires Possible(run) && After(run).issued <= U64_MAX
    ensures OnlyFinishes(finishes) && Possible(run + finishes) && After(run + finishes).running == {}
    decreases After(run).running
  {
    if After(run).running == {} {
      finishes := [];
      assert run + finishes == run;
    } else {
      var id :| id in After(run).running;
      var next := FinishOne(run, id);
      var more := JoinThenDrain(next);
      finishes := Prefixed(run, Finish(id, false), more);
    }
  }

  /** Builds reported complete have strictly increasing ids per plugin. */
  lemma CompletionsRise(run: seq<Action>)
    requires Possible(run) && After(run).issued <= U64_MAX
    ensures IdsRise(After(run).outcomes)
  {
    RunKeeps(run);
  }

  /** A build reported complete was its plugin's newest request when taken, and one that
      was not is reported obsolete. */
  lemma NewestWins(run: seq<Action>)
    requires Possible(run) && After(run).issued <= U64_MAX && After(run).channel != []
    ensures var s := After(run);
            var first := s.channel[0];
            && first.id in s.tasks && s.tasks[first.id] in s.latest
            && Step(s, TakeOne).outcomes == s.outcomes + [Judged(s, s.tasks[first.id], first)]
            && (Judged(s, s.tasks[first.id], first).Complete? <==>
                 first.built && s.latest[s.tasks[first.id]] == first.id)
  {
    RunKeeps(run);
    RoomyTake(After(run));
  }
}
