/** The plugin icon resolver of crates/crikey-app/src/plugin_icons.rs: a memo, a set of
    fetches in flight and a count of transient failures, each behind its own lock, used
    by any number of callers and fetch threads.

    Each step is what one hold of one lock does. A caller that holds the in-flight lock
    takes the memo lock inside it, so its look at the memo and its decision are two steps
    during which other threads may still write the memo.
 */
module IconResolvers {
  import opened Text

  const MAX_RESOLVED_ICONS: nat := 512
  const MAX_CONCURRENT_FETCHES: nat := 4
  const MAX_ICON_FETCH_ATTEMPTS: nat := 3

  datatype Key = Key(plugin: string, reference: string)

  /** Why an entry is memoized: pixels or bytes that do not decode, a definite absence, a
      package file, or a spent allowance. */
  datatype Memo = Answered | Absent | Package | GaveUp

  datatype Fetch = Found | NotThere | Unavailable

  /** A fetch thread between its steps. */
  datatype Worker =
    | Claimed // slot taken, thread not started
    | Fetching
    | Storing(memo: Memo)
    | Stored
    | Leaving

  /** A caller holding the in-flight lock, and whether the memo had its reference. */
  datatype Caller = Caller(key: Key, hit: bool)

  datatype State = State(
    memo: map<Key, Memo>,
    inflight: set<Key>,
    attempts: map<Key, nat>,
    holder: Option<Caller>,
    workers: map<Key, Worker>,
    started: map<Key, nat>, // fetches started since the memo was last cleared
    missed: map<Key, nat>) // transient failures over the whole run

  const INITIAL: State := State(map[], {}, map[], None, map[], map[], map[])

  datatype Action =
    | StorePackage(key: Key)
    | Look(key: Key)
    | Decide
    | Spawn(key: Key)
    | SpawnFailed(key: Key)
    | Answer(key: Key, fetch: Fetch)
    | Store(key: Key)
    | Forget(key: Key)
    | Leave(key: Key)

  function Count(m: map<Key, nat>, k: Key): (n: nat) {
    if k in m then m[k] else 0
  }

  /** Whether a plugin's icons are served by the plugin itself, fixed per resolver. */
  type Origins = string -> bool

  predicate At(s: State, k: Key, w: Worker) {
    k in s.workers && s.workers[k] == w
  }

  predicate Enabled(served: Origins, s: State, a: Action) {
    match a
    case StorePackage(k) => !served(k.plugin)
    case Look(k) => served(k.plugin) && s.holder.None?
    case Decide => s.holder.Some?
    case Spawn(k) => At(s, k, Claimed)
    case SpawnFailed(k) => At(s, k, Claimed) && s.holder.None?
    case Answer(k, _) => At(s, k, Fetching)
    case Store(k) => k in s.workers && s.workers[k].Storing?
    case Forget(k) => At(s, k, Stored)
    case Leave(k) => At(s, k, Leaving) && s.holder.None?
  }

  /** `store`: a full memo is dropped whole first. */
  function Memoized(s: State, k: Key, memo: Memo): (r: State) {
    if |s.memo| >= MAX_RESOLVED_ICONS then s.(memo := map[k := memo], started := map[])
    else s.(memo := s.memo[k := memo])
  }

  /** What `request` decides before it lets go of the in-flight lock. */
  function Decided(s: State, c: Caller): (r: State) {
    if c.hit || |s.inflight| >= MAX_CONCURRENT_FETCHES || c.key in s.inflight then s.(holder := None)
    else s.(holder := None, inflight := s.inflight + {c.key}, workers := s.workers[c.key := Claimed])
  }

  function Missed(s: State, k: Key): (r: State) {
    var seen := Count(s.attempts, k) + 1;
    s.(attempts := s.attempts[k := seen], missed := s.missed[k := Count(s.missed, k) + 1],
       workers := s.workers[k := if seen >= MAX_ICON_FETCH_ATTEMPTS then Storing(GaveUp) else Leaving])
  }

  function Left(s: State, k: Key): (r: State) {
    s.(inflight := s.inflight - {k}, workers := s.workers - {k})
  }

  function Step(served: Origins, s: State, a: Action): (r: State)
    requires Enabled(served, s, a)
  {
    match a
    case StorePackage(k) => Memoized(s, k, Package)
    case Look(k) => s.(holder := Some(Caller(k, k in s.memo)))
    case Decide => Decided(s, s.holder.value)
    case Spawn(k) => s.(workers := s.workers[k := Fetching], started := s.started[k := Count(s.started, k) + 1])
    case SpawnFailed(k) => Left(s, k)
    case Answer(k, Found) => s.(workers := s.workers[k := Storing(Answered)])
    case Answer(k, NotThere) => s.(workers := s.workers[k := Storing(Absent)])
    case Answer(k, Unavailable) => Missed(s, k)
    case Store(k) => Memoized(s, k, s.workers[k].memo).(workers := s.workers[k := Stored])
    case Forget(k) => s.(attempts := s.attempts - {k}, workers := s.workers[k := Leaving])
    case Leave(k) => Left(s, k)
  }

  predicate Possible(served: Origins, run: seq<Action>)
    decreases |run|, 0
  {
    run == [] ||
    (Possible(served, run[..|run| - 1]) && Enabled(served, After(served, run[..|run| - 1]), run[|run| - 1]))
  }

  function After(served: Origins, run: seq<Action>): (s: State)
    requires Possible(served, run)
    decreases |run|, 1
  {
    if run == [] then INITIAL else Step(served, After(served, run[..|run| - 1]), run[|run| - 1])
  }

  // ---------------------------------------------------------------- bounds

  /** One thread per slot, at most four slots, at most 512 entries. */
  ghost predicate Sized(s: State) {
    s.inflight == s.workers.Keys && |s.inflight| <= MAX_CONCURRENT_FETCHES && |s.memo| <= MAX_RESOLVED_ICONS
  }

  lemma SizedStep(served: Origins, s: State, a: Action)
    requires Sized(s) && Enabled(served, s, a)
    ensures Sized(Step(served, s, a))
  {
    match a
    case StorePackage(k) => MemoSized(s, k, Package);
    case Store(k) => StoreSized(served, s, k);
    case Decide => DecideSized(s, s.holder.value);
    case SpawnFailed(k) => LeaveSized(s, k);
    case Leave(k) => LeaveSized(s, k);
    case Answer(k, f) => AnswerSized(served, s, k, f);
    case Spawn(k) => assert Step(served, s, a).workers.Keys == s.workers.Keys;
    case Forget(k) => assert Step(served, s, a).workers.Keys == s.workers.Keys;
    case Look(_) =>
  }

  lemma StoreSized(served: Origins, s: State, k: Key)
    requires Sized(s) && Enabled(served, s, Store(k))
    ensures Sized(Step(served, s, Store(k)))
  {
    MemoSized(s, k, s.workers[k].memo);
    assert Step(served, s, Store(k)).workers.Keys == s.workers.Keys;
  }

  lemma AnswerSized(served: Origins, s: State, k: Key, f: Fetch)
    requires Sized(s) && Enabled(served, s, Answer(k, f))
    ensures Sized(Step(served, s, Answer(k, f)))
  {
    assert Step(served, s, Answer(k, f)).workers.Keys == s.workers.Keys;
  }

  lemma DecideSized(s: State, c: Caller)
    requires Sized(s)
    ensures Sized(Decided(s, c))
  {
    assert s.workers[c.key := Claimed].Keys == s.workers.Keys + {c.key};
  }

  lemma LeaveSized(s: State, k: Key)
    requires Sized(s) && k in s.inflight
    ensures Sized(Left(s, k))
  {
    assert (s.workers - {k}).Keys == s.workers.Keys - {k};
  }

  lemma MemoSized(s: State, k: Key, memo: Memo)
    requires |s.memo| <= MAX_RESOLVED_ICONS
    ensures |Memoized(s, k, memo).memo| <= MAX_RESOLVED_ICONS
  {
    var m := s.memo[k := memo];
    assert m.Keys == s.memo.Keys + {k} && |m| == |m.Keys| && |s.memo| == |s.memo.Keys|;
    assert |map[k := memo]| == 1;
  }

  // ---------------------------------------------------------------- one reference

  /** What holds of one reference at each point of its fetch. `n` fetches started since
      the last clear, `a` transient failures counted against it. */
  predicate Within(w: Option<Worker>, memoized: bool, n: nat, a: nat) {
    match w
    case None => a <= 2 && if memoized then n <= 3 else n <= a
    case Some(Claimed) => a <= 2 && !memoized && n <= a
    case Some(Fetching) => a <= 2 && !memoized && n <= a + 1
    case Some(Storing(memo)) => !memoized && n <= 3 && a <= 3 && (memo == GaveUp ==> a == 3)
    case Some(Stored) => if memoized then n <= 3 else n == 0
    case Some(Leaving) => a <= 2 && if memoized then n <= 3 else n <= a
  }

  function WorkerOf(s: State, k: Key): (w: Option<Worker>) {
    if k in s.workers then Some(s.workers[k]) else None
  }

  ghost predicate KeyOk(served: Origins, s: State, k: Key) {
    && (served(k.plugin) ==> Within(WorkerOf(s, k), k in s.memo, Count(s.started, k), Count(s.attempts, k)))
    && (served(k.plugin) && s.holder == Some(Caller(k, false)) && k !in s.inflight ==> k !in s.memo)
    && (!served(k.plugin) ==> k !in s.workers && Count(s.started, k) == 0)
    && Count(s.attempts, k) <= Count(s.missed, k)
    && (k in s.memo && s.memo[k] == GaveUp ==> Count(s.missed, k) >= MAX_ICON_FETCH_ATTEMPTS)
  }

  ghost predicate Inv(served: Origins, s: State) {
    && Sized(s)
    && (s.holder.Some? ==> served(s.holder.value.key.plugin))
    && forall k :: KeyOk(served, s, k)
  }

  lemma KeyMemoized(served: Origins, s: State, j: Key, memo: Memo, k: Key)
    requires KeyOk(served, s, k) && k != j
    ensures KeyOk(served, Memoized(s, j, memo), k)
  {
  }

  lemma KeyStored(served: Origins, s: State, k: Key)
    requires KeyOk(served, s, k) && Enabled(served, s, Store(k)) && k in s.inflight
    ensures KeyOk(served, Step(served, s, Store(k)), k)
  {
  }

  lemma KeyDecided(served: Origins, s: State, k: Key)
    requires Inv(served, s) && s.holder.Some? && KeyOk(served, s, k)
    ensures KeyOk(served, Decided(s, s.holder.value), k)
  {
  }

  lemma KeyAnswered(served: Origins, s: State, j: Key, f: Fetch, k: Key)
    requires KeyOk(served, s, j) && KeyOk(served, s, k) && Enabled(served, s, Answer(j, f)) && j in s.inflight
    ensures KeyOk(served, Step(served, s, Answer(j, f)), k)
  {
  }

  lemma KeyLeft(served: Origins, s: State, j: Key, k: Key)
    requires KeyOk(served, s, k) && s.holder.None? && (At(s, j, Claimed) || At(s, j, Leaving))
    ensures KeyOk(served, Left(s, j), k)
  {
  }

  lemma KeyStoredOther(served: Origins, s: State, j: Key, k: Key)
    requires KeyOk(served, s, k) && Enabled(served, s, Store(j)) && k != j
    ensures KeyOk(served, Step(served, s, Store(j)), k)
  {
    KeyMemoized(served, s, j, s.workers[j].memo, k);
  }

  lemma KeyPackaged(served: Origins, s: State, j: Key, k: Key)
    requires KeyOk(served, s, k) && Enabled(served, s, StorePackage(j))
    ensures KeyOk(served, Memoized(s, j, Package), k)
  {
    if j != k { KeyMemoized(served, s, j, Package, k); }
  }

  /** The steps that touch no more than one thread. */
  lemma KeyMoved(served: Origins, s: State, a: Action, k: Key)
    requires KeyOk(served, s, k) && Enabled(served, s, a) && (a.Look? || a.Spawn? || a.Forget?)
    requires a.Spawn? ==> KeyOk(served, s, a.key)
    ensures KeyOk(served, Step(served, s, a), k)
  {
  }

  lemma KeyStep(served: Origins, s: State, a: Action, k: Key)
    requires Inv(served, s) && Enabled(served, s, a)
    ensures KeyOk(served, Step(served, s, a), k)
  {
    assert KeyOk(served, s, k);
    if !a.Decide? { assert KeyOk(served, s, a.key); }
    match a
    case StorePackage(j) => KeyPackaged(served, s, j, k);
    case Decide => KeyDecided(served, s, k);
    case SpawnFailed(j) => KeyLeft(served, s, j, k);
    case Answer(j, f) => KeyAnswered(served, s, j, f, k);
    case Store(j) => if j == k { KeyStored(served, s, k); } else { KeyStoredOther(served, s, j, k); }
    case Leave(j) => KeyLeft(served, s, j, k);
    case _ => KeyMoved(served, s, a, k);
  }

  lemma {:induction false} RunKeeps(served: Origins, run: seq<Action>)
    requires Possible(served, run)
    ensures Inv(served, After(served, run))
  {
    if run != [] {
      var s, a := After(served, run[..|run| - 1]), run[|run| - 1];
      RunKeeps(served, run[..|run| - 1]);
      SizedStep(served, s, a);
      forall k ensures KeyOk(served, Step(served, s, a), k) {
        KeyStep(served, s, a, k);
      }
    }
  }

  // ---------------------------------------------------------------- every interleaving

  /** At most four fetches outstanding, one per reference, at most 512 entries, and at
      most three fetches of one reference between two clears of the memo. */
  lemma FetchesBounded(served: Origins, run: seq<Action>, k: Key)
    requires Possible(served, run)
    ensures var s := After(served, run);
            && |s.workers| <= MAX_CONCURRENT_FETCHES && |s.memo| <= MAX_RESOLVED_ICONS
            && Count(s.started, k) <= MAX_ICON_FETCH_ATTEMPTS
  {
    var s := After(served, run);
    RunKeeps(served, run);
    assert KeyOk(served, s, k);
    assert |s.workers| == |s.workers.Keys|;
  }

  /** No slot is taken and no fetch starts for a reference already memoized, or already
      being fetched. */
  lemma NoneStartsMemoized(served: Origins, run: seq<Action>, a: Action, k: Key)
    requires Possible(served, run) && Enabled(served, After(served, run), a)
    requires var s := After(served, run);
             a == Spawn(k) || (a == Decide && k in Step(served, s, a).inflight - s.inflight)
    ensures k !in After(served, run).memo
    ensures a == Decide ==> k !in After(served, run).workers
  {
    RunKeeps(served, run);
    assert KeyOk(served, After(served, run), k);
  }

  /** A transient failure is memoized only once the allowance is spent: three failures. */
  lemma GivesUpAfterThree(served: Origins, run: seq<Action>, k: Key)
    requires Possible(served, run)
    ensures var s := After(served, run);
            && (k in s.memo && s.memo[k] == GaveUp ==> Count(s.missed, k) >= MAX_ICON_FETCH_ATTEMPTS)
            && (At(s, k, Storing(GaveUp)) ==> Count(s.attempts, k) == MAX_ICON_FETCH_ATTEMPTS)
  {
    RunKeeps(served, run);
    assert KeyOk(served, After(served, run), k);
  }
}
