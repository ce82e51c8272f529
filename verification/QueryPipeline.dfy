/** The bookkeeping of crates/crikey-app/src/query_pipeline.rs: which requests hold a
    suggestion slot, which cancellations await an answer, and which refusals have been
    reported. What the scheduler and the intake queue answer are parameters; the budget
    counters of crates/crikey-plugin-supervisor/src/concurrency.rs are shared with
    threads that may refuse work at any time.
 */
module QueryPipelines {
  import opened Integers
  import opened Text

  type Plugin = string

  /** The identity of a shared budget. */
  type Handle = nat

  datatype Key = Key(plugin: Plugin, generation: nat)

  datatype Kind = Suggestion | Action | Background | Catalog

  datatype Refusals = Refusals(suggestion: u64, action: u64, background: u64, catalog: u64)

  const NONE_REFUSED: Refusals := Refusals(0, 0, 0, 0)

  function Of(r: Refusals, kind: Kind): (n: u64) {
    match kind
    case Suggestion => r.suggestion
    case Action => r.action
    case Background => r.background
    case Catalog => r.catalog
  }

  function With(r: Refusals, kind: Kind, n: u64): (s: Refusals)
    ensures Of(s, kind) == n && forall other | other != kind :: Of(s, other) == Of(r, other)
  {
    match kind
    case Suggestion => r.(suggestion := n)
    case Action => r.(action := n)
    case Background => r.(background := n)
    case Catalog => r.(catalog := n)
  }

  predicate AtMost(a: Refusals, b: Refusals) {
    a.suggestion <= b.suggestion && a.action <= b.action && a.background <= b.background && a.catalog <= b.catalog
  }

  /** `resolved_budget_for_policy`: the manifest may tighten the scheduler's limit, and
      cannot raise it. */
  function ResolvedLimit(declared: Option<u32>, maxConcurrentRequests: nat): (limit: u32)
    ensures limit <= maxConcurrentRequests && (declared.Some? ==> limit <= declared.value)
    ensures limit == U32_MAX || limit == maxConcurrentRequests || declared == Some(limit)
  {
    var ceiling := if maxConcurrentRequests > U32_MAX then U32_MAX else maxConcurrentRequests;
    if declared.Some? && declared.value < ceiling then declared.value else ceiling
  }

  function Count(m: map<Handle, nat>, h: Handle): (n: nat) {
    if h in m then m[h] else 0
  }

  const DEFAULT_SUGGESTION_BUDGET: nat := 1

  /** What a manifest declares for a budget, and the scheduler's limit for its plugin. */
  datatype Declared = Declared(suggestions: Option<u32>, maxConcurrentRequests: nat)

  /** The suggestion limit of a budget, resolved unless it is the default one. */
  function Limit(limits: map<Handle, Declared>, h: Handle): (n: nat)
    ensures h in limits ==> n <= limits[h].maxConcurrentRequests
    ensures h in limits && limits[h].suggestions.Some? ==> n <= limits[h].suggestions.value
  {
    if h in limits then ResolvedLimit(limits[h].suggestions, limits[h].maxConcurrentRequests)
    else DEFAULT_SUGGESTION_BUDGET
  }

  /** No refusal counter fell. */
  ghost predicate Rose(before: map<Handle, Refusals>, now: map<Handle, Refusals>) {
    forall h :: AtMost(RefusedBy(before, h), RefusedBy(now, h))
  }

  /** Every plugin's report has caught up with the counters as they stood at `before`. */
  ghost predicate CaughtUp(budgets: map<Plugin, Handle>, before: map<Handle, Refusals>,
                           reported: map<Plugin, Refusals>) {
    forall p | p in budgets :: p in reported && AtMost(RefusedBy(before, budgets[p]), reported[p])
  }

  /** The first `n` reports have caught up. */
  ghost predicate CaughtUpTo(plugins: seq<Plugin>, n: nat, budgets: map<Plugin, Handle>, before: map<Handle, Refusals>,
                             reported: map<Plugin, Refusals>)
    requires n <= |plugins|
  {
    forall i | 0 <= i < n ::
      && plugins[i] in budgets && plugins[i] in reported
      && AtMost(RefusedBy(before, budgets[plugins[i]]), reported[plugins[i]])
  }

  /** One more report catches up, and none falls behind again. */
  lemma CaughtUpNext(plugins: seq<Plugin>, n: nat, budgets: map<Plugin, Handle>, before: map<Handle, Refusals>,
                     counted: map<Handle, Refusals>, was: map<Plugin, Refusals>, now: map<Plugin, Refusals>)
    requires n < |plugins| && CaughtUpTo(plugins, n, budgets, before, was) && Rose(before, counted)
    requires plugins[n] in budgets && plugins[n] in now
               && AtMost(RefusedBy(counted, budgets[plugins[n]]), now[plugins[n]])
    requires forall p | p in was && p != plugins[n] :: p in now && now[p] == was[p]
    ensures CaughtUpTo(plugins, n + 1, budgets, before, now)
  {
  }

  lemma AllCaughtUp(plugins: seq<Plugin>, budgets: map<Plugin, Handle>, before: map<Handle, Refusals>,
                    reported: map<Plugin, Refusals>)
    requires CaughtUpTo(plugins, |plugins|, budgets, before, reported) && forall p | p in budgets :: p in plugins
    ensures CaughtUp(budgets, before, reported)
  {
    forall p | p in budgets ensures p in reported && AtMost(RefusedBy(before, budgets[p]), reported[p]) {
      var i :| 0 <= i < |plugins| && plugins[i] == p;
    }
  }

  lemma RoseTransitive(a: map<Handle, Refusals>, b: map<Handle, Refusals>, c: map<Handle, Refusals>)
    requires Rose(a, b) && Rose(b, c)
    ensures Rose(a, c)
  {
  }

  lemma RoseCatches(budgets: map<Plugin, Handle>, before: map<Handle, Refusals>, now: map<Handle, Refusals>,
                    reported: map<Plugin, Refusals>)
    requires Rose(before, now) && CaughtUp(budgets, now, reported)
    ensures CaughtUp(budgets, before, reported)
  {
  }

  function RefusedBy(m: map<Handle, Refusals>, h: Handle): (r: Refusals) {
    if h in m then m[h] else NONE_REFUSED
  }

  /** What is reported for each plugin is its watermark, which its counter has reached. */
  ghost predicate Reported(budgets: map<Plugin, Handle>, refused: map<Handle, Refusals>,
                           watermark: map<Plugin, Refusals>, reported: map<Plugin, Refusals>) {
    && watermark.Keys == reported.Keys == budgets.Keys
    && (forall p | p in budgets :: reported[p] == watermark[p] && AtMost(watermark[p], RefusedBy(refused, budgets[p])))
  }

  lemma ReportedWithout(budgets: map<Plugin, Handle>, refused: map<Handle, Refusals>,
                        watermark: map<Plugin, Refusals>, reported: map<Plugin, Refusals>, plugin: Plugin)
    requires Reported(budgets, refused, watermark, reported)
    ensures Reported(budgets - {plugin}, refused, watermark - {plugin}, reported - {plugin})
  {
  }

  // ---------------------------------------------------------------- slots and guards

  function Holders(admitted: map<Key, Handle>, h: Handle): (keys: set<Key>) {
    set k | k in admitted && admitted[k] == h
  }

  /** The occupancy of every budget is the number of guards held on it. */
  ghost predicate Balanced(admitted: map<Key, Handle>, inFlight: map<Handle, nat>) {
    forall h :: Count(inFlight, h) == |Holders(admitted, h)|
  }

  lemma AdmitCounted(admitted: map<Key, Handle>, inFlight: map<Handle, nat>, k: Key, h: Handle, now: map<Handle, nat>,
                     g: Handle)
    requires Balanced(admitted, inFlight) && k !in admitted && now == inFlight[h := Count(inFlight, h) + 1]
    ensures Count(now, g) == |Holders(admitted[k := h], g)|
  {
    assert Count(inFlight, g) == |Holders(admitted, g)|;
    HoldersGrow(admitted, k, h, g);
  }

  lemma HoldersGrow(admitted: map<Key, Handle>, k: Key, h: Handle, g: Handle)
    requires k !in admitted
    ensures |Holders(admitted[k := h], g)| == |Holders(admitted, g)| + if g == h then 1 else 0
  {
    var was, now := Holders(admitted, g), Holders(admitted[k := h], g);
    if g == h {
      assert now == was + {k};
    } else {
      assert now == was;
    }
  }

  lemma BalancedAfterAdmit(admitted: map<Key, Handle>, inFlight: map<Handle, nat>, k: Key, h: Handle,
                           now: map<Handle, nat>)
    requires Balanced(admitted, inFlight) && k !in admitted && now == inFlight[h := Count(inFlight, h) + 1]
    ensures Balanced(admitted[k := h], now)
  {
    forall g ensures Count(now, g) == |Holders(admitted[k := h], g)| { AdmitCounted(admitted, inFlight, k, h, now, g); }
  }

  lemma BalancedAfterDrop(admitted: map<Key, Handle>, inFlight: map<Handle, nat>, k: Key)
    requires Balanced(admitted, inFlight) && k in admitted
    ensures Count(inFlight, admitted[k]) > 0
    ensures Balanced(admitted - {k}, inFlight[admitted[k] := Count(inFlight, admitted[k]) - 1])
  {
    var h := admitted[k];
    assert k in Holders(admitted, h) && Count(inFlight, h) == |Holders(admitted, h)|;
    forall g ensures Count(inFlight[h := Count(inFlight, h) - 1], g) == |Holders(admitted - {k}, g)| {
      assert Count(inFlight, g) == |Holders(admitted, g)|;
      assert Holders(admitted - {k}, g) == if g == h then Holders(admitted, g) - {k} else Holders(admitted, g);
    }
  }

  lemma NoneHeld(budgets: map<Plugin, Handle>, admitted: map<Key, Handle>, inFlight: map<Handle, nat>, plugin: Plugin)
    requires Balanced(admitted, inFlight) && plugin in budgets
    requires forall p, q | p in budgets && q in budgets && p != q :: budgets[p] != budgets[q]
    requires forall k | k in admitted :: k.plugin in budgets && admitted[k] == budgets[k.plugin] && k.plugin != plugin
    ensures Count(inFlight, budgets[plugin]) == 0
  {
    assert Holders(admitted, budgets[plugin]) == {};
  }

  /** One plugin's active requests. */
  function ActiveOf(active: set<Key>, plugin: Plugin): (keys: set<Key>) {
    set k | k in active && k.plugin == plugin
  }

  /** The requests of registered plugins among some. */
  function Owned(keys: seq<Key>, plugins: set<Plugin>): (r: set<Key>) {
    set k | k in keys && k.plugin in plugins
  }

  /** Every dispatch is in exactly one of two lists. */
  ghost predicate Split(all: seq<Key>, sent: seq<Key>, turnedAway: seq<Key>) {
    multiset(sent) + multiset(turnedAway) == multiset(all)
  }

  lemma SplitNext(all: seq<Key>, n: nat, sent: seq<Key>, turnedAway: seq<Key>)
    requires n < |all| && Split(all[..n], sent, turnedAway)
    ensures Split(all[..n + 1], sent + [all[n]], turnedAway) && Split(all[..n + 1], sent, turnedAway + [all[n]])
  {
    assert all[..n + 1] == all[..n] + [all[n]];
  }

  lemma OwnedNext(keys: seq<Key>, key: Key, plugins: set<Plugin>)
    ensures Owned(keys + [key], plugins) == Owned(keys, plugins) + if key.plugin in plugins then {key} else {}
  {
  }

  /** Each of these requests is of a plugin with as many active requests as it may have. */
  ghost predicate Full(keys: seq<Key>, budgets: map<Plugin, Handle>, limits: map<Handle, Declared>, active: set<Key>) {
    forall k | k in keys ::
      k.plugin in budgets && |ActiveOf(active, k.plugin)| == Limit(limits, budgets[k.plugin])
  }

  /** What was sent to registered plugins became active and what was turned away is not;
      a request was turned away only while its plugin was full. */
  ghost predicate Answered(sent: seq<Key>, turnedAway: seq<Key>, budgets: map<Plugin, Handle>,
                           limits: map<Handle, Declared>, before: set<Key>, after: set<Key>) {
    var during := before + Owned(sent, budgets.Keys);
    after == during - Distinct(turnedAway) && Full(turnedAway, budgets, limits, during)
  }

  /** How far admission has got with `keys`. */
  ghost predicate Admitted(keys: seq<Key>, sent: seq<Key>, turnedAway: seq<Key>, budgets: map<Plugin, Handle>,
                           limits: map<Handle, Declared>, before: set<Key>, after: set<Key>) {
    && Split(keys, sent, turnedAway) && after == before + Owned(sent, budgets.Keys)
    && Full(turnedAway, budgets, limits, after)
  }

  lemma AdmittedNext(keys: seq<Key>, n: nat, ok: bool, sent: seq<Key>, turnedAway: seq<Key>,
                     budgets: map<Plugin, Handle>, limits: map<Handle, Declared>,
                     before: set<Key>, between: set<Key>, after: set<Key>)
    requires n < |keys| && Admitted(keys[..n], sent, turnedAway, budgets, limits, before, between)
    requires after == between + if ok && keys[n].plugin in budgets then {keys[n]} else {}
    requires Full(if ok then turnedAway else turnedAway + [keys[n]], budgets, limits, after)
    ensures ok ==> Admitted(keys[..n + 1], sent + [keys[n]], turnedAway, budgets, limits, before, after)
    ensures !ok ==> Admitted(keys[..n + 1], sent, turnedAway + [keys[n]], budgets, limits, before, after)
  {
    SplitNext(keys, n, sent, turnedAway);
    OwnedNext(sent, keys[n], budgets.Keys);
  }

  /** No plugin has more active requests than it may have. */
  ghost predicate Within(budgets: map<Plugin, Handle>, limits: map<Handle, Declared>, active: set<Key>) {
    forall p | p in budgets :: |ActiveOf(active, p)| <= Limit(limits, budgets[p])
  }

  lemma FullStays(keys: seq<Key>, budgets: map<Plugin, Handle>, limits: map<Handle, Declared>,
                  before: set<Key>, after: set<Key>)
    requires Full(keys, budgets, limits, before) && before <= after
    requires Within(budgets, limits, after)
    ensures Full(keys, budgets, limits, after)
  {
    forall k | k in keys ensures |ActiveOf(after, k.plugin)| == Limit(limits, budgets[k.plugin]) {
      SubsetSize(ActiveOf(before, k.plugin), ActiveOf(after, k.plugin));
    }
  }

  lemma FullNext(keys: seq<Key>, key: Key, ok: bool, budgets: map<Plugin, Handle>, limits: map<Handle, Declared>,
                 before: set<Key>, after: set<Key>)
    requires Full(keys, budgets, limits, before) && before <= after && Within(budgets, limits, after)
    requires !ok ==> after == before && Full([key], budgets, limits, before)
    ensures Full(if ok then keys else keys + [key], budgets, limits, after)
  {
    FullStays(keys, budgets, limits, before, after);
    if !ok { assert key in [key]; }
  }

  lemma {:induction false} SubsetSize(a: set<Key>, b: set<Key>)
    requires a <= b
    ensures |a| <= |b|
  {
    if a != {} {
      var k :| k in a;
      SubsetSize(a - {k}, b - {k});
    }
  }

  /** The parked completions that are ready: of other generations, or merged to the end. */
  function Ready(parked: set<Key>, generation: nat, merged: set<Key>): (keys: set<Key>) {
    set k | k in parked && (k.generation != generation || k in merged)
  }

  function Distinct(keys: seq<Key>): (r: set<Key>) {
    set k | k in keys
  }

  lemma RetireNext(base: set<Key>, keys: seq<Key>, n: nat)
    requires n < |keys|
    ensures base - Distinct(keys[..n + 1]) == base - Distinct(keys[..n]) - {keys[n]}
  {
    assert keys[..n + 1] == keys[..n] + [keys[n]];
  }

  lemma Shrink(base: set<Key>, done: set<Key>, key: Key)
    ensures base - done - {key} == base - (done + {key})
  {
  }

  lemma ShrinkStale(base: set<Key>, done: set<Key>, stale: set<Key>, key: Key)
    ensures base - done * stale - (if key in stale then {key} else {}) == base - (done + {key}) * stale
  {
  }

  datatype Registered = Done | AlreadyRegistered | BudgetAlreadyOwned(owner: Plugin)

  // ---------------------------------------------------------------- cancellations

  /** What happened to cancellations: one was captured from the scheduler, one was recorded
      with the supervisor, or a plugin was unregistered with what it had open. */
  datatype Log =
    | Start
    | Captured(before: Log, key: Key)
    | Recorded(before: Log, key: Key, acknowledged: bool)
    | Forgotten(before: Log, plugin: Plugin)

  /** The cancellations still to be answered. */
  function Unresolved(log: Log): (keys: set<Key>) {
    match log
    case Start => {}
    case Captured(before, key) => Unresolved(before) + {key}
    case Recorded(before, key, _) => Unresolved(before) - {key}
    case Forgotten(before, plugin) => set k | k in Unresolved(before) && k.plugin != plugin
  }

  /** The captures of `keys`, one after the other. */
  function CaptureAll(log: Log, keys: seq<Key>): (r: Log) {
    if keys == [] then log else Captured(CaptureAll(log, keys[..|keys| - 1]), keys[|keys| - 1])
  }

  /** The active ones among `keys`, in order. */
  function Among(keys: seq<Key>, active: set<Key>): (r: seq<Key>) {
    if keys == [] then []
    else Among(keys[..|keys| - 1], active) + if keys[|keys| - 1] in active then [keys[|keys| - 1]] else []
  }

  /** Those same keys as a set. */
  function Cancelled(keys: seq<Key>, active: set<Key>): (r: set<Key>) {
    set k | k in keys && k in active
  }

  lemma AmongActive(log: Log, keys: seq<Key>, n: nat, active: set<Key>)
    requires n < |keys| && keys[n] in active
    ensures Among(keys[..n + 1], active) == Among(keys[..n], active) + [keys[n]]
    ensures Cancelled(keys[..n + 1], active) == Cancelled(keys[..n], active) + {keys[n]}
    ensures CaptureAll(log, Among(keys[..n + 1], active))
            == Captured(CaptureAll(log, Among(keys[..n], active)), keys[n])
  {
    assert keys[..n + 1][..n] == keys[..n] && keys[..n + 1] == keys[..n] + [keys[n]];
    var before := Among(keys[..n], active);
    assert (before + [keys[n]])[..|before|] == before;
  }

  lemma AmongInactive(keys: seq<Key>, n: nat, active: set<Key>)
    requires n < |keys| && keys[n] !in active
    ensures Among(keys[..n + 1], active) == Among(keys[..n], active)
    ensures Cancelled(keys[..n + 1], active) == Cancelled(keys[..n], active)
  {
    assert keys[..n + 1][..n] == keys[..n] && keys[..n + 1] == keys[..n] + [keys[n]];
    assert Among(keys[..n], active) + [] == Among(keys[..n], active);
  }

  /** What capturing the active ones among `keys` makes of the record, of what is
      unresolved and of what is pending. */
  ghost predicate Took(keys: seq<Key>, active: set<Key>, log: Log, unresolved: set<Key>, pending: seq<Key>,
                       logNow: Log, unresolvedNow: set<Key>, pendingNow: seq<Key>) {
    && logNow == CaptureAll(log, Among(keys, active))
    && unresolvedNow == unresolved + Cancelled(keys, active)
    && pendingNow == pending + Among(keys, active)
  }

  lemma TookActive(keys: seq<Key>, n: nat, active: set<Key>, log: Log, unresolved: set<Key>, pending: seq<Key>,
                   logNow: Log, unresolvedNow: set<Key>, pendingNow: seq<Key>)
    requires n < |keys| && keys[n] in active
    requires Took(keys[..n], active, log, unresolved, pending, logNow, unresolvedNow, pendingNow)
    ensures Took(keys[..n + 1], active, log, unresolved, pending,
                 Captured(logNow, keys[n]), unresolvedNow + {keys[n]}, pendingNow + [keys[n]])
  {
    AmongActive(log, keys, n, active);
    AddedLast(unresolved, Cancelled(keys[..n], active), pending, Among(keys[..n], active), keys[n]);
  }

  lemma AddedLast(set1: set<Key>, set2: set<Key>, seq1: seq<Key>, seq2: seq<Key>, key: Key)
    ensures set1 + set2 + {key} == set1 + (set2 + {key}) && seq1 + seq2 + [key] == seq1 + (seq2 + [key])
  {
  }

  lemma TookInactive(keys: seq<Key>, n: nat, active: set<Key>, log: Log, unresolved: set<Key>, pending: seq<Key>,
                     logNow: Log, unresolvedNow: set<Key>, pendingNow: seq<Key>)
    requires n < |keys| && keys[n] !in active
    requires Took(keys[..n], active, log, unresolved, pending, logNow, unresolvedNow, pendingNow)
    ensures Took(keys[..n + 1], active, log, unresolved, pending, logNow, unresolvedNow, pendingNow)
  {
    AmongInactive(keys, n, active);
  }

  /** Only an unresolved cancellation is ever recorded. */
  predicate Sound(log: Log) {
    match log
    case Start => true
    case Captured(before, _) => Sound(before)
    case Recorded(before, key, _) => Sound(before) && key in Unresolved(before)
    case Forgotten(before, _) => Sound(before)
  }

  function Captures(log: Log, k: Key): (n: nat) {
    match log
    case Start => 0
    case Captured(before, key) => Captures(before, k) + if key == k then 1 else 0
    case Recorded(before, _, _) => Captures(before, k)
    case Forgotten(before, _) => Captures(before, k)
  }

  function Records(log: Log, k: Key): (n: nat) {
    match log
    case Start => 0
    case Captured(before, _) => Records(before, k)
    case Recorded(before, key, _) => Records(before, k) + if key == k then 1 else 0
    case Forgotten(before, _) => Records(before, k)
  }

  /** Each captured cancellation is recorded at most once, and not while unresolved. */
  lemma {:induction false} RecordedAtMostOnce(log: Log, k: Key)
    requires Sound(log)
    ensures Records(log, k) + (if k in Unresolved(log) then 1 else 0) <= Captures(log, k)
  {
    if !log.Start? { RecordedAtMostOnce(log.before, k); }
  }

  /** A request is active exactly while it holds a guard on its own plugin's budget. */
  ghost predicate SlotsSound(budgets: map<Plugin, Handle>, limits: map<Handle, Declared>, admitted: map<Key, Handle>,
                             active: set<Key>, inFlight: map<Handle, nat>) {
    && admitted.Keys == active
    && (forall k | k in admitted :: k.plugin in budgets && admitted[k] == budgets[k.plugin])
    && Balanced(admitted, inFlight)
    && (forall h :: Count(inFlight, h) <= Limit(limits, h))
  }

  /** Every budget has one owner. */
  ghost predicate OwnersSound(budgets: map<Plugin, Handle>, registered: seq<Plugin>) {
    && (forall p, q | p in budgets && q in budgets && p != q :: budgets[p] != budgets[q])
    && (forall p :: p in registered <==> p in budgets)
  }

  /** Every unresolved cancellation is of a registered plugin, so recording it succeeds. */
  ghost predicate CancelsSound(budgets: map<Plugin, Handle>, unresolved: set<Key>, log: Log) {
    Sound(log) && unresolved == Unresolved(log) && forall k | k in unresolved :: k.plugin in budgets
  }

  lemma BudgetAdded(budgets: map<Plugin, Handle>, registered: seq<Plugin>, plugin: Plugin, h: Handle)
    requires OwnersSound(budgets, registered) && plugin !in budgets && forall p | p in budgets :: budgets[p] != h
    ensures OwnersSound(budgets[plugin := h], registered + [plugin])
  {
  }

  lemma PluginAdded(budgets: map<Plugin, Handle>, limits: map<Handle, Declared>, admitted: map<Key, Handle>,
                    active: set<Key>, inFlight: map<Handle, nat>, unresolved: set<Key>, log: Log,
                    plugin: Plugin, h: Handle)
    requires SlotsSound(budgets, limits, admitted, active, inFlight) && CancelsSound(budgets, unresolved, log)
    requires plugin !in budgets
    ensures SlotsSound(budgets[plugin := h], limits, admitted, active, inFlight)
    ensures CancelsSound(budgets[plugin := h], unresolved, log)
  {
  }

  lemma ReportAdded(budgets: map<Plugin, Handle>, refused: map<Handle, Refusals>, watermark: map<Plugin, Refusals>,
                    reported: map<Plugin, Refusals>, plugin: Plugin, h: Handle)
    requires Reported(budgets, refused, watermark, reported) && plugin !in budgets
    ensures Reported(budgets[plugin := h], refused, watermark[plugin := NONE_REFUSED], reported[plugin := NONE_REFUSED])
  {
  }

  class QueryPipeline {
    /** What each budget's limit is resolved from. */
    const limits: map<Handle, Declared>

    var budgets: map<Plugin, Handle>
    var registered: seq<Plugin>
    var generation: nat
    var admitted: map<Key, Handle>
    var active: set<Key>
    var pendingCompletions: set<Key>
    var unresolved: set<Key>
    var pendingCancellations: seq<Key>

    /** Suggestion slots taken and refusals counted, on the shared budgets. */
    var inFlight: map<Handle, nat>
    var refused: map<Handle, Refusals>

    /** The health record: refusals already carried over, and refusals reported. */
    var watermark: map<Plugin, Refusals>
    var reported: map<Plugin, Refusals>

    ghost var log: Log

    ghost predicate SlotsOk()
      reads `budgets, `admitted, `active, `inFlight
    {
      SlotsSound(budgets, limits, admitted, active, inFlight)
    }

    ghost predicate OwnersOk()
      reads `budgets, `registered
    {
      OwnersSound(budgets, registered)
    }

    ghost predicate CancelsOk()
      reads `budgets, `unresolved, `log
    {
      CancelsSound(budgets, unresolved, log)
    }

    ghost predicate RefusalsOk()
      reads `budgets, `refused, `watermark, `reported
    {
      Reported(budgets, refused, watermark, reported)
    }

    ghost predicate Valid()
      reads this
    {
      SlotsOk() && OwnersOk() && CancelsOk() && RefusalsOk()
    }

    constructor (limits: map<Handle, Declared>)
      ensures Valid() && budgets == map[] && active == {} && log == Start
    {
      this.limits := limits;
      budgets, registered, generation, admitted, active := map[], [], 0, map[], {};
      pendingCompletions, unresolved, pendingCancellations := {}, {}, [];
      inFlight, refused, watermark, reported, log := map[], map[], map[], map[], Start;
    }

    // ---------------- the shared budgets

    /** Counts one refusal, saturating; no other counter changes. */
    method Refuse(h: Handle, kind: Kind)
      requires RefusalsOk()
      modifies `refused
      ensures RefusalsOk() && Rose(old(refused), refused)
      ensures RefusedBy(refused, h)
                == With(RefusedBy(old(refused), h), kind, Saturated(Of(RefusedBy(old(refused), h), kind) + 1))
      ensures forall g | g != h :: RefusedBy(refused, g) == RefusedBy(old(refused), g)
    {
      var was := RefusedBy(refused, h);
      refused := refused[h := With(was, kind, Saturated(Of(was, kind) + 1))];
    }

    /** Any number of refusals on other threads. */
    method Meanwhile()
      requires RefusalsOk()
      modifies `refused
      ensures RefusalsOk() && Rose(old(refused), refused)
    {
      var times: nat :| times >= 0;
      for n := 0 to times
        invariant RefusalsOk() && Rose(old(refused), refused)
      {
        var h: nat :| h >= 0;
        var kind: Kind := *;
        Refuse(h, kind);
      }
    }

    // ---------------- registration

    method Register(plugin: Plugin, h: Handle) returns (r: Registered)
      requires Valid()
      modifies `budgets, `registered, `watermark, `reported
      ensures Valid()
      ensures r == AlreadyRegistered <==> plugin in old(budgets)
      ensures r.BudgetAlreadyOwned? ==> r.owner in old(budgets) && old(budgets)[r.owner] == h
      ensures r == Done <==> plugin !in old(budgets) && forall p | p in old(budgets) :: old(budgets)[p] != h
      ensures budgets == if r == Done then old(budgets)[plugin := h] else old(budgets)
      ensures registered == if r == Done then old(registered) + [plugin] else old(registered)
    {
      if plugin in budgets { return AlreadyRegistered; }
      if owner :| owner in budgets && budgets[owner] == h { return BudgetAlreadyOwned(owner); }
      Adopt(plugin, h);
      r := Done;
    }

    method Adopt(plugin: Plugin, h: Handle)
      requires Valid() && plugin !in budgets && forall p | p in budgets :: budgets[p] != h
      modifies `budgets, `registered, `watermark, `reported
      ensures Valid() && budgets == old(budgets)[plugin := h] && registered == old(registered) + [plugin]
    {
      BudgetAdded(budgets, registered, plugin, h);
      PluginAdded(budgets, limits, admitted, active, inFlight, unresolved, log, plugin, h);
      ReportAdded(budgets, refused, watermark, reported, plugin, h);
      watermark, reported := watermark[plugin := NONE_REFUSED], reported[plugin := NONE_REFUSED];
      budgets, registered := budgets[plugin := h], registered + [plugin];
    }

    // ---------------- retiring

    method FreeSlot(key: Key)
      requires SlotsOk()
      modifies `admitted, `active, `inFlight
      ensures SlotsOk() && active == old(active) - {key} && admitted == old(admitted) - {key}
    {
      active := active - {key};
      if key in admitted {
        var h := admitted[key];
        BalancedAfterDrop(admitted, inFlight, key);
        inFlight := inFlight[h := Count(inFlight, h) - 1];
        admitted := admitted - {key};
      }
    }

    /** Drops the guard of a request, if it has one. */
    method DropGuard(key: Key)
      requires Valid()
      modifies `admitted, `active, `inFlight
      ensures Valid() && active == old(active) - {key} && admitted == old(admitted) - {key}
    {
      FreeSlot(key);
    }

    /** `record_cancellation`, for one unresolved. */
    method RecordCancellation(key: Key, acknowledged: bool)
      requires Valid() && key in unresolved
      modifies `unresolved, `log
      ensures Valid() && log == Recorded(old(log), key, acknowledged) && unresolved == old(unresolved) - {key}
    {
      unresolved, log := unresolved - {key}, Recorded(log, key, acknowledged);
    }

    /** Records the cancellation of `key`, if one is unresolved. */
    method Resolve(key: Key, acknowledged: bool)
      requires Valid()
      modifies `unresolved, `log
      ensures Valid() && unresolved == old(unresolved) - {key}
      ensures log == if key in old(unresolved) then Recorded(old(log), key, acknowledged) else old(log)
    {
      if key in unresolved { RecordCancellation(key, acknowledged); }
    }

    /** `finish_completion`; `stale` is the scheduler's verdict. */
    method FinishCompletion(key: Key, stale: bool)
      requires Valid()
      modifies `admitted, `active, `inFlight, `unresolved, `log, `refused, `watermark, `reported
      ensures Valid() && active == old(active) - {key} && admitted == old(admitted) - {key}
      ensures log == if stale && key in old(unresolved) then Recorded(old(log), key, true) else old(log)
      ensures unresolved == old(unresolved) - if stale then {key} else {}
      ensures CaughtUp(budgets, old(refused), reported) && Rose(old(refused), refused)
    {
      DropGuard(key);
      if stale { Resolve(key, true); }
      SyncHealth();
    }

    // ---------------- refusals

    /** `refusals_snapshot`: one load a kind, with refusals landing in between. */
    method Observe(h: Handle) returns (observed: Refusals)
      requires RefusalsOk()
      modifies `refused
      ensures RefusalsOk() && Rose(old(refused), refused)
      ensures AtMost(RefusedBy(old(refused), h), observed) && AtMost(observed, RefusedBy(refused, h))
    {
      var suggestion := RefusedBy(refused, h).suggestion;
      Meanwhile();
      var action := RefusedBy(refused, h).action;
      Meanwhile();
      var background := RefusedBy(refused, h).background;
      Meanwhile();
      observed := Refusals(suggestion, action, background, RefusedBy(refused, h).catalog);
    }

    /** Folds one plugin's refusal counters into its health record. */
    method ReconcileRefusals(plugin: Plugin)
      requires RefusalsOk() && plugin in budgets
      modifies `refused, `watermark, `reported
      ensures RefusalsOk() && Rose(old(refused), refused)
      ensures AtMost(RefusedBy(old(refused), budgets[plugin]), reported[plugin])
      ensures AtMost(reported[plugin], RefusedBy(refused, budgets[plugin]))
      ensures forall p | p in budgets && p != plugin :: reported[p] == old(reported)[p]
    {
      var observed := Observe(budgets[plugin]);
      Carry(plugin, observed);
    }

    /** Adds to the report what was newly observed, one kind at a time. */
    method Carry(plugin: Plugin, observed: Refusals)
      requires RefusalsOk() && plugin in budgets
      requires AtMost(watermark[plugin], observed) && AtMost(observed, RefusedBy(refused, budgets[plugin]))
      modifies `watermark, `reported
      ensures RefusalsOk() && reported[plugin] == observed
      ensures forall p | p in budgets && p != plugin :: reported[p] == old(reported)[p]
    {
      var was, total := watermark[plugin], reported[plugin];
      total := Raised(total, Suggestion, was, observed);
      total := Raised(total, Action, was, observed);
      total := Raised(total, Background, was, observed);
      total := Raised(total, Catalog, was, observed);
      reported, watermark := reported[plugin := total], watermark[plugin := observed];
    }

    /** `sync_health`: every report catches up with the counters as they stood before. */
    method SyncHealth()
      requires Valid()
      modifies `refused, `watermark, `reported
      ensures Valid() && CaughtUp(budgets, old(refused), reported) && Rose(old(refused), refused)
    {
      for n := 0 to |registered|
        invariant RefusalsOk() && Rose(old(refused), refused)
        invariant CaughtUpTo(registered, n, budgets, old(refused), reported)
      {
        ghost var counted, was := refused, reported;
        ReconcileRefusals(registered[n]);
        CaughtUpNext(registered, n, budgets, old(refused), counted, was, reported);
        RoseTransitive(old(refused), counted, refused);
      }
      AllCaughtUp(registered, budgets, old(refused), reported);
    }

    /** `health`: what it returns has every refusal counted before the call, and none that
        was not counted. */
    method Health(plugin: Plugin) returns (r: Refusals)
      requires Valid()
      modifies `refused, `watermark, `reported
      ensures Valid()
      ensures plugin in budgets ==>
                && r == reported[plugin]
                && AtMost(RefusedBy(old(refused), budgets[plugin]), r)
                && AtMost(r, RefusedBy(refused, budgets[plugin]))
    {
      if plugin !in budgets { return NONE_REFUSED; }
      ReconcileRefusals(plugin);
      r := reported[plugin];
    }

    // ---------------- dispatching

    /** Admission of one dispatch: a guard on the plugin's budget, or a counted refusal. */
    method Admit(key: Key) returns (ok: bool)
      requires Valid()
      modifies `admitted, `active, `inFlight, `refused
      ensures Valid() && Rose(old(refused), refused)
      ensures key.plugin in budgets ==>
                (ok <==> Count(old(inFlight), budgets[key.plugin]) < Limit(limits, budgets[key.plugin]))
      ensures active == old(active) + if ok && key.plugin in budgets then {key} else {}
      ensures key.plugin !in budgets ==> ok && unchanged(`admitted, `inFlight)
      ensures if ok then refused == old(refused)
              else Of(RefusedBy(refused, budgets[key.plugin]), Suggestion)
                   == Saturated(Of(RefusedBy(old(refused), budgets[key.plugin]), Suggestion) + 1)
    {
      if key.plugin !in budgets { return true; }
      ok := Acquire(key, budgets[key.plugin]);
    }

    method Acquire(key: Key, h: Handle) returns (ok: bool)
      requires Valid() && key.plugin in budgets && budgets[key.plugin] == h
      modifies `admitted, `active, `inFlight, `refused
      ensures Valid() && ok == (Count(old(inFlight), h) < Limit(limits, h)) && Rose(old(refused), refused)
      ensures active == if ok then old(active) + {key} else old(active)
      ensures if ok then refused == old(refused)
              else Of(RefusedBy(refused, h), Suggestion) == Saturated(Of(RefusedBy(old(refused), h), Suggestion) + 1)
    {
      if Count(inFlight, h) >= Limit(limits, h) {
        RefuseSuggestion(h);
        return false;
      }
      if key in admitted {
        Rehold(key);
      } else {
        Hold(key, h);
      }
      ok := true;
    }

    /** A repeated dispatch takes a slot and, as its guard replaces the old one, frees one. */
    method Rehold(key: Key)
      requires Valid() && key in admitted
      modifies `inFlight
      ensures Valid()
    {
      var h := admitted[key];
      BalancedAfterDrop(admitted, inFlight, key);
      inFlight := inFlight[h := Count(inFlight, h) + 1];
      inFlight := inFlight[h := Count(inFlight, h) - 1];
      assert forall g :: Count(inFlight, g) == Count(old(inFlight), g);
    }

    method RefuseSuggestion(h: Handle)
      requires Valid()
      modifies `refused
      ensures Valid() && Rose(old(refused), refused)
      ensures Of(RefusedBy(refused, h), Suggestion) == Saturated(Of(RefusedBy(old(refused), h), Suggestion) + 1)
    {
      Refuse(h, Suggestion);
    }

    method Hold(key: Key, h: Handle)
      requires Valid() && key !in admitted && key.plugin in budgets && budgets[key.plugin] == h
      requires Count(inFlight, h) < Limit(limits, h)
      modifies `admitted, `active, `inFlight
      ensures Valid() && active == old(active) + {key}
    {
      TakeSlot(key, h);
    }

    method TakeSlot(key: Key, h: Handle)
      requires SlotsOk() && key !in admitted && key.plugin in budgets && budgets[key.plugin] == h
      requires Count(inFlight, h) < Limit(limits, h)
      modifies `admitted, `active, `inFlight
      ensures SlotsOk() && active == old(active) + {key}
    {
      var now := inFlight[h := Count(inFlight, h) + 1];
      BalancedAfterAdmit(admitted, inFlight, key, h, now);
      inFlight, admitted, active := now, admitted[key := h], active + {key};
    }

    /** `capture_cancellations`: of those the scheduler drained, exactly the ones active. */
    method Capture(drained: seq<Key>)
      requires Valid()
      modifies `unresolved, `pendingCancellations, `log
      ensures Valid()
      ensures Took(drained, active, old(log), old(unresolved), old(pendingCancellations),
                   log, unresolved, pendingCancellations)
    {
      CaptureEach(drained);
    }

    method CaptureEach(drained: seq<Key>)
      requires CancelsOk() && forall k | k in active :: k.plugin in budgets
      modifies `unresolved, `pendingCancellations, `log
      ensures CancelsOk()
      ensures Took(drained, active, old(log), old(unresolved), old(pendingCancellations),
                   log, unresolved, pendingCancellations)
    {
      for n := 0 to |drained|
        invariant CancelsOk()
        invariant Took(drained[..n], active, old(log), old(unresolved), old(pendingCancellations),
                       log, unresolved, pendingCancellations)
      {
        if drained[n] in active {
          TookActive(drained, n, active, old(log), old(unresolved), old(pendingCancellations),
                     log, unresolved, pendingCancellations);
        } else {
          TookInactive(drained, n, active, old(log), old(unresolved), old(pendingCancellations),
                       log, unresolved, pendingCancellations);
        }
        CaptureOne(drained[n]);
      }
      assert drained[..|drained|] == drained;
    }

    method CaptureOne(key: Key)
      requires CancelsOk() && (key in active ==> key.plugin in budgets)
      modifies `unresolved, `pendingCancellations, `log
      ensures CancelsOk()
      ensures if key in active
              then && log == Captured(old(log), key) && unresolved == old(unresolved) + {key}
                   && pendingCancellations == old(pendingCancellations) + [key]
              else unchanged(`log, `unresolved, `pendingCancellations)
    {
      if key in active {
        unresolved, log := unresolved + {key}, Captured(log, key);
        pendingCancellations := pendingCancellations + [key];
      }
    }

    /** `flush_ready_completions`: retires exactly the completions that are ready. */
    method Flush(merged: set<Key>, stale: set<Key>)
      requires Valid()
      modifies `admitted, `active, `inFlight, `unresolved, `log, `refused, `watermark, `reported, `pendingCompletions
      ensures Valid() && Rose(old(refused), refused)
      ensures var ready := Ready(old(pendingCompletions), generation, merged);
              && pendingCompletions == old(pendingCompletions) - ready && active == old(active) - ready
              && unresolved == old(unresolved) - ready * stale
    {
      var left := Ready(pendingCompletions, generation, merged);
      ghost var ready, done: set<Key> := left, {};
      while left != {}
        invariant Valid() && done + left == ready && done !! left && Rose(old(refused), refused)
        invariant pendingCompletions == old(pendingCompletions) - done && active == old(active) - done
        invariant unresolved == old(unresolved) - done * stale
        decreases left
      {
        var key :| key in left;
        FlushOne(key, key in stale);
        Shrink(old(pendingCompletions), done, key);
        Shrink(old(active), done, key);
        ShrinkStale(old(unresolved), done, stale, key);
        left, done := left - {key}, done + {key};
      }
    }

    method FlushOne(key: Key, stale: bool)
      requires Valid()
      modifies `admitted, `active, `inFlight, `unresolved, `log, `refused, `watermark, `reported, `pendingCompletions
      ensures Valid() && Rose(old(refused), refused)
      ensures pendingCompletions == old(pendingCompletions) - {key} && active == old(active) - {key}
      ensures unresolved == old(unresolved) - if stale then {key} else {}
    {
      pendingCompletions := pendingCompletions - {key};
      FinishCompletion(key, stale);
    }

    /** `tick`: ready completions are retired, what the scheduler dispatches is sent or
        turned away and retired, and cancellations are captured and handed over. */
    method Tick(merged: set<Key>, dispatched: seq<Key>, drained: seq<Key>, stale: set<Key>)
      returns (sent: seq<Key>, turnedAway: seq<Key>, cancellations: seq<Key>)
      requires Valid()
      modifies `admitted, `active, `inFlight, `unresolved, `log, `refused, `watermark, `reported,
               `pendingCompletions, `pendingCancellations
      ensures Valid() && pendingCancellations == []
      ensures Split(dispatched, sent, turnedAway)
      ensures var ready := Ready(old(pendingCompletions), generation, merged);
              && pendingCompletions == old(pendingCompletions) - ready
              && Answered(sent, turnedAway, budgets, limits, old(active) - ready, active)
      ensures cancellations == old(pendingCancellations) + Among(drained, active)
      ensures Cancelled(drained, active) <= unresolved && CaughtUp(budgets, old(refused), reported)
    {
      sent, turnedAway := FlushAndDispatch(merged, dispatched, stale);
      ghost var counted := refused;
      cancellations := Collect(drained);
      RoseCatches(budgets, old(refused), counted, reported);
    }

    method FlushAndDispatch(merged: set<Key>, dispatched: seq<Key>, stale: set<Key>)
      returns (sent: seq<Key>, turnedAway: seq<Key>)
      requires Valid()
      modifies `admitted, `active, `inFlight, `unresolved, `log, `refused, `watermark, `reported, `pendingCompletions
      ensures Valid() && Rose(old(refused), refused)
      ensures Split(dispatched, sent, turnedAway)
      ensures var ready := Ready(old(pendingCompletions), generation, merged);
              && pendingCompletions == old(pendingCompletions) - ready
              && Answered(sent, turnedAway, budgets, limits, old(active) - ready, active)
    {
      Flush(merged, stale);
      sent, turnedAway := Dispatch(dispatched, stale);
    }

    /** Captures cancellations and hands over those pending. */
    method Collect(drained: seq<Key>) returns (cancellations: seq<Key>)
      requires Valid()
      modifies `unresolved, `pendingCancellations, `log, `refused, `watermark, `reported
      ensures Valid() && pendingCancellations == [] && CaughtUp(budgets, old(refused), reported)
      ensures cancellations == old(pendingCancellations) + Among(drained, active)
      ensures unresolved == old(unresolved) + Cancelled(drained, active)
    {
      Capture(drained);
      cancellations, pendingCancellations := pendingCancellations, [];
      SyncHealth();
    }

    /** Admits each dispatch or retires it as refused; one is refused only when its
        plugin's slots were all taken. */
    method Dispatch(dispatched: seq<Key>, stale: set<Key>) returns (sent: seq<Key>, turnedAway: seq<Key>)
      requires Valid()
      modifies `admitted, `active, `inFlight, `unresolved, `log, `refused, `watermark, `reported
      ensures Valid() && Split(dispatched, sent, turnedAway) && Rose(old(refused), refused)
      ensures Answered(sent, turnedAway, budgets, limits, old(active), active)
    {
      sent, turnedAway := AdmitAll(dispatched);
      RetireAll(turnedAway, stale);
    }

    method AdmitAll(dispatched: seq<Key>) returns (sent: seq<Key>, refusedKeys: seq<Key>)
      requires Valid()
      modifies `admitted, `active, `inFlight, `refused
      ensures Valid() && Rose(old(refused), refused)
      ensures Admitted(dispatched, sent, refusedKeys, budgets, limits, old(active), active)
    {
      sent, refusedKeys := [], [];
      for n := 0 to |dispatched|
        invariant Valid() && Rose(old(refused), refused)
        invariant Admitted(dispatched[..n], sent, refusedKeys, budgets, limits, old(active), active)
      {
        ghost var counted := refused;
        sent, refusedKeys := AdmitStep(dispatched, n, sent, refusedKeys, old(active));
        RoseTransitive(old(refused), counted, refused);
      }
      assert dispatched[..|dispatched|] == dispatched;
    }

    method AdmitStep(dispatched: seq<Key>, n: nat, sent: seq<Key>, refusedKeys: seq<Key>, ghost before: set<Key>)
      returns (sentNow: seq<Key>, refusedNow: seq<Key>)
      requires Valid() && n < |dispatched|
      requires Admitted(dispatched[..n], sent, refusedKeys, budgets, limits, before, active)
      modifies `admitted, `active, `inFlight, `refused
      ensures Valid() && Rose(old(refused), refused)
      ensures Admitted(dispatched[..n + 1], sentNow, refusedNow, budgets, limits, before, active)
    {
      var ok := AdmitNext(dispatched[n], refusedKeys);
      AdmittedNext(dispatched, n, ok, sent, refusedKeys, budgets, limits, before, old(active), active);
      sentNow := if ok then sent + [dispatched[n]] else sent;
      refusedNow := if ok then refusedKeys else refusedKeys + [dispatched[n]];
    }

    /** One more admission; plugins that were full stay full. */
    method AdmitNext(key: Key, ghost refusedKeys: seq<Key>) returns (ok: bool)
      requires Valid() && Full(refusedKeys, budgets, limits, active)
      modifies `admitted, `active, `inFlight, `refused
      ensures Valid() && active == old(active) + if ok && key.plugin in budgets then {key} else {}
      ensures Full(if ok then refusedKeys else refusedKeys + [key], budgets, limits, active)
      ensures Rose(old(refused), refused)
    {
      NoSlotIsFull(this, key);
      ok := Admit(key);
      StaysWithin(this);
      FullNext(refusedKeys, key, ok, budgets, limits, old(active), active);
    }

    method RetireAll(keys: seq<Key>, stale: set<Key>)
      requires Valid()
      modifies `admitted, `active, `inFlight, `unresolved, `log, `refused, `watermark, `reported
      ensures Valid() && active == old(active) - Distinct(keys) && Rose(old(refused), refused)
    {
      for n := 0 to |keys|
        invariant Valid() && active == old(active) - Distinct(keys[..n]) && Rose(old(refused), refused)
      {
        ghost var counted := refused;
        RetireNext(old(active), keys, n);
        FinishCompletion(keys[n], keys[n] in stale);
        RoseTransitive(old(refused), counted, refused);
      }
      assert keys[..|keys|] == keys;
    }

    /** `keystroke`: a new generation captures what was cancelled, and retires exactly the
        parked completions of older ones. */
    method Keystroke(next: nat, drained: seq<Key>, stale: set<Key>)
      requires Valid()
      modifies `generation, `admitted, `active, `inFlight, `unresolved, `log, `refused, `watermark, `reported,
               `pendingCompletions, `pendingCancellations
      ensures Valid() && generation == next
      ensures var ready := Ready(old(pendingCompletions), next, {});
              && pendingCompletions == old(pendingCompletions) - ready && active == old(active) - ready
              && unresolved == old(unresolved) + Cancelled(drained, old(active)) - ready * stale
      ensures pendingCancellations == old(pendingCancellations) + Among(drained, old(active))
      ensures CaughtUp(budgets, old(refused), reported)
    {
      Roll(next, drained, stale);
      ghost var counted := refused;
      SyncHealth();
      RoseCatches(budgets, old(refused), counted, reported);
    }

    method Roll(next: nat, drained: seq<Key>, stale: set<Key>)
      requires Valid()
      modifies `generation, `admitted, `active, `inFlight, `unresolved, `log, `refused, `watermark, `reported,
               `pendingCompletions, `pendingCancellations
      ensures Valid() && generation == next && Rose(old(refused), refused)
      ensures var ready := Ready(old(pendingCompletions), next, {});
              && pendingCompletions == old(pendingCompletions) - ready && active == old(active) - ready
              && unresolved == old(unresolved) + Cancelled(drained, old(active)) - ready * stale
      ensures pendingCancellations == old(pendingCancellations) + Among(drained, old(active))
    {
      generation := next;
      Capture(drained);
      Flush({}, stale);
    }

    // ---------------- answers

    /** `deliver`: whether the batch was accepted. `refusedStale` is the intake queue's
        verdict, `cancelled` whether the batch says it was cancelled. */
    method Deliver(key: Key, refusedStale: bool, cancelled: bool) returns (ok: bool)
      requires Valid()
      modifies `unresolved, `log, `refused, `watermark, `reported
      ensures Valid() && ok == (!refusedStale && (key.plugin in budgets ==> key in active))
      ensures log == if !ok && key in old(unresolved) then Recorded(old(log), key, cancelled) else old(log)
    {
      if (key.plugin in budgets && key !in active) || refusedStale {
        Resolve(key, cancelled);
        SyncHealth();
        return false;
      }
      ok := true;
    }

    /** `complete`: parks behind queued batches, or retires at once. */
    method Complete(key: Key, queued: bool, stale: bool)
      requires Valid()
      modifies `admitted, `active, `inFlight, `unresolved, `log, `refused, `watermark, `reported, `pendingCompletions
      ensures Valid()
      ensures if key.generation == generation && key in old(active) && queued
              then pendingCompletions == old(pendingCompletions) + {key} && active == old(active) && log == old(log)
              else && pendingCompletions == old(pendingCompletions) && active == old(active) - {key}
                   && log == if stale && key in old(unresolved) then Recorded(old(log), key, true) else old(log)
    {
      if key.generation == generation && key in active && queued {
        pendingCompletions := pendingCompletions + {key};
        return;
      }
      FinishCompletion(key, stale);
    }

    /** `abort_request`: retires everything the request holds; a repeat is a no-op. */
    method AbortRequest(key: Key, stale: bool) returns (had: bool)
      requires Valid()
      modifies `admitted, `active, `inFlight, `unresolved, `log, `refused, `watermark, `reported, `pendingCompletions,
               `pendingCancellations
      ensures Valid()
      ensures had == (key in old(active) || key in old(pendingCompletions) || key in old(unresolved))
      ensures !had ==> unchanged(this)
      ensures key !in active && key !in pendingCompletions && key !in unresolved
      ensures active == old(active) - {key} && pendingCompletions == old(pendingCompletions) - {key}
      ensures had ==> pendingCancellations == Others(old(pendingCancellations), key)
      ensures log == if key in old(unresolved) then Recorded(old(log), key, false) else old(log)
    {
      had := key in active || key in admitted || key in pendingCompletions || key in unresolved;
      if !had { return; }
      pendingCompletions := pendingCompletions - {key};
      pendingCancellations := Others(pendingCancellations, key);
      Retire(key, stale);
    }

    /** Records the abort of a cancelled request, and frees what the request holds. */
    method Retire(key: Key, stale: bool)
      requires Valid()
      modifies `admitted, `active, `inFlight, `unresolved, `log, `refused, `watermark, `reported
      ensures Valid() && active == old(active) - {key} && key !in unresolved
      ensures log == if key in old(unresolved) then Recorded(old(log), key, false) else old(log)
    {
      Resolve(key, false);
      FinishCompletion(key, stale);
    }

    /** `unregister_plugin`: nothing of the plugin survives, and its budget is left empty. */
    method Unregister(plugin: Plugin) returns (had: bool)
      requires Valid()
      modifies `admitted, `active, `inFlight, `unresolved, `log, `pendingCompletions, `pendingCancellations,
               `budgets, `registered, `watermark, `reported
      ensures Valid() && had == (plugin in old(budgets))
      ensures !had ==> unchanged(this)
      ensures had ==> budgets == old(budgets) - {plugin} && Count(inFlight, old(budgets)[plugin]) == 0
      ensures had ==> active == set k | k in old(active) && k.plugin != plugin
      ensures had ==> log == Forgotten(old(log), plugin) && registered == Without(old(registered), plugin)
      ensures had ==> pendingCompletions == set k | k in old(pendingCompletions) && k.plugin != plugin
      ensures had ==> pendingCancellations == OthersOf(old(pendingCancellations), plugin)
      ensures had ==> reported == old(reported) - {plugin}
    {
      had := plugin in budgets;
      if had { Remove(plugin); }
    }

    method Remove(plugin: Plugin)
      requires Valid() && plugin in budgets
      modifies `admitted, `active, `inFlight, `unresolved, `log, `pendingCompletions, `pendingCancellations,
               `budgets, `registered, `watermark, `reported
      ensures Valid() && budgets == old(budgets) - {plugin} && Count(inFlight, old(budgets)[plugin]) == 0
      ensures active == set k | k in old(active) && k.plugin != plugin
      ensures log == Forgotten(old(log), plugin) && registered == Without(old(registered), plugin)
      ensures pendingCompletions == set k | k in old(pendingCompletions) && k.plugin != plugin
      ensures pendingCancellations == OthersOf(old(pendingCancellations), plugin)
      ensures reported == old(reported) - {plugin}
    {
      Release(plugin);
      RemovePending(plugin);
    }

    method RemovePending(plugin: Plugin)
      requires Valid() && plugin in budgets
      requires (forall k | k in active :: k.plugin != plugin) && (forall k | k in unresolved :: k.plugin != plugin)
      modifies `pendingCompletions, `pendingCancellations, `budgets, `registered, `watermark, `reported
      ensures Valid() && budgets == old(budgets) - {plugin} && registered == Without(old(registered), plugin)
      ensures reported == old(reported) - {plugin}
      ensures pendingCompletions == set k | k in old(pendingCompletions) && k.plugin != plugin
      ensures pendingCancellations == OthersOf(old(pendingCancellations), plugin)
    {
      ForgetPending(plugin);
      Erase(plugin);
    }

    method Release(plugin: Plugin)
      requires Valid() && plugin in budgets
      modifies `admitted, `active, `inFlight, `unresolved, `log
      ensures Valid() && active == (set k | k in old(active) && k.plugin != plugin)
      ensures Count(inFlight, budgets[plugin]) == 0 && log == Forgotten(old(log), plugin)
      ensures forall k | k in unresolved :: k.plugin != plugin
    {
      DropGuards(plugin);
      Forget(plugin);
    }

    method DropGuards(plugin: Plugin)
      requires Valid() && plugin in budgets
      modifies `admitted, `active, `inFlight
      ensures Valid() && active == (set k | k in old(active) && k.plugin != plugin)
      ensures Count(inFlight, budgets[plugin]) == 0
    {
      var owned := set k | k in active && k.plugin == plugin;
      FreeSlots(owned);
      NoneHeld(budgets, admitted, inFlight, plugin);
    }

    method FreeSlots(keys: set<Key>)
      requires SlotsOk()
      modifies `admitted, `active, `inFlight
      ensures SlotsOk() && active == old(active) - keys
    {
      var left := keys;
      while left != {}
        invariant SlotsOk() && left <= keys && active == old(active) - (keys - left)
        decreases left
      {
        var key :| key in left;
        FreeSlot(key);
        left := left - {key};
      }
    }

    method Forget(plugin: Plugin)
      requires Valid()
      modifies `unresolved, `log
      ensures Valid() && log == Forgotten(old(log), plugin) && forall k | k in unresolved :: k.plugin != plugin
    {
      unresolved := set k | k in unresolved && k.plugin != plugin;
      log := Forgotten(log, plugin);
    }

    method Erase(plugin: Plugin)
      requires Valid() && plugin in budgets
      requires (forall k | k in active :: k.plugin != plugin) && (forall k | k in unresolved :: k.plugin != plugin)
      modifies `budgets, `registered, `watermark, `reported
      ensures Valid() && budgets == old(budgets) - {plugin} && registered == Without(old(registered), plugin)
      ensures reported == old(reported) - {plugin}
    {
      DropBudget(plugin);
      DropHealth(plugin, old(budgets));
    }

    method DropHealth(plugin: Plugin, ghost before: map<Plugin, Handle>)
      requires Reported(before, refused, watermark, reported) && budgets == before - {plugin}
      modifies `watermark, `reported
      ensures RefusalsOk() && reported == old(reported) - {plugin}
    {
      ReportedWithout(before, refused, watermark, reported, plugin);
      watermark, reported := watermark - {plugin}, reported - {plugin};
    }

    method ForgetPending(plugin: Plugin)
      modifies `pendingCompletions, `pendingCancellations
      ensures pendingCompletions == set k | k in old(pendingCompletions) && k.plugin != plugin
      ensures pendingCancellations == OthersOf(old(pendingCancellations), plugin)
    {
      pendingCompletions := set k | k in pendingCompletions && k.plugin != plugin;
      pendingCancellations := OthersOf(pendingCancellations, plugin);
    }

    method DropBudget(plugin: Plugin)
      requires SlotsOk() && OwnersOk() && CancelsOk()
      requires (forall k | k in active :: k.plugin != plugin) && (forall k | k in unresolved :: k.plugin != plugin)
      modifies `budgets, `registered
      ensures SlotsOk() && OwnersOk() && CancelsOk()
      ensures budgets == old(budgets) - {plugin} && registered == Without(old(registered), plugin)
    {
      budgets := budgets - {plugin};
      registered := Without(registered, plugin);
    }
  }

  function Others(keys: seq<Key>, key: Key): (r: seq<Key>) {
    if keys == [] then [] else (if keys[0] == key then [] else [keys[0]]) + Others(keys[1..], key)
  }

  function OthersOf(keys: seq<Key>, plugin: Plugin): (r: seq<Key>) {
    if keys == [] then [] else (if keys[0].plugin == plugin then [] else [keys[0]]) + OthersOf(keys[1..], plugin)
  }

  function Without(plugins: seq<Plugin>, plugin: Plugin): (r: seq<Plugin>)
    ensures forall p :: p in r <==> p in plugins && p != plugin
  {
    if plugins == [] then [] else (if plugins[0] == plugin then [] else [plugins[0]]) + Without(plugins[1..], plugin)
  }

  /** Each plugin's suggestion occupancy is the number of its active requests, within the
      limit its budget was resolved to; and no budget has two owners. */
  lemma OccupancyIsActive(d: QueryPipeline, plugin: Plugin)
    requires d.Valid() && plugin in d.budgets
    ensures |ActiveOf(d.active, plugin)| == Count(d.inFlight, d.budgets[plugin]) <= Limit(d.limits, d.budgets[plugin])
    ensures forall other | other in d.budgets && d.budgets[other] == d.budgets[plugin] :: other == plugin
  {
    var h := d.budgets[plugin];
    assert ActiveOf(d.active, plugin) == Holders(d.admitted, h);
    assert Count(d.inFlight, h) == |Holders(d.admitted, h)|;
  }

  lemma StaysWithin(d: QueryPipeline)
    requires d.Valid()
    ensures Within(d.budgets, d.limits, d.active)
  {
    forall p | p in d.budgets
      ensures |ActiveOf(d.active, p)| <= Limit(d.limits, d.budgets[p]) { OccupancyIsActive(d, p); }
  }

  lemma NoSlotIsFull(d: QueryPipeline, key: Key)
    requires d.Valid()
    ensures key.plugin in d.budgets ==>
              Count(d.inFlight, d.budgets[key.plugin]) >= Limit(d.limits, d.budgets[key.plugin]) ==>
              Full([key], d.budgets, d.limits, d.active)
  {
    if key.plugin in d.budgets { OccupancyIsActive(d, key.plugin); }
  }

  /** One kind's reported total, raised by what was newly observed. */
  function Raised(total: Refusals, kind: Kind, was: Refusals, observed: Refusals): (r: Refusals) {
    var delta := if Of(observed, kind) > Of(was, kind) then Of(observed, kind) - Of(was, kind) else 0;
    With(total, kind, Saturated(Of(total, kind) + delta))
  }
}
