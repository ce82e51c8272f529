/** The ranker of crates/crikey-ranking, over exact reals.

    Floating point enters the program only through sums and quotients that are
    monotone in every signal, so the ordering facts proved here do not depend on
    how they round.
 */
module Ranking {
  import opened Integers
  import opened Text
  import opened Matching

  const MIN_SCORE: real := -0.2
  const MAX_SCORE: real := 2.92

  /** Within-band evidence for one (query, item): match quality and the earliest
      highlighted character. The ranking laws hold whatever these are. */
  datatype Evidence = Evidence(quality: real, position: Option<nat>)

  datatype Entry = Entry(frequency: u32, lastSelected: Option<nat>)

  /** Everything a score depends on besides the query and the item. */
  datatype Context = Context(
    history: map<(string, string), Entry>,
    affinity: (string, string, string) -> nat,
    evidence: (string, Item) -> Evidence,
    foreground: Option<Category>,
    now: nat)

  function Clamp(x: real, lo: real, hi: real): (r: real)
    requires lo <= hi
    ensures lo <= r <= hi
  {
    if x < lo then lo else if x > hi then hi else x
  }

  /** Rises from 0 towards 1; worth one half at `half`. */
  function Rise(x: real, half: real): (r: real)
    requires 0.0 <= x && 0.0 < half
  {
    x / (x + half)
  }

  /** Falls from 1 towards 0; worth one half at `half`. */
  function Decay(x: real, half: real): (r: real)
    requires 0.0 <= x && 0.0 < half
  {
    half / (x + half)
  }

  lemma QuotientAtMost(a: real, b: real, q: real)
    requires 0.0 < b && a <= q * b
    ensures a / b <= q
  {
    assert a / b * b == a;
  }

  lemma QuotientAtLeast(a: real, b: real, q: real)
    requires 0.0 < b && q * b <= a
    ensures q <= a / b
  {
    assert a / b * b == a;
  }

  lemma RiseMonotone(x: real, y: real, half: real)
    requires 0.0 <= x <= y && 0.0 < half
    ensures 0.0 <= Rise(x, half) <= Rise(y, half) <= 1.0
  {
    QuotientAtLeast(x, x + half, 0.0);
    QuotientAtMost(y, y + half, 1.0);
    var r := Rise(y, half);
    assert r * (y + half) == y;
    assert r * (x + half) == r * (y + half) - r * (y - x);
    assert r * (y - x) <= 1.0 * (y - x);
    QuotientAtMost(x, x + half, r);
  }

  lemma DecayBounds(x: real, half: real)
    requires 0.0 <= x && 0.0 < half
    ensures 0.0 <= Decay(x, half) <= 1.0
  {
    QuotientAtLeast(half, x + half, 0.0);
    QuotientAtMost(half, x + half, 1.0);
  }

  function CategoryWeight(c: Category): (w: real)
    ensures 0.0 <= w <= 1.0
  {
    match c
    case Application => 1.0
    case Keyword => 0.9
    case Command => 0.85
    case Expression => 0.8
    case Contact => 0.7
    case Url => 0.65
    case Directory => 0.6
    case File => 0.55
    case ClipboardItem => 0.5
    case PluginDefined(_) => 0.5
  }

  /** The plugin's signed opinion, folded into (-1, 1). */
  function HintSignal(hint: int): (r: real) {
    var scaled := hint as real / 100.0;
    scaled / (1.0 + if scaled < 0.0 then -scaled else scaled)
  }

  /** `(floor, ceiling)` of the score band of a method. */
  function Band(m: Method): (b: (real, real))
    ensures b.0 <= b.1
  {
    match m
    case ExactPrefix => (0.90, 1.00)
    case Prefix => (0.75, 0.88)
    case WordPrefix => (0.60, 0.73)
    case Substring => (0.45, 0.58)
    case KeywordHit => (0.30, 0.43)
    case Fuzzy => (0.05, 0.17)
  }

  function ScoreFor(m: Method, quality: real): (s: real)
    ensures Band(m).0 <= s <= Band(m).1
  {
    var (low, high) := Band(m);
    Clamp(low + (high - low) * Clamp(quality, 0.0, 1.0), low, high)
  }

  datatype Signals = Signals(
    quality: real, exact: bool, position: Option<nat>, category: real, hint: real,
    frequency: u32, age: Option<nat>, queryHistory: real, context: bool, preference: real)

  function Weighted(s: Signals): (total: real) {
    Clamp(s.quality, 0.0, 1.0)
    + (if s.exact then 0.35 else 0.0)
    + (if s.position.Some? then 0.02 * Decay(s.position.value as real, 4.0) else 0.0)
    + 0.25 * Clamp(s.category, 0.0, 1.0)
    + 0.2 * s.hint
    + 0.3 * Rise(s.frequency as real, 8.0)
    + (if s.age.Some? then 0.25 * Decay(s.age.value as real, 86400.0) else 0.0)
    + 0.2 * Clamp(s.queryHistory, 0.0, 1.0)
    + (if s.context then 0.15 else 0.0)
    + 0.2 * Clamp(s.preference, 0.0, 1.0)
  }

  function ScoreSignals(s: Signals): (score: real) {
    Clamp(Weighted(s), MIN_SCORE, MAX_SCORE)
  }

  /** Highest score the ranker grants without a label-prefix match. */
  function NonPrefixUpperBound(item: Item): (score: real) {
    ScoreSignals(Signals(0.73, false, Some(0), CategoryWeight(item.category), HintSignal(item.hint),
                         U32_MAX, Some(0), 1.0, true, 1.0))
  }

  /** The signals one matched item earns under a context. */
  function SignalsOf(ctx: Context, query: string, item: Item, m: Method): (s: Signals) {
    var evidence := ctx.evidence(query, item);
    var key := (item.owner, item.id);
    var count := ctx.affinity(query, item.owner, item.id);
    Signals(
      ScoreFor(m, evidence.quality), m.ExactPrefix?, evidence.position,
      CategoryWeight(item.category), HintSignal(item.hint),
      if key in ctx.history then ctx.history[key].frequency else 0,
      if key in ctx.history && ctx.history[key].lastSelected.Some?
        then Some(if ctx.history[key].lastSelected.value <= ctx.now
                  then ctx.now - ctx.history[key].lastSelected.value else 0)
        else None,
      Rise(count as real, 8.0),
      ctx.foreground == Some(item.category),
      0.0)
  }

  /** The score of an item that matches, or `None`. */
  function Score(policy: Policy, ctx: Context, query: string, item: Item): (r: Option<real>)
    ensures r.Some? <==> Matches(policy, query, item)
  {
    var m := MatchItem(policy, query, item);
    if m.None? then None else Some(ScoreSignals(SignalsOf(ctx, query, item, m.value)))
  }

  // ---------------------------------------------------------------- the non-prefix bound

  /** The item's label does not begin with the query's leading token. */
  predicate NonPrefixLabel(query: string, item: Item) {
    Tokens(query) != [] && !(Tokens(query)[0] <= item.labelText)
  }

  lemma {:induction false} TrimStartOpens(s: string)
    ensures TrimStart(s) == "" || !IsWhite(TrimStart(s)[0])
  {
    if s != "" && IsWhite(s[0]) { TrimStartOpens(s[1..]); }
  }

  lemma FirstTokenLeads(s: string)
    requires s != "" && !IsWhite(s[0])
    ensures Tokens(s) != [] && Tokens(s)[0] <= s
  {
  }

  lemma TrimOpens(s: string)
    requires Tokens(s) != []
    ensures Tokens(s)[0] <= Trim(s)
  {
    TrimContained(s);
    TrimStartOpens(s);
    TrimEndContained(TrimStart(s));
    FirstTokenLeads(Trim(s));
  }

  /** An exact match outside the prefix index needs a label that opens with white space. */
  lemma SpacedExactOnly(query: string, item: Item)
    requires NonPrefixLabel(query, item) && ReproducesLabel(query, item)
    ensures item.labelText != "" && IsWhite(item.labelText[0])
  {
    TrimContained(query);
    TrimContained(item.labelText);
    if item.labelText != "" && !IsWhite(item.labelText[0]) {
      FirstTokenLeads(item.labelText);
    }
  }

  lemma {:induction false} WeakestAtLeastFirst(policy: Policy, item: Item, tokens: seq<string>)
    requires tokens != [] && Weakest(policy, item, tokens).Some?
    ensures MatchToken(policy, item, tokens[0]).Some?
    ensures Precedence(Weakest(policy, item, tokens).value) >= Precedence(MatchToken(policy, item, tokens[0]).value)
  {
  }

  lemma TokenMethodOffIndex(policy: Policy, item: Item, token: string)
    requires !(token <= item.labelText) && MatchToken(policy, item, token).Some?
    ensures Precedence(MatchToken(policy, item, token).value) >= 2
  {
  }

  /** Off the prefix index, only a whole-label reading beats a word prefix. */
  lemma NonPrefixMethod(policy: Policy, query: string, item: Item)
    requires NonPrefixLabel(query, item) && Matches(policy, query, item) && !ReproducesLabel(query, item)
    ensures Precedence(MatchItem(policy, query, item).value) >= 2
  {
    TrimOpens(query);
    assert MatchItem(policy, query, item) == Weakest(policy, item, Tokens(query));
    WeakestAtLeastFirst(policy, item, Tokens(query));
    TokenMethodOffIndex(policy, item, Tokens(query)[0]);
  }

  /** Every optional signal is at most its saturated value. */
  lemma WeightedAtMost(s: Signals, item: Item)
    requires s.quality <= 0.73 && !s.exact
    requires s.category == CategoryWeight(item.category) && s.hint == HintSignal(item.hint)
    ensures ScoreSignals(s) <= NonPrefixUpperBound(item)
  {
    if s.position.Some? { DecayBounds(s.position.value as real, 4.0); }
    if s.age.Some? { DecayBounds(s.age.value as real, 86400.0); }
    RiseMonotone(s.frequency as real, U32_MAX as real, 8.0);
    assert Decay(0.0, 4.0) == 1.0 && Decay(0.0, 86400.0) == 1.0;
  }

  /** The pruning bound is sound for every reading except a whole-label one. */
  lemma NonPrefixBound(policy: Policy, ctx: Context, query: string, item: Item)
    requires NonPrefixLabel(query, item) && Matches(policy, query, item) && !ReproducesLabel(query, item)
    ensures Score(policy, ctx, query, item).value <= NonPrefixUpperBound(item)
  {
    NonPrefixMethod(policy, query, item);
    var m := MatchItem(policy, query, item).value;
    WeightedAtMost(SignalsOf(ctx, query, item, m), item);
  }

  /** A context in which every history signal of `item` is saturated. */
  function SaturatedFor(item: Item): (ctx: Context) {
    Context(map[(item.owner, item.id) := Entry(U32_MAX, Some(0))],
            (_, _, _) => 0, (_, _) => Evidence(1.0, Some(0)), Some(item.category), 0)
  }

  lemma SaturatedExact(policy: Policy, query: string, item: Item)
    requires Tokens(query) != [] && ReproducesLabel(query, item)
    ensures Score(policy, SaturatedFor(item), query, item).value > NonPrefixUpperBound(item)
  {
    var s := SignalsOf(SaturatedFor(item), query, item, ExactPrefix);
    assert Decay(0.0, 4.0) == 1.0 && Decay(0.0, 86400.0) == 1.0 && Rise(0.0, 8.0) == 0.0;
    HintBounds(item.hint);
    RiseMonotone(U32_MAX as real, U32_MAX as real, 8.0);
  }

  lemma HintBounds(hint: int)
    ensures -1.0 <= HintSignal(hint) <= 1.0
  {
    var scaled := hint as real / 100.0;
    if scaled < 0.0 {
      QuotientAtLeast(scaled, 1.0 - scaled, -1.0);
      QuotientAtMost(scaled, 1.0 - scaled, 1.0);
    } else {
      QuotientAtLeast(scaled, 1.0 + scaled, -1.0);
      QuotientAtMost(scaled, 1.0 + scaled, 1.0);
    }
  }

  /** `non_prefix_upper_bound` bounds an off-index match under every history
      exactly when the query does not reproduce the whole (spaced) label. */
  lemma NonPrefixBoundIff(policy: Policy, query: string, item: Item)
    requires NonPrefixLabel(query, item) && Matches(policy, query, item)
    ensures (forall ctx: Context :: Score(policy, ctx, query, item).value <= NonPrefixUpperBound(item))
            <==> !ReproducesLabel(query, item)
  {
    if ReproducesLabel(query, item) {
      SaturatedExact(policy, query, item);
    } else {
      forall ctx: Context ensures Score(policy, ctx, query, item).value <= NonPrefixUpperBound(item) {
        NonPrefixBound(policy, ctx, query, item);
      }
    }
  }
}
