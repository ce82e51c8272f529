/** Bounded ranked selection: `select_best`, `retain_best` and the candidate order
    of crates/crikey-app/src/lib.rs, against a brute-force reference.

    A `BinaryHeap` of limited size is held as its contents in descending order:
    the root is the last element.
 */
module Selection {
  import opened Integers
  import opened Text
  import opened Matching
  import opened Ranking
  import opened Sorting

  // ---------------------------------------------------------------- candidates

  /** A matching item and its score; (owner, id) identifies the item. */
  datatype Candidate = Candidate(score: real, id: string, owner: string)

  /** The presentation order: score, then smaller id, then smaller owner. */
  predicate Above(a: Candidate, b: Candidate) {
    || a.score > b.score
    || (a.score == b.score && LexLess(a.id, b.id))
    || (a.score == b.score && a.id == b.id && LexLess(a.owner, b.owner))
  }

  lemma AboveTotal(a: Candidate, b: Candidate)
    ensures Above(a, b) || a == b || Above(b, a)
    ensures !(Above(a, b) && Above(b, a))
    ensures !Above(a, a)
  {
    LexTotal(a.id, b.id);
    LexTotal(a.owner, b.owner);
    LexTotal(a.id, a.id);
    LexTotal(a.owner, a.owner);
  }

  lemma AboveTransitive(a: Candidate, b: Candidate, c: Candidate)
    requires Above(a, b) && Above(b, c)
    ensures Above(a, c)
  {
    LexTotal(a.id, b.id);
    LexTotal(b.id, c.id);
    if a.score == b.score == c.score {
      if LexLess(a.id, b.id) && LexLess(b.id, c.id) { LexTransitive(a.id, b.id, c.id); }
      if a.id == b.id == c.id { LexTransitive(a.owner, b.owner, c.owner); }
    }
  }

  ghost predicate Descending(r: seq<Candidate>) {
    forall i, j | 0 <= i < j < |r| :: Above(r[i], r[j])
  }

  // ---------------------------------------------------------------- the reference

  ghost predicate Tops(m: Candidate, s: set<Candidate>) {
    m in s && forall x | x in s && x != m :: Above(m, x)
  }

  lemma {:induction false} StrongestExists(s: set<Candidate>) returns (top: Candidate)
    requires s != {}
    ensures Tops(top, s)
  {
    var c :| c in s;
    if s == {c} {
      top := c;
    } else {
      var m := StrongestExists(s - {c});
      AboveTotal(m, c);
      top := if Above(c, m) then c else m;
      forall x | x in s && x != top ensures Above(top, x) {
        if top == c && x != m {
          assert x in s - {c};
          AboveTransitive(c, m, x);
        }
      }
    }
  }

  ghost function Strongest(s: set<Candidate>): (m: Candidate)
    requires s != {}
    ensures Tops(m, s)
  {
    assert exists m :: Tops(m, s) by { var top := StrongestExists(s); }
    var m :| Tops(m, s);
    m
  }

  /** Brute force: take the strongest candidate, `k` times. */
  ghost function Best(s: set<Candidate>, k: nat): (r: seq<Candidate>)
    decreases k
  {
    if k == 0 || s == {} then []
    else [Strongest(s)] + Best(s - {Strongest(s)}, k - 1)
  }

  /** `r` is the `k` strongest of `s`, strongest first. */
  ghost predicate IsBest(r: seq<Candidate>, s: set<Candidate>, k: nat) {
    && Descending(r)
    && (forall c | c in r :: c in s)
    && |r| <= k
    && (|r| < k ==> forall c | c in s :: c in r)
    && (forall c, d | c in r && d in s && d !in r :: Above(c, d))
  }

  lemma PrependStrongest(m: Candidate, s: set<Candidate>, tail: seq<Candidate>, k: nat)
    requires Tops(m, s) && IsBest(tail, s - {m}, k)
    ensures IsBest([m] + tail, s, k + 1)
  {
    var r := [m] + tail;
    forall i, j | 0 <= i < j < |r| ensures Above(r[i], r[j]) {
      assert r[j] == tail[j - 1] && tail[j - 1] in tail;
      if i > 0 { assert Above(tail[i - 1], tail[j - 1]); }
    }
  }

  lemma {:induction false} BestIsBest(s: set<Candidate>, k: nat)
    ensures IsBest(Best(s, k), s, k)
    decreases k
  {
    if k > 0 && s != {} {
      var m := Strongest(s);
      BestIsBest(s - {m}, k - 1);
      PrependStrongest(m, s, Best(s - {m}, k - 1), k - 1);
    }
  }

  lemma TopsUnique(a: Candidate, b: Candidate, s: set<Candidate>)
    requires Tops(a, s) && Tops(b, s)
    ensures a == b
  {
    AboveTotal(a, b);
  }

  lemma BestHead(r: seq<Candidate>, s: set<Candidate>, k: nat)
    requires IsBest(r, s, k) && r != []
    ensures Tops(r[0], s)
  {
    assert r[0] in r;
    forall x | x in s && x != r[0] ensures Above(r[0], x) {
      if x in r {
        var i :| 0 <= i < |r| && r[i] == x;
      }
    }
  }

  lemma BestTail(r: seq<Candidate>, s: set<Candidate>, k: nat)
    requires IsBest(r, s, k) && r != []
    ensures IsBest(r[1..], s - {r[0]}, k - 1)
  {
    var tail := r[1..];
    forall i | 0 <= i < |tail| ensures tail[i] != r[0] {
      assert Above(r[0], r[i + 1]);
      AboveTotal(r[0], r[0]);
    }
    forall i, j | 0 <= i < j < |tail| ensures Above(tail[i], tail[j]) {
      assert Above(r[i + 1], r[j + 1]);
    }
    assert r == [r[0]] + tail;
  }

  lemma NoneBest(s: set<Candidate>, k: nat)
    requires IsBest([], s, k)
    ensures k == 0 || s == {}
  {
    if k > 0 { assert forall c | c in s :: c in []; }
  }

  /** The characterization determines the result. */
  lemma {:induction false} BestUnique(r: seq<Candidate>, s: set<Candidate>, k: nat)
    requires IsBest(r, s, k)
    ensures r == Best(s, k)
    decreases k
  {
    if r == [] {
      NoneBest(s, k);
    } else {
      BestHead(r, s, k);
      TopsUnique(r[0], Strongest(s), s);
      BestTail(r, s, k);
      BestUnique(r[1..], s - {r[0]}, k - 1);
      assert r == [r[0]] + r[1..];
    }
  }

  // ---------------------------------------------------------------- bounded heap

  /** `retain_best`: push below the limit, else replace the weakest if beaten. */
  function RetainBest(r: seq<Candidate>, c: Candidate, limit: nat): (out: seq<Candidate>) {
    if |r| < limit then Insert(Above, c, r)
    else if r != [] && Above(c, r[|r| - 1]) then Insert(Above, c, r[..|r| - 1])
    else r
  }

  lemma DescendingTail(r: seq<Candidate>)
    requires Descending(r) && r != []
    ensures Descending(r[1..])
  {
    forall i, j | 0 <= i < j < |r[1..]| ensures Above(r[1..][i], r[1..][j]) { assert Above(r[i + 1], r[j + 1]); }
  }

  lemma {:induction false} InsertSorted(r: seq<Candidate>, c: Candidate)
    requires Descending(r) && c !in r
    ensures Descending(Insert(Above, c, r)) && |Insert(Above, c, r)| == |r| + 1
    ensures forall x :: x in Insert(Above, c, r) <==> x == c || x in r
  {
    var out := Insert(Above, c, r);
    if r != [] {
      AboveTotal(c, r[0]);
      if Above(c, r[0]) {
        forall i, j | 0 <= i < j < |out| ensures Above(out[i], out[j]) {
          if i == 0 && j > 1 { AboveTransitive(c, r[0], r[j - 1]); }
        }
      } else {
        DescendingTail(r);
        InsertSorted(r[1..], c);
        assert r == [r[0]] + r[1..];
        AboveRest(r, c, Insert(Above, c, r[1..]));
      }
    }
  }

  lemma AboveRest(r: seq<Candidate>, c: Candidate, tail: seq<Candidate>)
    requires Descending(r) && r != [] && Above(r[0], c)
    requires Descending(tail) && forall x | x in tail :: x == c || x in r[1..]
    ensures Descending([r[0]] + tail)
  {
    var out := [r[0]] + tail;
    forall i, j | 0 <= i < j < |out| ensures Above(out[i], out[j]) {
      assert out[j] == tail[j - 1] && tail[j - 1] in tail;
      if i > 0 {
        assert Above(tail[i - 1], tail[j - 1]);
      } else if out[j] != c {
        var t :| 0 <= t < |r[1..]| && r[1..][t] == out[j];
        assert Above(r[0], r[t + 1]);
      }
    }
  }

  /** A full heap whose weakest entry beats `c` is unchanged by offering it. */
  lemma BeatenByAll(r: seq<Candidate>, s: set<Candidate>, k: nat, c: Candidate)
    requires IsBest(r, s, k) && |r| == k > 0 && Above(r[k - 1], c) && c !in s
    ensures IsBest(r, s + {c}, k)
  {
    forall x, d | x in r && d in s + {c} && d !in r ensures Above(x, d) {
      if d == c {
        var i :| 0 <= i < |r| && r[i] == x;
        if i < k - 1 { AboveTransitive(x, r[k - 1], c); }
      }
    }
  }

  lemma DropWeakest(r: seq<Candidate>, s: set<Candidate>, k: nat, c: Candidate)
    requires IsBest(r, s, k) && |r| == k > 0 && c !in s && Above(c, r[k - 1])
    ensures IsBest(Insert(Above, c, r[..k - 1]), s + {c}, k)
  {
    var kept, weakest := r[..k - 1], r[k - 1];
    assert r == kept + [weakest];
    assert weakest !in kept by {
      forall i | 0 <= i < k - 1
        ensures kept[i] != weakest { assert Above(r[i], weakest); AboveTotal(weakest, weakest); }
    }
    InsertSorted(kept, c);
    var out := Insert(Above, c, kept);
    forall x, d | x in out && d in s + {c} && d !in out ensures Above(x, d) {
      if d != weakest { assert Above(weakest, d); }
      if x == c {
        if d != weakest { AboveTransitive(c, weakest, d); }
      } else {
        var i :| 0 <= i < |kept| && kept[i] == x;
        assert Above(r[i], weakest);
      }
    }
  }

  /** Offering a new candidate to the heap keeps it the best of what was offered. */
  lemma RetainBestKeepsBest(r: seq<Candidate>, s: set<Candidate>, k: nat, c: Candidate)
    requires IsBest(r, s, k) && c !in s
    ensures IsBest(RetainBest(r, c, k), s + {c}, k)
  {
    if |r| < k {
      InsertSorted(r, c);
    } else if r != [] {
      AboveTotal(c, r[k - 1]);
      if Above(c, r[k - 1]) {
        DropWeakest(r, s, k, c);
      } else {
        BeatenByAll(r, s, k, c);
      }
    }
  }

  // ---------------------------------------------------------------- one owner

  /** What a query is answered under. */
  datatype Plan = Plan(policy: Policy, ctx: Context, query: string, perPlugin: nat, global: nat, batch: nat)

  /** One owner's retained slice: its own well-formed items, each id once. */
  ghost predicate Slice(owner: string, items: seq<Item>) {
    && (forall i | 0 <= i < |items| :: items[i].owner == owner && WellFormed(items[i]))
    && (forall i, j | 0 <= i < j < |items| :: items[i].id != items[j].id)
  }

  ghost predicate Distinct(ps: seq<nat>) {
    forall i, j | 0 <= i < j < |ps| :: ps[i] != ps[j]
  }

  function CandidateOf(plan: Plan, item: Item): (c: Candidate)
    requires Matches(plan.policy, plan.query, item)
  {
    Candidate(Score(plan.policy, plan.ctx, plan.query, item).value, item.id, item.owner)
  }

  /** The scored matches among the positions `ps`. */
  ghost function MatchesAt(plan: Plan, items: seq<Item>, ps: set<nat>): (s: set<Candidate>) {
    set p | p in ps && p < |items| && Matches(plan.policy, plan.query, items[p]) :: CandidateOf(plan, items[p])
  }

  /** The leading token, when the prefix index can answer it. */
  function PrefixToken(query: string): (r: Option<string>)
    ensures r.Some? ==> Tokens(query) != [] && r.value == Tokens(query)[0]
  {
    var tokens := Tokens(query);
    if tokens != [] && |tokens[0]| >= 2 && AsciiAlphanumeric(tokens[0][0]) && AsciiAlphanumeric(tokens[0][1])
    then Some(tokens[0]) else None
  }

  predicate AsciiAlphanumeric(c: char) {
    'a' <= c <= 'z' || 'A' <= c <= 'Z' || '0' <= c <= '9'
  }

  predicate OnPrefixIndex(query: string, item: Item) {
    PrefixToken(query).Some? && PrefixToken(query).value <= item.labelText
  }

  /** The positions a pass can reach: the prefix index, and either the cached
      positions or, cold, everything. */
  ghost function Visible(plan: Plan, items: seq<Item>, prior: Option<seq<nat>>): (ps: set<nat>) {
    set p: nat | p < |items| && (prior.None? || p in prior.value || OnPrefixIndex(plan.query, items[p]))
  }

  /** What the posting lists offer on a cold visit: every match, each position once. */
  ghost predicate ColdVisit(plan: Plan, items: seq<Item>, cold: seq<nat>) {
    && Distinct(cold)
    && (forall p | p in cold :: p < |items|)
    && (forall p: nat | p < |items| && Matches(plan.policy, plan.query, items[p]) :: p in cold)
  }

  /** A whole-label match that the prefix index misses: the one reading its pruning
      bound does not cover. */
  predicate Exposed(query: string, item: Item) {
    PrefixToken(query).Some? && !OnPrefixIndex(query, item) && ReproducesLabel(query, item)
  }

  ghost predicate BoundSafe(query: string, items: seq<Item>) {
    forall p | 0 <= p < |items| :: !Exposed(query, items[p])
  }

  ghost predicate UpperSound(items: seq<Item>, upper: Option<real>) {
    upper.Some? ==> forall p | 0 <= p < |items| :: NonPrefixUpperBound(items[p]) <= upper.value
  }

  /** Nothing is exposed among labels that do not open with white space, nor to a query
      the prefix index cannot answer. */
  lemma UnspacedIsSafe(query: string, items: seq<Item>)
    requires PrefixToken(query).None? ||
             forall p | 0 <= p < |items| :: items[p].labelText == "" || !IsWhite(items[p].labelText[0])
    ensures BoundSafe(query, items)
  {
    forall p | 0 <= p < |items| ensures !Exposed(query, items[p]) {
      if NonPrefixLabel(query, items[p]) && ReproducesLabel(query, items[p]) {
        SpacedExactOnly(query, items[p]);
      }
    }
  }

  /** Adding a position adds exactly its candidate, which is new. */
  lemma OfferPosition(plan: Plan, owner: string, items: seq<Item>, ps: set<nat>, p: nat)
    requires Slice(owner, items) && p < |items| && p !in ps
    ensures Matches(plan.policy, plan.query, items[p]) ==>
              && CandidateOf(plan, items[p]) !in MatchesAt(plan, items, ps)
              && MatchesAt(plan, items, ps + {p}) == MatchesAt(plan, items, ps) + {CandidateOf(plan, items[p])}
    ensures !Matches(plan.policy, plan.query, items[p]) ==>
              MatchesAt(plan, items, ps + {p}) == MatchesAt(plan, items, ps)
  {
    if Matches(plan.policy, plan.query, items[p]) {
      forall q | q in ps && q < |items| && Matches(plan.policy, plan.query, items[q])
        ensures CandidateOf(plan, items[q]) != CandidateOf(plan, items[p])
      {
        assert items[q].id != items[p].id;
      }
    }
  }

  /** The guard under which an off-index item is skipped unscored. */
  predicate Prunes(plan: Plan, item: Item, r: seq<Candidate>) {
    && PrefixToken(plan.query).Some? && |r| == plan.perPlugin > 0
    && NonPrefixUpperBound(item) < r[|r| - 1].score
  }

  /** A pruned item that is not exposed could not have entered. */
  lemma PrunedStaysOut(plan: Plan, owner: string, items: seq<Item>, ps: set<nat>, p: nat, r: seq<Candidate>)
    requires Slice(owner, items) && p < |items| && p !in ps
    requires !OnPrefixIndex(plan.query, items[p]) && !Exposed(plan.query, items[p])
    requires Prunes(plan, items[p], r) && IsBest(r, MatchesAt(plan, items, ps), plan.perPlugin)
    ensures IsBest(r, MatchesAt(plan, items, ps + {p}), plan.perPlugin)
  {
    OfferPosition(plan, owner, items, ps, p);
    if Matches(plan.policy, plan.query, items[p]) {
      NonPrefixBound(plan.policy, plan.ctx, plan.query, items[p]);
      BeatenByAll(r, MatchesAt(plan, items, ps), plan.perPlugin, CandidateOf(plan, items[p]));
    }
  }

  /** Skipping every such item at once changes nothing either. */
  lemma {:induction false} SkippedStayOut(plan: Plan, owner: string, items: seq<Item>, ps: set<nat>,
                                          rest: set<nat>, r: seq<Candidate>)
    requires Slice(owner, items) && ps !! rest && IsBest(r, MatchesAt(plan, items, ps), plan.perPlugin)
    requires forall p | p in rest ::
               && p < |items| && !OnPrefixIndex(plan.query, items[p]) && !Exposed(plan.query, items[p])
               && Prunes(plan, items[p], r)
    ensures IsBest(r, MatchesAt(plan, items, ps + rest), plan.perPlugin)
    decreases rest
  {
    if rest == {} {
      assert ps + rest == ps;
    } else {
      var p :| p in rest;
      PrunedStaysOut(plan, owner, items, ps, p, r);
      SkippedStayOut(plan, owner, items, ps + {p}, rest - {p}, r);
      assert ps + {p} + (rest - {p}) == ps + rest;
    }
  }

  // ---------------------------------------------------------------- what a pass drops

  /** The heap of a pass, and the exposed positions it pruned. */
  datatype Pass = Pass(retained: seq<Candidate>, dropped: set<nat>)

  /** What visiting one position does to them. */
  function Visit(plan: Plan, items: seq<Item>, s: Pass, p: nat): (r: Pass) {
    if p >= |items| || OnPrefixIndex(plan.query, items[p]) then s
    else if Prunes(plan, items[p], s.retained) then
      if Exposed(plan.query, items[p]) then s.(dropped := s.dropped + {p}) else s
    else if Matches(plan.policy, plan.query, items[p]) then
      s.(retained := RetainBest(s.retained, CandidateOf(plan, items[p]), plan.perPlugin))
    else s
  }

  function VisitAll(plan: Plan, items: seq<Item>, s: Pass, source: seq<nat>): (r: Pass) {
    if source == [] then s
    else Visit(plan, items, VisitAll(plan, items, s, source[..|source| - 1]), source[|source| - 1])
  }

  /** The pass after its prefix scan. */
  ghost function Scanned(plan: Plan, items: seq<Item>): (s: Pass) {
    Pass(Best(MatchesAt(plan, items, OnIndex(plan, items)), plan.perPlugin), {})
  }

  /** Whole-owner skipping: not even the owner's best off-index item could enter. */
  predicate Skips(plan: Plan, r: seq<Candidate>, upper: Option<real>) {
    && PrefixToken(plan.query).Some? && |r| == plan.perPlugin > 0
    && upper.Some? && upper.value < r[|r| - 1].score
  }

  ghost function ExposedAt(plan: Plan, items: seq<Item>, ps: set<nat>): (r: set<nat>) {
    set p | p in ps && p < |items| && Exposed(plan.query, items[p])
  }

  function SourceOf(prior: Option<seq<nat>>, cold: seq<nat>): (source: seq<nat>) {
    if prior.Some? then prior.value else cold
  }

  /** The exposed positions one owner's pass prunes, from its inputs alone. */
  ghost function DroppedBy(plan: Plan, items: seq<Item>, prior: Option<seq<nat>>, cold: seq<nat>,
                           upper: Option<real>): (d: set<nat>)
  {
    if Skips(plan, Scanned(plan, items).retained, upper) then ExposedAt(plan, items, Visible(plan, items, prior))
    else VisitAll(plan, items, Scanned(plan, items), SourceOf(prior, cold)).dropped
  }

  /** The positions of `source` the second visit reaches. */
  ghost function Offered(plan: Plan, items: seq<Item>, warm: bool, source: seq<nat>): (ps: set<nat>) {
    set p | p in source && p < |items| && !OnPrefixIndex(plan.query, items[p])
            && (warm ==> MayMatch(plan.policy, plan.query, items[p]))
  }

  lemma OfferedStep(plan: Plan, items: seq<Item>, warm: bool, source: seq<nat>, n: nat)
    requires n < |source| && Distinct(source)
    ensures source[n] !in Offered(plan, items, warm, source[..n])
    ensures var p := source[n];
            Offered(plan, items, warm, source[..n + 1]) == Offered(plan, items, warm, source[..n])
              + if p < |items| && !OnPrefixIndex(plan.query, items[p])
                && (warm ==> MayMatch(plan.policy, plan.query, items[p])) then {p} else {}
  {
    assert source[..n + 1] == source[..n] + [source[n]];
    assert source[n] !in source[..n];
  }

  ghost function OnIndex(plan: Plan, items: seq<Item>): (ps: set<nat>) {
    set p: nat | p < |items| && OnPrefixIndex(plan.query, items[p])
  }

  ghost function IndexedBelow(query: string, items: seq<Item>, n: nat): (ps: set<nat>)
    requires n <= |items|
    ensures forall p | p in ps :: p < n
  {
    set p: nat | p < n && OnPrefixIndex(query, items[p])
  }

  lemma IndexedStep(query: string, items: seq<Item>, n: nat)
    requires n < |items|
    ensures IndexedBelow(query, items, n + 1) ==
            IndexedBelow(query, items, n) + if OnPrefixIndex(query, items[n]) then {n} else {}
  {
  }

  /** Remembered positions: distinct, seen, past the cheap filter, and every match seen. */
  ghost predicate Tracks(plan: Plan, items: seq<Item>, seen: set<nat>, positions: seq<nat>) {
    && (forall p | p in seen :: p < |items|)
    && Distinct(positions) && (forall p | p in positions :: p in seen)
    && (forall p | p in seen && Matches(plan.policy, plan.query, items[p]) :: p in positions)
    && (forall p | p in positions :: MayMatch(plan.policy, plan.query, items[p]))
  }

  /** The heap: the best of what was seen, less what was dropped, all of it exposed. */
  ghost predicate Keeps(plan: Plan, items: seq<Item>, seen: set<nat>, s: Pass) {
    && s.dropped <= ExposedAt(plan, items, seen)
    && IsBest(s.retained, MatchesAt(plan, items, seen - s.dropped), plan.perPlugin)
  }

  lemma TracksMore(plan: Plan, items: seq<Item>, seen: set<nat>, positions: seq<nat>, p: nat, remember: bool)
    requires Tracks(plan, items, seen, positions) && p < |items| && p !in seen
    requires remember ==> MayMatch(plan.policy, plan.query, items[p])
    requires !remember ==> !Matches(plan.policy, plan.query, items[p])
    ensures Tracks(plan, items, seen + {p}, positions + if remember then [p] else [])
  {
    assert positions + [] == positions;
  }

  lemma PrunedKeeps(plan: Plan, owner: string, items: seq<Item>, seen: set<nat>, s: Pass, p: nat)
    requires Slice(owner, items) && p < |items| && p !in seen && Keeps(plan, items, seen, s)
    requires !OnPrefixIndex(plan.query, items[p]) && Prunes(plan, items[p], s.retained)
    ensures Keeps(plan, items, seen + {p}, Visit(plan, items, s, p))
  {
    if Exposed(plan.query, items[p]) {
      assert seen + {p} - (s.dropped + {p}) == seen - s.dropped;
    } else {
      PrunedStaysOut(plan, owner, items, seen - s.dropped, p, s.retained);
      assert seen + {p} - s.dropped == seen - s.dropped + {p};
    }
  }

  lemma OfferedKeeps(plan: Plan, owner: string, items: seq<Item>, seen: set<nat>, s: Pass, p: nat)
    requires Slice(owner, items) && plan.perPlugin > 0 && p < |items| && p !in seen && Keeps(plan, items, seen, s)
    ensures Keeps(plan, items, seen + {p}, Pass(
              if Matches(plan.policy, plan.query, items[p])
              then RetainBest(s.retained, CandidateOf(plan, items[p]), plan.perPlugin) else s.retained,
              s.dropped))
  {
    var before := seen - s.dropped;
    assert seen + {p} - s.dropped == before + {p};
    OfferPosition(plan, owner, items, before, p);
    if Matches(plan.policy, plan.query, items[p]) {
      RetainBestKeepsBest(s.retained, MatchesAt(plan, items, before), plan.perPlugin, CandidateOf(plan, items[p]));
    }
  }

  /** Visiting a position keeps the heap right, whichever branch is taken. */
  lemma VisitKeeps(plan: Plan, owner: string, items: seq<Item>, seen: set<nat>, s: Pass, p: nat)
    requires Slice(owner, items) && plan.perPlugin > 0 && p < |items| && p !in seen && Keeps(plan, items, seen, s)
    requires !OnPrefixIndex(plan.query, items[p])
    ensures Keeps(plan, items, seen + {p}, Visit(plan, items, s, p))
  {
    if Prunes(plan, items[p], s.retained) {
      PrunedKeeps(plan, owner, items, seen, s, p);
    } else {
      OfferedKeeps(plan, owner, items, seen, s, p);
    }
  }

  lemma ExposedMatches(policy: Policy, query: string, item: Item)
    ensures Exposed(query, item) ==> Matches(policy, query, item)
  {
  }

  /** What does not match leaves the pass as it was. */
  lemma VisitMiss(plan: Plan, items: seq<Item>, s: Pass, p: nat)
    requires p < |items| && !Matches(plan.policy, plan.query, items[p])
    ensures Visit(plan, items, s, p) == s
  {
    ExposedMatches(plan.policy, plan.query, items[p]);
  }

  /** The heap and remembered positions of one owner's pass. */
  class PluginSelection {
    const plan: Plan
    const owner: string
    const items: seq<Item>
    var retained: seq<Candidate>
    var positions: seq<nat>
    /** The positions considered or pruned so far, and those pruned though exposed. */
    ghost var seen: set<nat>
    ghost var dropped: set<nat>

    ghost function State(): (s: Pass)
      reads `retained, `dropped
    {
      Pass(retained, dropped)
    }

    ghost predicate Valid()
      reads this
    {
      && Slice(owner, items) && plan.perPlugin > 0
      && Tracks(plan, items, seen, positions)
      && Keeps(plan, items, seen, State())
    }

    constructor (plan: Plan, owner: string, items: seq<Item>)
      requires Slice(owner, items) && plan.perPlugin > 0
      ensures Valid() && seen == {} && dropped == {}
      ensures this.plan == plan && this.owner == owner && this.items == items
    {
      this.plan, this.owner, this.items := plan, owner, items;
      retained, positions, seen, dropped := [], [], {}, {};
      new;
      assert MatchesAt(plan, items, {} - {}) == {};
    }

    /** Scores one position and offers it to the heap when it matches. */
    method Consider(p: nat)
      requires Valid() && p < |items| && p !in seen
      modifies `retained, `positions, `seen
      ensures Valid() && seen == old(seen) + {p}
      ensures positions == old(positions) + (if Matches(plan.policy, plan.query, items[p]) then [p] else [])
      ensures retained == if Matches(plan.policy, plan.query, items[p])
                          then RetainBest(old(retained), CandidateOf(plan, items[p]), plan.perPlugin)
                          else old(retained)
    {
      var score := Score(plan.policy, plan.ctx, plan.query, items[p]);
      if score.Some? { MatchImpliesMayMatch(plan.policy, plan.query, items[p]); }
      OfferedKeeps(plan, owner, items, seen, State(), p);
      TracksMore(plan, items, seen, positions, p, score.Some?);
      if score.Some? {
        retained := RetainBest(retained, CandidateOf(plan, items[p]), plan.perPlugin);
        positions := positions + [p];
      }
      seen := seen + {p};
    }

    /** Remembers a skipped position for the next keystroke without scoring it. */
    method RecordPruned(p: nat, alreadyFiltered: bool)
      requires Valid() && p < |items| && p !in seen
      requires alreadyFiltered ==> MayMatch(plan.policy, plan.query, items[p])
      requires !OnPrefixIndex(plan.query, items[p]) && Prunes(plan, items[p], retained)
      modifies `positions, `seen, `dropped
      ensures Valid() && seen == old(seen) + {p}
      ensures dropped == old(dropped) + if Exposed(plan.query, items[p]) then {p} else {}
      ensures positions == old(positions) + (if MayMatch(plan.policy, plan.query, items[p]) then [p] else [])
    {
      if Matches(plan.policy, plan.query, items[p]) {
        MatchImpliesMayMatch(plan.policy, plan.query, items[p]);
      }
      var remember := alreadyFiltered || MayMatch(plan.policy, plan.query, items[p]);
      TracksMore(plan, items, seen, positions, p, remember);
      PrunedKeeps(plan, owner, items, seen, State(), p);
      if remember {
        positions := positions + [p];
      }
      seen, dropped := seen + {p}, Visit(plan, items, State(), p).dropped;
    }

    /** Considers every label that begins with the query's leading token. */
    method ScanPrefixes()
      requires Valid() && seen == {} && dropped == {}
      modifies this
      ensures Valid() && seen == OnIndex(plan, items) && State() == Scanned(plan, items)
    {
      if PrefixToken(plan.query).Some? {
        for p := 0 to |items|
          invariant Valid() && seen == IndexedBelow(plan.query, items, p) && dropped == {}
        {
          IndexedStep(plan.query, items, p);
          if OnPrefixIndex(plan.query, items[p]) { Consider(p); }
        }
      }
      assert seen - {} == OnIndex(plan, items);
      BestUnique(retained, MatchesAt(plan, items, OnIndex(plan, items)), plan.perPlugin);
    }

    /** Considers or prunes one position the prefix scan has not settled. */
    method VisitRemaining(p: nat, warm: bool)
      requires Valid() && p < |items| && p !in seen && !OnPrefixIndex(plan.query, items[p])
      requires warm ==> MayMatch(plan.policy, plan.query, items[p])
      modifies this
      ensures Valid() && seen == old(seen) + {p} && State() == Visit(plan, items, old(State()), p)
    {
      var k := plan.perPlugin;
      if PrefixToken(plan.query).Some? && |retained| == k && NonPrefixUpperBound(items[p]) < retained[k - 1].score {
        RecordPruned(p, warm);
      } else {
        Consider(p);
      }
    }

    /** The second visit: cached positions when warm, indexed candidates when cold. */
    method VisitSource(source: seq<nat>, warm: bool)
      requires Valid() && seen == OnIndex(plan, items) && Distinct(source)
      modifies this
      ensures Valid() && seen == OnIndex(plan, items) + Offered(plan, items, warm, source)
      ensures State() == VisitAll(plan, items, old(State()), source)
    {
      for n := 0 to |source|
        invariant Valid()
        invariant seen == OnIndex(plan, items) + Offered(plan, items, warm, source[..n])
        invariant State() == VisitAll(plan, items, old(State()), source[..n])
      {
        VisitNext(source, n, warm, old(State()));
      }
      assert source[..|source|] == source;
    }

    method VisitNext(source: seq<nat>, n: nat, warm: bool, ghost start: Pass)
      requires Valid() && Distinct(source) && n < |source|
      requires seen == OnIndex(plan, items) + Offered(plan, items, warm, source[..n])
      requires State() == VisitAll(plan, items, start, source[..n])
      modifies this
      ensures Valid() && seen == OnIndex(plan, items) + Offered(plan, items, warm, source[..n + 1])
      ensures State() == VisitAll(plan, items, start, source[..n + 1])
    {
      var p := source[n];
      OfferedStep(plan, items, warm, source, n);
      VisitStep(plan, items, start, source, n);
      if p < |items| && !OnPrefixIndex(plan.query, items[p]) {
        if warm ==> MayMatch(plan.policy, plan.query, items[p]) {
          VisitRemaining(p, warm);
        } else {
          Unfiltered(plan, items, State(), p);
        }
      }
    }
  }

  lemma VisitStep(plan: Plan, items: seq<Item>, start: Pass, source: seq<nat>, n: nat)
    requires n < |source|
    ensures VisitAll(plan, items, start, source[..n + 1])
            == Visit(plan, items, VisitAll(plan, items, start, source[..n]), source[n])
  {
    assert source[..n + 1][..n] == source[..n];
  }

  /** A position the warm filter skips would have changed nothing. */
  lemma Unfiltered(plan: Plan, items: seq<Item>, s: Pass, p: nat)
    requires p < |items| && WellFormed(items[p]) && !MayMatch(plan.policy, plan.query, items[p])
    ensures Visit(plan, items, s, p) == s
  {
    if Matches(plan.policy, plan.query, items[p]) {
      MatchImpliesMayMatch(plan.policy, plan.query, items[p]);
    } else {
      VisitMiss(plan, items, s, p);
    }
  }

  /** Together the two visits see exactly the visible matches. */
  lemma VisitsCover(plan: Plan, owner: string, items: seq<Item>, prior: Option<seq<nat>>, cold: seq<nat>)
    requires Slice(owner, items) && ColdVisit(plan, items, cold)
    ensures var seen := OnIndex(plan, items) + Offered(plan, items, prior.Some?, SourceOf(prior, cold));
            && seen <= Visible(plan, items, prior)
            && forall p | p in Visible(plan, items, prior) && Matches(plan.policy, plan.query, items[p]) :: p in seen
  {
    var seen := OnIndex(plan, items) + Offered(plan, items, prior.Some?, SourceOf(prior, cold));
    forall p | p in Visible(plan, items, prior) && Matches(plan.policy, plan.query, items[p]) ensures p in seen {
      MatchImpliesMayMatch(plan.policy, plan.query, items[p]);
    }
  }

  /** Positions that differ only in misses hold the same matches. */
  lemma SameMatches(plan: Plan, items: seq<Item>, a: set<nat>, b: set<nat>, d: set<nat>)
    requires a <= b && forall p | p in b && p < |items| && Matches(plan.policy, plan.query, items[p]) :: p in a
    ensures MatchesAt(plan, items, a - d) == MatchesAt(plan, items, b - d)
  {
  }

  /** Remembered positions are distinct, in range, and passed the cheap filter. */
  ghost predicate Filtered(policy: Policy, query: string, items: seq<Item>, positions: seq<nat>) {
    Distinct(positions) && forall p | p in positions :: p < |items| && MayMatch(policy, query, items[p])
  }

  /** Every visible match is remembered. */
  ghost predicate Remembers(plan: Plan, items: seq<Item>, prior: Option<seq<nat>>, positions: seq<nat>) {
    forall p | p in Visible(plan, items, prior) && Matches(plan.policy, plan.query, items[p]) :: p in positions
  }

  /** One owner's pass: the prefix scan, then the cached or cold positions with
      whole-owner skipping and per-item pruning. Returns the heap, the positions
      remembered for the next keystroke, and whether those are complete. */
  method SelectOwner(plan: Plan, owner: string, items: seq<Item>, prior: Option<seq<nat>>, cold: seq<nat>,
                     upper: Option<real>)
    returns (retained: seq<Candidate>, positions: seq<nat>, complete: bool)
    requires plan.perPlugin > 0 && Slice(owner, items) && UpperSound(items, upper)
    requires prior.Some? ==> Distinct(prior.value)
    requires ColdVisit(plan, items, cold)
    ensures var visible := Visible(plan, items, prior) - DroppedBy(plan, items, prior, cold, upper);
            retained == Best(MatchesAt(plan, items, visible), plan.perPlugin)
    ensures complete <==> !Skips(plan, Scanned(plan, items).retained, upper)
    ensures Filtered(plan.policy, plan.query, items, positions)
    ensures complete ==> Remembers(plan, items, prior, positions)
  {
    var k := plan.perPlugin;
    var selection := new PluginSelection(plan, owner, items);
    selection.ScanPrefixes();
    complete := !(&& PrefixToken(plan.query).Some? && |selection.retained| == k
                  && upper.Some? && upper.value < selection.retained[k - 1].score);
    if !complete {
      SkippedOwner(plan, owner, items, prior, upper);
    } else {
      selection.VisitSource(SourceOf(prior, cold), prior.Some?);
      VisitsCover(plan, owner, items, prior, cold);
      SameMatches(plan, items, selection.seen, Visible(plan, items, prior), selection.dropped);
    }
    retained, positions := selection.retained, selection.positions;
    BestUnique(retained,
      MatchesAt(plan, items, Visible(plan, items, prior) - DroppedBy(plan, items, prior, cold, upper)), k);
  }

  /** Whole-owner skipping: what the prefix scan retained is the quota, less what is exposed. */
  lemma SkippedOwner(plan: Plan, owner: string, items: seq<Item>, prior: Option<seq<nat>>, upper: Option<real>)
    requires Slice(owner, items) && UpperSound(items, upper) && Skips(plan, Scanned(plan, items).retained, upper)
    ensures var visible := Visible(plan, items, prior);
            IsBest(Scanned(plan, items).retained,
                   MatchesAt(plan, items, visible - ExposedAt(plan, items, visible)), plan.perPlugin)
  {
    var seen, visible := OnIndex(plan, items), Visible(plan, items, prior);
    var rest := visible - seen - ExposedAt(plan, items, visible);
    assert seen + rest == visible - ExposedAt(plan, items, visible) by { SeenAndRest(plan, items, prior); }
    BestIsBest(MatchesAt(plan, items, seen), plan.perPlugin);
    SkippedStayOut(plan, owner, items, seen, rest, Scanned(plan, items).retained);
  }

  lemma SeenAndRest(plan: Plan, items: seq<Item>, prior: Option<seq<nat>>)
    ensures var seen, visible := OnIndex(plan, items), Visible(plan, items, prior);
            var exposed := ExposedAt(plan, items, visible);
            seen + (visible - seen - exposed) == visible - exposed
  {
  }

  // ---------------------------------------------------------------- all owners

  type Catalog = map<string, seq<Item>>
  type PositionCache = map<string, seq<nat>>

  ghost predicate OwnersOf(catalog: Catalog, owners: seq<string>) {
    && (forall i, j | 0 <= i < j < |owners| :: owners[i] != owners[j])
    && (forall o | o in owners :: o in catalog && Slice(o, catalog[o]))
  }

  function PriorOf(previous: Option<PositionCache>, owner: string): (r: Option<seq<nat>>) {
    if previous.Some? && owner in previous.value then Some(previous.value[owner]) else None
  }

  /** What each owner's pass dropped. */
  type Drops = map<string, set<nat>>

  const NO_DROPS: Drops := map[]

  function DropsFor(drops: Drops, owner: string): (d: set<nat>) {
    if owner in drops then drops[owner] else {}
  }

  /** One owner's quota: the strongest `perPlugin` of its visible matches, less the drops. */
  ghost function Quota(plan: Plan, catalog: Catalog, owner: string, previous: Option<PositionCache>, drops: Drops)
    : (r: seq<Candidate>)
    requires owner in catalog
  {
    var visible := Visible(plan, catalog[owner], PriorOf(previous, owner));
    Best(MatchesAt(plan, catalog[owner], visible - DropsFor(drops, owner)), plan.perPlugin)
  }

  ghost function Shortlist(plan: Plan, catalog: Catalog, owners: seq<string>, previous: Option<PositionCache>,
                           drops: Drops): (s: set<Candidate>)
    requires forall o | o in owners :: o in catalog
  {
    set o, c | o in owners && c in Quota(plan, catalog, o, previous, drops) :: c
  }

  /** The survivors of every quota cut to the query's. */
  ghost function Selected(plan: Plan, catalog: Catalog, owners: seq<string>, previous: Option<PositionCache>,
                        drops: Drops): (r: seq<Candidate>)
    requires forall o | o in owners :: o in catalog
  {
    if plan.batch == 0 then [] else Best(Shortlist(plan, catalog, owners, previous, drops), plan.global)
  }

  /** The brute-force answer: every match scored, each owner cut to its quota, and
      the survivors cut to the query's. */
  ghost function Reference(plan: Plan, catalog: Catalog, owners: seq<string>): (r: seq<Candidate>)
    requires forall o | o in owners :: o in catalog
  {
    Selected(plan, catalog, owners, None, NO_DROPS)
  }

  function UpperOf(nonPrefixUpper: map<string, real>, owner: string): (upper: Option<real>) {
    if owner in nonPrefixUpper then Some(nonPrefixUpper[owner]) else None
  }

  /** The exposed positions a whole selection prunes, from its inputs alone. */
  ghost function DropsOf(plan: Plan, catalog: Catalog, owners: seq<string>, previous: Option<PositionCache>,
                         cold: PositionCache, nonPrefixUpper: map<string, real>): (drops: Drops)
    requires forall o | o in owners :: o in catalog && o in cold
  {
    map o | o in owners ::
      DroppedBy(plan, catalog[o], PriorOf(previous, o), cold[o], UpperOf(nonPrefixUpper, o))
  }

  lemma QuotaOwned(plan: Plan, catalog: Catalog, owner: string, previous: Option<PositionCache>, drops: Drops)
    requires owner in catalog && Slice(owner, catalog[owner])
    ensures forall c | c in Quota(plan, catalog, owner, previous, drops) :: c.owner == owner
    ensures Descending(Quota(plan, catalog, owner, previous, drops))
  {
    var visible := Visible(plan, catalog[owner], PriorOf(previous, owner));
    BestIsBest(MatchesAt(plan, catalog[owner], visible - DropsFor(drops, owner)), plan.perPlugin);
  }

  lemma DescendingDistinct(r: seq<Candidate>, i: nat, j: nat)
    requires Descending(r) && i < j < |r|
    ensures r[i] != r[j]
  {
    AboveTotal(r[i], r[i]);
  }

  /** The positions remembered so far are right, and cover every visible match if complete. */
  ghost predicate Remembered(plan: Plan, catalog: Catalog, owners: seq<string>, previous: Option<PositionCache>,
                             byOwner: PositionCache, complete: bool)
    requires forall o | o in owners :: o in catalog
  {
    forall o | o in byOwner ::
      && o in owners && Filtered(plan.policy, plan.query, catalog[o], byOwner[o])
      && (complete ==> Remembers(plan, catalog[o], PriorOf(previous, o), byOwner[o]))
  }

  lemma RememberedMore(plan: Plan, catalog: Catalog, owners: seq<string>, previous: Option<PositionCache>,
                       byOwner: PositionCache, complete: bool, owner: string, positions: seq<nat>, full: bool)
    requires forall o | o in owners :: o in catalog
    requires owner in owners && Remembered(plan, catalog, owners, previous, byOwner, complete)
    requires Filtered(plan.policy, plan.query, catalog[owner], positions)
    requires full ==> Remembers(plan, catalog[owner], PriorOf(previous, owner), positions)
    ensures Remembered(plan, catalog, owners, previous, byOwner[owner := positions], complete && full)
  {
  }

  /** `select_best`. The answer is the brute-force one over what the pass can see, less
      the exposed positions it prunes; the remembered positions cover every visible match
      whenever they are complete. */
  method SelectBest(plan: Plan, catalog: Catalog, owners: seq<string>, previous: Option<PositionCache>,
                    cold: PositionCache, nonPrefixUpper: map<string, real>)
    returns (selected: seq<Candidate>, byOwner: PositionCache, complete: bool)
    requires OwnersOf(catalog, owners)
    requires forall o | o in owners :: o in cold && ColdVisit(plan, catalog[o], cold[o])
    requires forall o | o in owners && o in nonPrefixUpper :: UpperSound(catalog[o], Some(nonPrefixUpper[o]))
    requires previous.Some? ==> forall o | o in previous.value :: Distinct(previous.value[o])
    ensures selected == Selected(plan, catalog, owners, previous,
                               DropsOf(plan, catalog, owners, previous, cold, nonPrefixUpper))
    ensures Remembered(plan, catalog, owners, previous, byOwner, complete)
    ensures plan.perPlugin > 0 && plan.global > 0 && plan.batch > 0 ==>
              && byOwner.Keys == OwnerSet(owners)
              && (PrefixToken(plan.query).None? ==> complete)
  {
    selected, byOwner, complete := [], map[], true;
    ghost var drops := DropsOf(plan, catalog, owners, previous, cold, nonPrefixUpper);
    if plan.perPlugin == 0 || plan.global == 0 || plan.batch == 0 {
      assert plan.perPlugin == 0 ==> Shortlist(plan, catalog, owners, previous, drops) == {};
      return;
    }
    for n := 0 to |owners|
      invariant IsBest(selected, Shortlist(plan, catalog, owners[..n], previous, drops), plan.global)
      invariant Remembered(plan, catalog, owners, previous, byOwner, complete)
      invariant byOwner.Keys == OwnerSet(owners[..n])
      invariant PrefixToken(plan.query).None? ==> complete
    {
      var owner := owners[n];
      var retained, positions, full :=
        SelectOwner(plan, owner, catalog[owner], PriorOf(previous, owner), cold[owner], UpperOf(nonPrefixUpper, owner));
      RememberedMore(plan, catalog, owners, previous, byOwner, complete, owner, positions, full);
      KeysMore(owners, n, byOwner, positions);
      byOwner := byOwner[owner := positions];
      complete := complete && full;
      selected := SelectNext(plan, catalog, owners, n, previous, drops, selected, retained);
    }
    AllOwners(plan, catalog, owners, previous, drops, selected);
  }

  ghost function OwnerSet(owners: seq<string>): (s: set<string>) {
    set o | o in owners
  }

  lemma KeysMore(owners: seq<string>, n: nat, byOwner: PositionCache, positions: seq<nat>)
    requires n < |owners| && byOwner.Keys == OwnerSet(owners[..n])
    ensures byOwner[owners[n] := positions].Keys == OwnerSet(owners[..n + 1])
  {
    assert owners[..n + 1] == owners[..n] + [owners[n]];
  }

  lemma AllOwners(plan: Plan, catalog: Catalog, owners: seq<string>, previous: Option<PositionCache>, drops: Drops,
                  selected: seq<Candidate>)
    requires OwnersOf(catalog, owners) && plan.batch > 0
    requires IsBest(selected, Shortlist(plan, catalog, owners[..|owners|], previous, drops), plan.global)
    ensures owners[..|owners|] == owners && selected == Selected(plan, catalog, owners, previous, drops)
  {
    assert owners[..|owners|] == owners;
    BestUnique(selected, Shortlist(plan, catalog, owners, previous, drops), plan.global);
  }

  /** The next owner's quota enters the query-wide heap. */
  method SelectNext(plan: Plan, catalog: Catalog, owners: seq<string>, ghost n: nat,
                    ghost previous: Option<PositionCache>, ghost drops: Drops,
                    selected: seq<Candidate>, retained: seq<Candidate>)
    returns (out: seq<Candidate>)
    requires OwnersOf(catalog, owners) && n < |owners|
    requires IsBest(selected, Shortlist(plan, catalog, owners[..n], previous, drops), plan.global)
    requires retained == Quota(plan, catalog, owners[n], previous, drops)
    ensures IsBest(out, Shortlist(plan, catalog, owners[..n + 1], previous, drops), plan.global)
  {
    ShortlistStep(plan, catalog, owners, n, previous, drops);
    out := Compete(selected, retained, plan.global, Shortlist(plan, catalog, owners[..n], previous, drops));
  }

  /** One owner's survivors compete for the query-wide quota. */
  method Compete(selected: seq<Candidate>, retained: seq<Candidate>, limit: nat, ghost before: set<Candidate>)
    returns (out: seq<Candidate>)
    requires IsBest(selected, before, limit) && Descending(retained) && Members(retained) !! before
    ensures IsBest(out, before + Members(retained), limit)
  {
    out := selected;
    assert before + Members([]) == before;
    for i := 0 to |retained|
      invariant IsBest(out, before + Members(retained[..i]), limit)
    {
      forall j | 0 <= j < i ensures retained[j] != retained[i] { DescendingDistinct(retained, j, i); }
      assert retained[i] in Members(retained);
      RetainBestKeepsBest(out, before + Members(retained[..i]), limit, retained[i]);
      assert before + Members(retained[..i]) + {retained[i]} == before + Members(retained[..i + 1]);
      out := RetainBest(out, retained[i], limit);
    }
    assert retained[..|retained|] == retained;
  }

  ghost function Members(r: seq<Candidate>): (s: set<Candidate>) {
    set c | c in r
  }

  /** The next owner's quota is new to the shortlist and completes it. */
  lemma ShortlistStep(plan: Plan, catalog: Catalog, owners: seq<string>, n: nat, previous: Option<PositionCache>,
                      drops: Drops)
    requires OwnersOf(catalog, owners) && n < |owners|
    ensures var quota := Quota(plan, catalog, owners[n], previous, drops);
            var before := Shortlist(plan, catalog, owners[..n], previous, drops);
            && Descending(quota) && Members(quota) !! before
            && Shortlist(plan, catalog, owners[..n + 1], previous, drops) == before + Members(quota)
  {
    QuotaOwned(plan, catalog, owners[n], previous, drops);
    QuotaIsNew(plan, catalog, owners, n, previous, drops);
    ShortlistGrows(plan, catalog, owners[..n], owners[n], previous, drops);
    assert owners[..n + 1] == owners[..n] + [owners[n]];
  }

  lemma QuotaIsNew(plan: Plan, catalog: Catalog, owners: seq<string>, n: nat, previous: Option<PositionCache>,
                   drops: Drops)
    requires OwnersOf(catalog, owners) && n < |owners|
    ensures Members(Quota(plan, catalog, owners[n], previous, drops))
            !! Shortlist(plan, catalog, owners[..n], previous, drops)
  {
    QuotaOwned(plan, catalog, owners[n], previous, drops);
    forall other, c | other in owners[..n] && c in Quota(plan, catalog, other, previous, drops)
      ensures c.owner != owners[n]
    {
      QuotaOwned(plan, catalog, other, previous, drops);
    }
  }

  lemma ShortlistGrows(plan: Plan, catalog: Catalog, owners: seq<string>, o: string, previous: Option<PositionCache>,
                       drops: Drops)
    requires o in catalog && forall p | p in owners :: p in catalog
    ensures Shortlist(plan, catalog, owners + [o], previous, drops) ==
            Shortlist(plan, catalog, owners, previous, drops) + Members(Quota(plan, catalog, o, previous, drops))
  {
  }

  /** Both quotas hold in the answer, whatever was dropped. */
  lemma QuotasRespected(plan: Plan, catalog: Catalog, owners: seq<string>, previous: Option<PositionCache>,
                        drops: Drops, owner: string)
    requires OwnersOf(catalog, owners)
    ensures var chosen := Selected(plan, catalog, owners, previous, drops);
            |chosen| <= plan.global && |set c | c in chosen && c.owner == owner| <= plan.perPlugin
  {
    var chosen := Selected(plan, catalog, owners, previous, drops);
    BestIsBest(Shortlist(plan, catalog, owners, previous, drops), plan.global);
    var mine := set c | c in chosen && c.owner == owner;
    forall c | c in mine ensures owner in owners && c in Quota(plan, catalog, owner, previous, drops) {
      var o :| o in owners && c in Quota(plan, catalog, o, previous, drops);
      QuotaOwned(plan, catalog, o, previous, drops);
    }
    if owner in owners {
      var quota := Quota(plan, catalog, owner, previous, drops);
      var visible := Visible(plan, catalog[owner], PriorOf(previous, owner));
      BestIsBest(MatchesAt(plan, catalog[owner], visible - DropsFor(drops, owner)), plan.perPlugin);
      MembersBound(quota);
      SubsetSize(mine, Members(quota));
    } else {
      assert mine == {};
    }
  }

  lemma {:induction false} MembersBound(r: seq<Candidate>)
    ensures |Members(r)| <= |r|
  {
    if r != [] {
      MembersBound(r[1..]);
      assert Members(r) == {r[0]} + Members(r[1..]) by { assert r == [r[0]] + r[1..]; }
    }
  }

  lemma {:induction false} SubsetSize(a: set<Candidate>, b: set<Candidate>)
    requires a <= b
    ensures |a| <= |b|
  {
    if a != {} {
      var x :| x in a;
      SubsetSize(a - {x}, b - {x});
    }
  }
}
