/** Exactly when the pruning of `select_best` (crates/crikey-app/src/lib.rs) changes the
    answer. Its bound covers every reading but one, the whole-label match outside the
    prefix index, so an exposed item may be pruned although it belongs in the answer.
 */
module Pruning {
  import opened Integers
  import opened Text
  import opened Matching
  import opened Ranking
  import opened Selection

  // ---------------------------------------------------------------- losing candidates

  /** Losing candidates changes the `k` best exactly when one of them was among those. */
  lemma LossMattersIff(s: set<Candidate>, lost: set<Candidate>, k: nat)
    ensures Best(s - lost, k) == Best(s, k) <==> lost !! Members(Best(s, k))
  {
    BestIsBest(s, k);
    BestIsBest(s - lost, k);
    if lost !! Members(Best(s, k)) {
      BestUnique(Best(s, k), s - lost, k);
    } else {
      var c :| c in lost && c in Best(s, k);
      assert c !in Best(s - lost, k);
    }
  }

  lemma MembersCons(r: seq<Candidate>)
    requires Descending(r) && r != []
    ensures Members(r) == {r[0]} + Members(r[1..]) && r[0] !in Members(r[1..])
  {
    forall i | 0 <= i < |r[1..]| ensures r[1..][i] != r[0] { DescendingDistinct(r, 0, i + 1); }
    assert r == [r[0]] + r[1..];
  }

  lemma {:induction false} MembersExact(r: seq<Candidate>)
    requires Descending(r)
    ensures |Members(r)| == |r|
  {
    if r != [] {
      DescendingTail(r);
      MembersExact(r[1..]);
      MembersCons(r);
    }
  }

  /** `k` candidates above a bound keep the weakest of the `k` best above it. */
  lemma HighWeakest(r: seq<Candidate>, s: set<Candidate>, k: nat, high: set<Candidate>, bound: real)
    requires IsBest(r, s, k) && k > 0 && high <= s && |high| >= k && forall c | c in high :: c.score > bound
    ensures |r| == k && r[k - 1].score > bound
  {
    MembersExact(r);
    if |r| < k {
      assert high <= Members(r);
      SubsetSize(high, Members(r));
    } else if r[k - 1].score <= bound {
      var weakest := r[k - 1];
      forall c | c in high ensures c in Members(r) - {weakest} {
        assert c in r || Above(weakest, c);
      }
      SubsetSize(high, Members(r) - {weakest});
    }
  }

  lemma NoneBelowWeakest(r: seq<Candidate>, c: Candidate)
    requires Descending(r) && c in r
    ensures c.score >= r[|r| - 1].score
  {
    var i :| 0 <= i < |r| && r[i] == c;
    if i < |r| - 1 { assert Above(r[i], r[|r| - 1]); }
  }

  /** What a heap prunes, the heap over more candidates prunes. */
  lemma PruneGrows(plan: Plan, item: Item, r: seq<Candidate>, s: set<Candidate>, q: seq<Candidate>, t: set<Candidate>)
    requires Prunes(plan, item, r) && IsBest(r, s, plan.perPlugin) && IsBest(q, t, plan.perPlugin) && s <= t
    ensures Prunes(plan, item, q)
  {
    MembersExact(r);
    forall c | c in Members(r) ensures c.score > NonPrefixUpperBound(item) { NoneBelowWeakest(r, c); }
    HighWeakest(q, t, plan.perPlugin, Members(r), NonPrefixUpperBound(item));
  }

  /** Positions lost are candidates lost, each its own. */
  lemma MatchesMinus(plan: Plan, owner: string, items: seq<Item>, ps: set<nat>, d: set<nat>)
    requires Slice(owner, items)
    ensures MatchesAt(plan, items, ps - d) == MatchesAt(plan, items, ps) - MatchesAt(plan, items, d * ps)
  {
    forall p, q | p in ps - d && q in d * ps && p < |items| && q < |items|
                  && Matches(plan.policy, plan.query, items[p]) && Matches(plan.policy, plan.query, items[q])
      ensures CandidateOf(plan, items[p]) != CandidateOf(plan, items[q])
    {
      assert items[p].id != items[q].id;
    }
  }

  // ---------------------------------------------------------------- one owner's pass

  /** Exposed positions that the prefix scan alone prunes, in whatever order they come. */
  ghost function Forced(plan: Plan, items: seq<Item>): (ps: set<nat>) {
    set p: nat | p < |items| && Exposed(plan.query, items[p]) && Prunes(plan, items[p], Scanned(plan, items).retained)
  }

  /** What the visits up to the end of `source` have seen. */
  ghost function Seen(plan: Plan, items: seq<Item>, source: seq<nat>): (ps: set<nat>) {
    OnIndex(plan, items) + set p | p in source && p < |items|
  }

  lemma {:induction false} PassKeeps(plan: Plan, owner: string, items: seq<Item>, source: seq<nat>)
    requires Slice(owner, items) && plan.perPlugin > 0 && Distinct(source)
    ensures var s := VisitAll(plan, items, Scanned(plan, items), source);
            && Keeps(plan, items, Seen(plan, items, source), s)
            && Forced(plan, items) * Seen(plan, items, source) <= s.dropped
    decreases |source|
  {
    var scanned := Scanned(plan, items);
    if source == [] {
      BestIsBest(MatchesAt(plan, items, OnIndex(plan, items)), plan.perPlugin);
      assert Seen(plan, items, source) - {} == OnIndex(plan, items);
    } else {
      var init, p := source[..|source| - 1], source[|source| - 1];
      assert source == init + [p] && Distinct(init);
      PassKeeps(plan, owner, items, init);
      var s := VisitAll(plan, items, scanned, init);
      if p < |items| && !OnPrefixIndex(plan.query, items[p]) {
        assert p !in Seen(plan, items, init);
        assert Seen(plan, items, source) == Seen(plan, items, init) + {p};
        VisitKeeps(plan, owner, items, Seen(plan, items, init), s, p);
        if p in Forced(plan, items) { ForcedIsPruned(plan, items, Seen(plan, items, init), s, p); }
      } else {
        assert Seen(plan, items, source) == Seen(plan, items, init);
      }
    }
  }

  /** A forced position is pruned at any point of the pass. */
  lemma ForcedIsPruned(plan: Plan, items: seq<Item>, seen: set<nat>, s: Pass, p: nat)
    requires p in Forced(plan, items) && Keeps(plan, items, seen, s) && OnIndex(plan, items) <= seen
    ensures Prunes(plan, items[p], s.retained)
  {
    var scanned := MatchesAt(plan, items, OnIndex(plan, items));
    BestIsBest(scanned, plan.perPlugin);
    assert OnIndex(plan, items) <= seen - s.dropped;
    PruneGrows(plan, items[p], Scanned(plan, items).retained, scanned, s.retained,
      MatchesAt(plan, items, seen - s.dropped));
  }

  /** A dropped position was pruned, exposed, when its turn came. */
  lemma {:induction false} DroppedAt(plan: Plan, items: seq<Item>, start: Pass, source: seq<nat>, p: nat)
    returns (n: nat)
    requires p in VisitAll(plan, items, start, source).dropped && p !in start.dropped
    ensures n < |source| && source[n] == p && p < |items| && Exposed(plan.query, items[p])
    ensures Prunes(plan, items[p], VisitAll(plan, items, start, source[..n]).retained)
    decreases |source|
  {
    var init := source[..|source| - 1];
    if p in VisitAll(plan, items, start, init).dropped {
      n := DroppedAt(plan, items, start, init, p);
      assert init[..n] == source[..n];
    } else {
      n := |source| - 1;
    }
  }

  /** The exposed match `p` belongs in the quota, and the quota of everything else that is
      not forced out would prune it. */
  ghost predicate Endangered(plan: Plan, items: seq<Item>, ps: set<nat>, p: nat) {
    && p in ps && p < |items| && Exposed(plan.query, items[p]) && Matches(plan.policy, plan.query, items[p])
    && CandidateOf(plan, items[p]) in Best(MatchesAt(plan, items, ps), plan.perPlugin)
    && Prunes(plan, items[p], Best(MatchesAt(plan, items, ps - (Forced(plan, items) + {p})), plan.perPlugin))
  }

  /** A condition on the catalog, the query and the history alone, without visiting order. */
  ghost predicate SafeQuota(plan: Plan, items: seq<Item>, ps: set<nat>) {
    forall p | p in ps :: !Endangered(plan, items, ps, p)
  }

  lemma BoundSafeIsSafe(plan: Plan, items: seq<Item>, ps: set<nat>)
    requires BoundSafe(plan.query, items)
    ensures SafeQuota(plan, items, ps)
  {
  }

  /** The pass returns the brute-force quota. */
  ghost predicate QuotaRight(plan: Plan, items: seq<Item>, prior: Option<seq<nat>>, cold: seq<nat>,
                             upper: Option<real>) {
    var visible := Visible(plan, items, prior);
    Best(MatchesAt(plan, items, visible - DroppedBy(plan, items, prior, cold, upper)), plan.perPlugin)
    == Best(MatchesAt(plan, items, visible), plan.perPlugin)
  }

  /** A dropped position that belongs in the quota. */
  ghost predicate Lost(plan: Plan, items: seq<Item>, ps: set<nat>, p: nat) {
    && p in ps && p < |items| && Matches(plan.policy, plan.query, items[p])
    && CandidateOf(plan, items[p]) in Best(MatchesAt(plan, items, ps), plan.perPlugin)
  }

  /** One owner's pass is right exactly when nothing it dropped belongs in the quota. */
  lemma QuotaRightIff(plan: Plan, owner: string, items: seq<Item>, prior: Option<seq<nat>>, cold: seq<nat>,
                      upper: Option<real>)
    requires Slice(owner, items)
    ensures QuotaRight(plan, items, prior, cold, upper) <==>
            forall p | p in DroppedBy(plan, items, prior, cold, upper) ::
              !Lost(plan, items, Visible(plan, items, prior), p)
  {
    var visible, dropped := Visible(plan, items, prior), DroppedBy(plan, items, prior, cold, upper);
    MatchesMinus(plan, owner, items, visible, dropped);
    LossMattersIff(MatchesAt(plan, items, visible), MatchesAt(plan, items, dropped * visible), plan.perPlugin);
    var best := Best(MatchesAt(plan, items, visible), plan.perPlugin);
    if c :| c in MatchesAt(plan, items, dropped * visible) && c in Members(best) {
      var p :| p in dropped * visible && p < |items| && Matches(plan.policy, plan.query, items[p])
               && CandidateOf(plan, items[p]) == c;
      assert Lost(plan, items, visible, p);
    }
    if p :| p in dropped && Lost(plan, items, visible, p) {
      assert CandidateOf(plan, items[p]) in MatchesAt(plan, items, dropped * visible);
    }
  }

  /** What is forced out and belongs in the quota is endangered. */
  lemma ForcedIsEndangered(plan: Plan, items: seq<Item>, ps: set<nat>, p: nat)
    requires p in Forced(plan, items) && Lost(plan, items, ps, p) && OnIndex(plan, items) <= ps
    ensures Endangered(plan, items, ps, p)
  {
    var scanned, rest := OnIndex(plan, items), ps - (Forced(plan, items) + {p});
    assert scanned <= rest;
    BestIsBest(MatchesAt(plan, items, scanned), plan.perPlugin);
    BestIsBest(MatchesAt(plan, items, rest), plan.perPlugin);
    PruneGrows(plan, items[p], Scanned(plan, items).retained, MatchesAt(plan, items, scanned),
      Best(MatchesAt(plan, items, rest), plan.perPlugin), MatchesAt(plan, items, rest));
  }

  /** What a pass drops although it belongs in the quota is endangered, in any order. */
  lemma DroppedIsEndangered(plan: Plan, owner: string, items: seq<Item>, ps: set<nat>, source: seq<nat>, p: nat)
    requires Slice(owner, items) && plan.perPlugin > 0 && Distinct(source) && Seen(plan, items, source) <= ps
    requires p in VisitAll(plan, items, Scanned(plan, items), source).dropped && Lost(plan, items, ps, p)
    ensures Endangered(plan, items, ps, p)
  {
    var n := DroppedAt(plan, items, Scanned(plan, items), source, p);
    var before := source[..n];
    assert Distinct(before) && p !in before;
    PassKeeps(plan, owner, items, before);
    var s := VisitAll(plan, items, Scanned(plan, items), before);
    var seen, rest := Seen(plan, items, before), ps - (Forced(plan, items) + {p});
    assert seen <= Seen(plan, items, source);
    assert seen - s.dropped <= rest;
    BestIsBest(MatchesAt(plan, items, rest), plan.perPlugin);
    PruneGrows(plan, items[p], s.retained, MatchesAt(plan, items, seen - s.dropped),
      Best(MatchesAt(plan, items, rest), plan.perPlugin), MatchesAt(plan, items, rest));
  }

  /** Under the condition every pass is right: cold in any order, or over any cache. */
  lemma SafeQuotaIsRight(plan: Plan, owner: string, items: seq<Item>, prior: Option<seq<nat>>, cold: seq<nat>,
                         upper: Option<real>)
    requires Slice(owner, items) && plan.perPlugin > 0 && UpperSound(items, upper)
    requires ColdVisit(plan, items, cold) && (prior.Some? ==> Distinct(prior.value))
    requires SafeQuota(plan, items, Visible(plan, items, prior))
    ensures QuotaRight(plan, items, prior, cold, upper)
  {
    var visible := Visible(plan, items, prior);
    forall p | p in DroppedBy(plan, items, prior, cold, upper) ensures !Lost(plan, items, visible, p) {
      if Lost(plan, items, visible, p) {
        if Skips(plan, Scanned(plan, items).retained, upper) {
          ForcedIsEndangered(plan, items, visible, p);
        } else {
          DroppedIsEndangered(plan, owner, items, visible, SourceOf(prior, cold), p);
        }
      }
    }
    QuotaRightIff(plan, owner, items, prior, cold, upper);
  }

  // ---------------------------------------------------------------- an order that fails

  /** The positions below `n` other than two, in order. */
  function Between(n: nat, a: nat, b: nat): (r: seq<nat>)
    ensures forall p: nat :: p in r <==> p < n && p != a && p != b
    ensures forall i | 0 <= i < |r| :: r[i] < n && r[i] != a && r[i] != b
    ensures Distinct(r)
  {
    if n == 0 then [] else
      var init := Between(n - 1, a, b);
      if n - 1 == a || n - 1 == b then init else init + [n - 1]
  }

  /** Every position, `first` before and `last` after all others. */
  lemma Ordering(n: nat, first: nat, last: nat) returns (before: seq<nat>)
    requires first < n && last < n && first != last
    ensures before != [] && before[0] == first && Distinct(before) && Distinct(before + [last])
    ensures forall p: nat :: p in before <==> p < n && p != last
  {
    var between := Between(n, first, last);
    before := [first] + between;
    assert forall i | 0 <= i < |before| :: before[i] == first || before[i] == between[i - 1];
    assert Distinct(before);
    assert forall i | 0 <= i < |before| :: before[i] != last;
  }

  /** Of `k` candidates that leave out one of the `k` best, one is not among those. */
  lemma SomeOutside(best: seq<Candidate>, others: seq<Candidate>, c: Candidate, k: nat) returns (d: Candidate)
    requires Descending(best) && Descending(others) && |best| <= k == |others| && c in best && c !in others
    ensures d in others && d !in best
  {
    MembersExact(best);
    MembersExact(others);
    if Members(others) <= Members(best) - {c} { SubsetSize(Members(others), Members(best) - {c}); }
    d :| d in Members(others) && d !in Members(best) - {c};
  }

  lemma NotOwn(plan: Plan, owner: string, items: seq<Item>, ps: set<nat>, p: nat)
    requires Slice(owner, items) && p < |items| && p !in ps && Matches(plan.policy, plan.query, items[p])
    ensures CandidateOf(plan, items[p]) !in MatchesAt(plan, items, ps)
  {
    OfferPosition(plan, owner, items, ps, p);
  }

  /** Besides `p`, `k` candidates beat its bound, and one of them is not in the quota. */
  lemma Rival(plan: Plan, owner: string, items: seq<Item>, ps: set<nat>, p: nat) returns (y: nat)
    requires Slice(owner, items) && Endangered(plan, items, ps, p)
    ensures y in ps && y < |items| && y != p && y !in Forced(plan, items) && Matches(plan.policy, plan.query, items[y])
    ensures Outranked(plan, items, ps, p, y)
  {
    var k, rest := plan.perPlugin, ps - (Forced(plan, items) + {p});
    var best, others := Best(MatchesAt(plan, items, ps), k), Best(MatchesAt(plan, items, rest), k);
    BestIsBest(MatchesAt(plan, items, ps), k);
    BestIsBest(MatchesAt(plan, items, rest), k);
    NotOwn(plan, owner, items, rest, p);
    var d := SomeOutside(best, others, CandidateOf(plan, items[p]), k);
    NoneBelowWeakest(others, d);
    y :| y in rest && y < |items| && Matches(plan.policy, plan.query, items[y]) && CandidateOf(plan, items[y]) == d;
  }

  /** The match `y` is not in the quota, yet beats the bound of `p`. */
  ghost predicate Outranked(plan: Plan, items: seq<Item>, ps: set<nat>, p: nat, y: nat)
    requires p < |items| && y < |items| && Matches(plan.policy, plan.query, items[y])
  {
    && CandidateOf(plan, items[y]) !in Best(MatchesAt(plan, items, ps), plan.perPlugin)
    && CandidateOf(plan, items[y]).score > NonPrefixUpperBound(items[p])
  }

  /** Swapping one of the `k` best for a candidate outside leaves `k` candidates, none
      weaker than that one. */
  lemma SwapOne(all: set<Candidate>, k: nat, c: Candidate, d: Candidate)
    requires c in Best(all, k) && d in all && d !in Best(all, k)
    ensures var high := Members(Best(all, k)) - {c} + {d};
            |high| == k && forall x | x in high :: x.score >= d.score
  {
    BestIsBest(all, k);
    MembersExact(Best(all, k));
    forall x | x in Members(Best(all, k)) ensures x.score >= d.score { assert Above(x, d); }
  }

  /** The rest of the quota and the rival fill the heap above the bound of `p`. */
  lemma RivalsFill(plan: Plan, owner: string, items: seq<Item>, ps: set<nat>, p: nat, y: nat, s: Pass)
    requires Slice(owner, items) && plan.perPlugin > 0 && PrefixToken(plan.query).Some?
    requires Lost(plan, items, ps, p) && Keeps(plan, items, ps - {p}, s)
    requires forall q | q in s.dropped :: !Lost(plan, items, ps, q)
    requires y < |items| && y in ps - {p} - s.dropped && Matches(plan.policy, plan.query, items[y])
    requires Outranked(plan, items, ps, p, y)
    ensures Prunes(plan, items[p], s.retained)
  {
    var c, d := CandidateOf(plan, items[p]), CandidateOf(plan, items[y]);
    SwapOne(MatchesAt(plan, items, ps), plan.perPlugin, c, d);
    SwapIsSeen(plan, items, ps, p, y, s.dropped);
    HighWeakest(s.retained, MatchesAt(plan, items, ps - {p} - s.dropped), plan.perPlugin,
      Members(Best(MatchesAt(plan, items, ps), plan.perPlugin)) - {c} + {d}, NonPrefixUpperBound(items[p]));
  }

  lemma SwapIsSeen(plan: Plan, items: seq<Item>, ps: set<nat>, p: nat, y: nat, dropped: set<nat>)
    requires p < |items| && Matches(plan.policy, plan.query, items[p])
    requires y < |items| && y in ps - {p} - dropped && Matches(plan.policy, plan.query, items[y])
    requires forall q | q in dropped :: !Lost(plan, items, ps, q)
    ensures Members(Best(MatchesAt(plan, items, ps), plan.perPlugin))
            - {CandidateOf(plan, items[p])} + {CandidateOf(plan, items[y])}
            <= MatchesAt(plan, items, ps - {p} - dropped)
  {
    var best := Best(MatchesAt(plan, items, ps), plan.perPlugin);
    forall x | x in Members(best) - {CandidateOf(plan, items[p])}
      ensures x in MatchesAt(plan, items, ps - {p} - dropped)
    {
      QuotaIsSeen(plan, items, ps, p, dropped, x);
    }
  }

  lemma QuotaIsSeen(plan: Plan, items: seq<Item>, ps: set<nat>, p: nat, dropped: set<nat>, x: Candidate)
    requires p < |items| && Matches(plan.policy, plan.query, items[p]) && x != CandidateOf(plan, items[p])
    requires x in Best(MatchesAt(plan, items, ps), plan.perPlugin)
    requires forall q | q in dropped :: !Lost(plan, items, ps, q)
    ensures x in MatchesAt(plan, items, ps - {p} - dropped)
  {
    BestIsBest(MatchesAt(plan, items, ps), plan.perPlugin);
    var q :| q in ps && q < |items| && Matches(plan.policy, plan.query, items[q]) && CandidateOf(plan, items[q]) == x;
    assert Lost(plan, items, ps, q);
  }

  /** Visiting an endangered match last loses it, unless another was lost before. */
  lemma LastIsLost(plan: Plan, owner: string, items: seq<Item>, p: nat, y: nat, before: seq<nat>) returns (q: nat)
    requires Slice(owner, items) && plan.perPlugin > 0 && Endangered(plan, items, Visible(plan, items, None), p)
    requires y < |items| && y != p && y !in Forced(plan, items) && Matches(plan.policy, plan.query, items[y])
    requires Outranked(plan, items, Visible(plan, items, None), p, y)
    requires before != [] && before[0] == y && Distinct(before)
    requires forall i: nat :: i in before <==> i < |items| && i != p
    ensures Lost(plan, items, Visible(plan, items, None), q)
    ensures q in VisitAll(plan, items, Scanned(plan, items), before + [p]).dropped
  {
    var ps, s := Visible(plan, items, None), VisitAll(plan, items, Scanned(plan, items), before);
    VisitLast(plan, items, Scanned(plan, items), before, p);
    q := p;
    if x :| x in s.dropped && Lost(plan, items, ps, x) {
      q := x;
    } else {
      LastIsPruned(plan, owner, items, p, y, before);
    }
  }

  /** With nothing of the quota dropped before it, the heap is full above its bound. */
  lemma LastIsPruned(plan: Plan, owner: string, items: seq<Item>, p: nat, y: nat, before: seq<nat>)
    requires Slice(owner, items) && plan.perPlugin > 0
    requires Lost(plan, items, Visible(plan, items, None), p) && Exposed(plan.query, items[p])
    requires y < |items| && y != p && y !in Forced(plan, items) && Matches(plan.policy, plan.query, items[y])
    requires Outranked(plan, items, Visible(plan, items, None), p, y)
    requires before != [] && before[0] == y && Distinct(before)
    requires forall i: nat :: i in before <==> i < |items| && i != p
    requires forall q | q in VisitAll(plan, items, Scanned(plan, items), before).dropped ::
               !Lost(plan, items, Visible(plan, items, None), q)
    ensures Prunes(plan, items[p], VisitAll(plan, items, Scanned(plan, items), before).retained)
  {
    var ps, s := Visible(plan, items, None), VisitAll(plan, items, Scanned(plan, items), before);
    assert Keeps(plan, items, ps - {p}, s) by {
      PassKeeps(plan, owner, items, before);
      SeenAllBut(plan, items, before, p);
    }
    assert y !in s.dropped by {
      if y in s.dropped { FirstIsForced(plan, items, before, y); }
    }
    RivalsFill(plan, owner, items, ps, p, y, s);
  }

  lemma VisitLast(plan: Plan, items: seq<Item>, start: Pass, before: seq<nat>, p: nat)
    ensures VisitAll(plan, items, start, before + [p]) == Visit(plan, items, VisitAll(plan, items, start, before), p)
  {
    assert (before + [p])[..|before|] == before;
  }

  lemma SeenAllBut(plan: Plan, items: seq<Item>, before: seq<nat>, p: nat)
    requires p < |items| && !OnPrefixIndex(plan.query, items[p])
    requires forall i: nat :: i in before <==> i < |items| && i != p
    ensures Seen(plan, items, before) == Visible(plan, items, None) - {p}
  {
  }

  /** An endangered match is lost in some order, unless another is. */
  lemma EndangeredIsLost(plan: Plan, owner: string, items: seq<Item>, p: nat, upper: Option<real>)
    returns (cold: seq<nat>, q: nat)
    requires Slice(owner, items) && plan.perPlugin > 0 && Endangered(plan, items, Visible(plan, items, None), p)
    ensures ColdVisit(plan, items, cold) && q in DroppedBy(plan, items, None, cold, upper)
    ensures Lost(plan, items, Visible(plan, items, None), q)
  {
    var y := Rival(plan, owner, items, Visible(plan, items, None), p);
    var before := Ordering(|items|, y, p);
    cold := before + [p];
    q := p;
    if !Skips(plan, Scanned(plan, items).retained, upper) {
      q := LastIsLost(plan, owner, items, p, y, before);
    }
    OrderedVisit(plan, items, before, p);
  }

  lemma OrderedVisit(plan: Plan, items: seq<Item>, before: seq<nat>, p: nat)
    requires p < |items| && Distinct(before + [p]) && forall i: nat :: i in before <==> i < |items| && i != p
    ensures ColdVisit(plan, items, before + [p])
  {
    assert forall i :: i in before + [p] <==> i in before || i == p;
  }

  /** The first position visited is dropped only if it is forced out. */
  lemma FirstIsForced(plan: Plan, items: seq<Item>, source: seq<nat>, y: nat)
    requires source != [] && source[0] == y && Distinct(source)
    requires y in VisitAll(plan, items, Scanned(plan, items), source).dropped
    ensures y in Forced(plan, items)
  {
    var n := DroppedAt(plan, items, Scanned(plan, items), source, y);
    assert n == 0;
  }

  /** A cold pass is right in every visiting order if and only if no match is endangered. */
  lemma RightInEveryOrderIff(plan: Plan, owner: string, items: seq<Item>, upper: Option<real>)
    requires Slice(owner, items) && plan.perPlugin > 0 && UpperSound(items, upper)
    ensures (forall cold | ColdVisit(plan, items, cold) :: QuotaRight(plan, items, None, cold, upper))
            <==> SafeQuota(plan, items, Visible(plan, items, None))
  {
    var ps := Visible(plan, items, None);
    if SafeQuota(plan, items, ps) {
      forall cold | ColdVisit(plan, items, cold) ensures QuotaRight(plan, items, None, cold, upper) {
        SafeQuotaIsRight(plan, owner, items, None, cold, upper);
      }
    } else {
      var p :| p in ps && Endangered(plan, items, ps, p);
      var cold, q := EndangeredIsLost(plan, owner, items, p, upper);
      QuotaRightIff(plan, owner, items, None, cold, upper);
      assert !QuotaRight(plan, items, None, cold, upper);
    }
  }

  // ---------------------------------------------------------------- the whole selection

  /** Every dropped position is a visible match. */
  ghost predicate DropsSound(plan: Plan, catalog: Catalog, owners: seq<string>, previous: Option<PositionCache>,
                             drops: Drops)
    requires forall o | o in owners :: o in catalog
  {
    forall o, p | o in owners && p in DropsFor(drops, o) ::
      p in Visible(plan, catalog[o], PriorOf(previous, o)) && Matches(plan.policy, plan.query, catalog[o][p])
  }

  /** No dropped match is in `answer`. */
  ghost predicate DropsMiss(plan: Plan, catalog: Catalog, owners: seq<string>, drops: Drops, answer: seq<Candidate>)
    requires forall o | o in owners :: o in catalog
  {
    forall o, p | o in owners && p in DropsFor(drops, o) && p < |catalog[o]|
                  && Matches(plan.policy, plan.query, catalog[o][p]) ::
      CandidateOf(plan, catalog[o][p]) !in answer
  }

  /** A quota with drops keeps what the quota without them keeps and did not drop, and
      whatever it takes in instead ranks below all of that quota, something of which it lost. */
  lemma QuotaLess(plan: Plan, catalog: Catalog, o: string, previous: Option<PositionCache>, drops: Drops, c: Candidate)
    requires o in catalog && Slice(o, catalog[o])
    ensures var full, less := Quota(plan, catalog, o, previous, NO_DROPS), Quota(plan, catalog, o, previous, drops);
            var lost := MatchesAt(plan, catalog[o],
              DropsFor(drops, o) * Visible(plan, catalog[o], PriorOf(previous, o)));
            && (c in full && c !in lost ==> c in less)
            && (c in less ==> c !in lost)
            && (c in less && c !in full ==> exists d :: d in full && d in lost && Above(d, c))
  {
    var items, visible := catalog[o], Visible(plan, catalog[o], PriorOf(previous, o));
    var d, k := DropsFor(drops, o), plan.perPlugin;
    var all := MatchesAt(plan, items, visible);
    var lost := MatchesAt(plan, items, d * visible);
    MatchesMinus(plan, o, items, visible, d);
    assert visible - {} == visible;
    BestIsBest(all, k);
    BestIsBest(all - lost, k);
    if c in Best(all, k) && c !in lost { StaysBest(all, lost, k, c); }
    if c in Best(all - lost, k) && c !in Best(all, k) {
      var e := Displaced(all, lost, k, c);
    }
  }

  lemma StaysBest(all: set<Candidate>, lost: set<Candidate>, k: nat, c: Candidate)
    requires c in Best(all, k) && c !in lost
    ensures c in Best(all - lost, k)
  {
    var full, less := Best(all, k), Best(all - lost, k);
    BestIsBest(all, k);
    BestIsBest(all - lost, k);
    if c !in less {
      MembersExact(full);
      MembersExact(less);
      forall x | x in less ensures x in Members(full) - {c} {
        if x !in full { AboveTotal(x, c); }
      }
      SubsetSize(Members(less), Members(full) - {c});
    }
  }

  lemma Displaced(all: set<Candidate>, lost: set<Candidate>, k: nat, c: Candidate) returns (d: Candidate)
    requires c in Best(all - lost, k) && c !in Best(all, k)
    ensures d in Best(all, k) && d in lost && Above(d, c)
  {
    BestIsBest(all, k);
    BestIsBest(all - lost, k);
    LossMattersIff(all, lost, k);
    d :| d in lost && d in Members(Best(all, k));
  }

  /** The selection is the brute-force one exactly when nothing dropped is in it. */
  lemma SelectionRightIff(plan: Plan, catalog: Catalog, owners: seq<string>, previous: Option<PositionCache>,
                          drops: Drops)
    requires OwnersOf(catalog, owners) && DropsSound(plan, catalog, owners, previous, drops)
    ensures var right := Selected(plan, catalog, owners, previous, NO_DROPS);
            Selected(plan, catalog, owners, previous, drops) == right
            <==> DropsMiss(plan, catalog, owners, drops, right)
  {
    if plan.batch > 0 {
      var less := Shortlist(plan, catalog, owners, previous, drops);
      var right := Selected(plan, catalog, owners, previous, NO_DROPS);
      if DropsMiss(plan, catalog, owners, drops, right) {
        MissedIsBest(plan, catalog, owners, previous, drops);
        BestUnique(right, less, plan.global);
      } else {
        DropIsFelt(plan, catalog, owners, previous, drops, right);
      }
    }
  }

  lemma DropIsFelt(plan: Plan, catalog: Catalog, owners: seq<string>, previous: Option<PositionCache>, drops: Drops,
                   right: seq<Candidate>)
    requires OwnersOf(catalog, owners) && DropsSound(plan, catalog, owners, previous, drops)
    requires !DropsMiss(plan, catalog, owners, drops, right)
    ensures Best(Shortlist(plan, catalog, owners, previous, drops), plan.global) != right
  {
    var o, p :| o in owners && p in DropsFor(drops, o) && p < |catalog[o]|
                && Matches(plan.policy, plan.query, catalog[o][p]) && CandidateOf(plan, catalog[o][p]) in right;
    DroppedIsGone(plan, catalog, owners, previous, drops, o, p);
    BestIsBest(Shortlist(plan, catalog, owners, previous, drops), plan.global);
  }

  lemma DroppedIsGone(plan: Plan, catalog: Catalog, owners: seq<string>, previous: Option<PositionCache>, drops: Drops,
                      o: string, p: nat)
    requires OwnersOf(catalog, owners) && DropsSound(plan, catalog, owners, previous, drops)
    requires o in owners && p in DropsFor(drops, o)
    ensures CandidateOf(plan, catalog[o][p]) !in Shortlist(plan, catalog, owners, previous, drops)
  {
    var c := CandidateOf(plan, catalog[o][p]);
    forall other | other in owners ensures c !in Quota(plan, catalog, other, previous, drops) {
      QuotaOwned(plan, catalog, other, previous, drops);
      if other == o { QuotaLess(plan, catalog, o, previous, drops, c); }
    }
  }

  lemma MissedIsBest(plan: Plan, catalog: Catalog, owners: seq<string>, previous: Option<PositionCache>, drops: Drops)
    requires OwnersOf(catalog, owners) && DropsSound(plan, catalog, owners, previous, drops)
    requires var full := Shortlist(plan, catalog, owners, previous, NO_DROPS);
             DropsMiss(plan, catalog, owners, drops, Best(full, plan.global))
    ensures var full := Shortlist(plan, catalog, owners, previous, NO_DROPS);
            IsBest(Best(full, plan.global), Shortlist(plan, catalog, owners, previous, drops), plan.global)
  {
    var full := Shortlist(plan, catalog, owners, previous, NO_DROPS);
    var less := Shortlist(plan, catalog, owners, previous, drops);
    var right := Best(full, plan.global);
    BestIsBest(full, plan.global);
    forall c | c in right ensures c in less { MissedStays(plan, catalog, owners, previous, drops, c); }
    forall d | d in less && d !in right ensures |right| == plan.global && forall c | c in right :: Above(c, d) {
      if d !in full {
        var e := Substitute(plan, catalog, owners, previous, drops, d);
        forall c | c in right ensures Above(c, d) { AboveTransitive(c, e, d); }
      }
    }
  }

  lemma MissedStays(plan: Plan, catalog: Catalog, owners: seq<string>, previous: Option<PositionCache>, drops: Drops,
                    c: Candidate)
    requires OwnersOf(catalog, owners) && DropsSound(plan, catalog, owners, previous, drops)
    requires var full := Shortlist(plan, catalog, owners, previous, NO_DROPS);
             c in full && DropsMiss(plan, catalog, owners, drops, [c])
    ensures c in Shortlist(plan, catalog, owners, previous, drops)
  {
    var o :| o in owners && c in Quota(plan, catalog, o, previous, NO_DROPS);
    QuotaLess(plan, catalog, o, previous, drops, c);
  }

  /** What a quota took in instead ranks below something dropped, itself on the full shortlist. */
  lemma Substitute(plan: Plan, catalog: Catalog, owners: seq<string>, previous: Option<PositionCache>, drops: Drops,
                   d: Candidate) returns (e: Candidate)
    requires OwnersOf(catalog, owners) && DropsSound(plan, catalog, owners, previous, drops)
    requires d in Shortlist(plan, catalog, owners, previous, drops)
    requires d !in Shortlist(plan, catalog, owners, previous, NO_DROPS)
    ensures e in Shortlist(plan, catalog, owners, previous, NO_DROPS) && Above(e, d)
    ensures exists o, p :: o in owners && p in DropsFor(drops, o) && CandidateOf(plan, catalog[o][p]) == e
  {
    var o :| o in owners && d in Quota(plan, catalog, o, previous, drops);
    QuotaLess(plan, catalog, o, previous, drops, d);
    var lost := MatchesAt(plan, catalog[o], DropsFor(drops, o) * Visible(plan, catalog[o], PriorOf(previous, o)));
    e :| e in Quota(plan, catalog, o, previous, NO_DROPS) && e in lost && Above(e, d);
    var p :| p in DropsFor(drops, o) && p < |catalog[o]| && Matches(plan.policy, plan.query, catalog[o][p])
             && CandidateOf(plan, catalog[o][p]) == e;
  }

  // ---------------------------------------------------------------- hidden and dropped alike

  /** The matches a pass over a cache cannot see. */
  ghost function Hidden(plan: Plan, items: seq<Item>, prior: Option<seq<nat>>): (ps: set<nat>) {
    set p: nat | p < |items| && p !in Visible(plan, items, prior) && Matches(plan.policy, plan.query, items[p])
  }

  /** Every match a selection leaves out unscored, hidden or dropped. */
  ghost function Missed(plan: Plan, catalog: Catalog, owners: seq<string>, previous: Option<PositionCache>,
                        drops: Drops)
    : (missed: Drops)
    requires forall o | o in owners :: o in catalog
  {
    map o | o in owners :: Hidden(plan, catalog[o], PriorOf(previous, o)) + DropsFor(drops, o)
  }

  lemma MissedQuota(plan: Plan, items: seq<Item>, prior: Option<seq<nat>>, d: set<nat>)
    ensures MatchesAt(plan, items, Visible(plan, items, prior) - d)
            == MatchesAt(plan, items, Visible(plan, items, None) - (Hidden(plan, items, prior) + d))
  {
    var some, all := Visible(plan, items, prior) - d, Visible(plan, items, None) - (Hidden(plan, items, prior) + d);
    assert some <= all;
    SameMatches(plan, items, some, all, {});
    assert some - {} == some && all - {} == all;
  }

  lemma MissedSelects(plan: Plan, catalog: Catalog, owners: seq<string>, previous: Option<PositionCache>, drops: Drops)
    requires OwnersOf(catalog, owners) && DropsSound(plan, catalog, owners, previous, drops)
    ensures var missed := Missed(plan, catalog, owners, previous, drops);
            && DropsSound(plan, catalog, owners, None, missed)
            && Selected(plan, catalog, owners, None, missed) == Selected(plan, catalog, owners, previous, drops)
  {
    var missed := Missed(plan, catalog, owners, previous, drops);
    forall o | o in owners
      ensures Quota(plan, catalog, o, None, missed) == Quota(plan, catalog, o, previous, drops)
    {
      MissedQuota(plan, catalog[o], PriorOf(previous, o), DropsFor(drops, o));
    }
    SameShortlist(plan, catalog, owners, None, missed, previous, drops);
  }

  lemma SameShortlist(plan: Plan, catalog: Catalog, owners: seq<string>, prev1: Option<PositionCache>, drops1: Drops,
                      prev2: Option<PositionCache>, drops2: Drops)
    requires forall o | o in owners ::
               o in catalog && Quota(plan, catalog, o, prev1, drops1) == Quota(plan, catalog, o, prev2, drops2)
    ensures Shortlist(plan, catalog, owners, prev1, drops1) == Shortlist(plan, catalog, owners, prev2, drops2)
  {
  }

  /** Over any cache and in any order, the selection is the brute-force answer exactly when
      no match it left out, hidden or dropped, is in that answer. */
  lemma AnswerRightIff(plan: Plan, catalog: Catalog, owners: seq<string>, previous: Option<PositionCache>, drops: Drops)
    requires OwnersOf(catalog, owners) && DropsSound(plan, catalog, owners, previous, drops)
    ensures Selected(plan, catalog, owners, previous, drops) == Reference(plan, catalog, owners) <==>
            DropsMiss(plan, catalog, owners, Missed(plan, catalog, owners, previous, drops),
              Reference(plan, catalog, owners))
  {
    MissedSelects(plan, catalog, owners, previous, drops);
    SelectionRightIff(plan, catalog, owners, None, Missed(plan, catalog, owners, previous, drops));
  }

  /** What a selection drops are visible matches, all of them exposed. */
  lemma DropsOfSound(plan: Plan, catalog: Catalog, owners: seq<string>, previous: Option<PositionCache>,
                     cold: PositionCache, nonPrefixUpper: map<string, real>)
    requires OwnersOf(catalog, owners) && forall o | o in owners :: o in cold && ColdVisit(plan, catalog[o], cold[o])
    ensures var drops := DropsOf(plan, catalog, owners, previous, cold, nonPrefixUpper);
            && DropsSound(plan, catalog, owners, previous, drops)
            && forall o, p | o in owners && p in DropsFor(drops, o) ::
                 p < |catalog[o]| && Exposed(plan.query, catalog[o][p])
  {
    var drops := DropsOf(plan, catalog, owners, previous, cold, nonPrefixUpper);
    forall o, p | o in owners && p in DropsFor(drops, o)
      ensures p in Visible(plan, catalog[o], PriorOf(previous, o)) && Exposed(plan.query, catalog[o][p])
      ensures Matches(plan.policy, plan.query, catalog[o][p])
    {
      DroppedIsVisible(plan, catalog[o], PriorOf(previous, o), cold[o], UpperOf(nonPrefixUpper, o), p);
    }
  }

  lemma DroppedIsVisible(plan: Plan, items: seq<Item>, prior: Option<seq<nat>>, cold: seq<nat>, upper: Option<real>,
                         p: nat)
    requires ColdVisit(plan, items, cold) && p in DroppedBy(plan, items, prior, cold, upper)
    ensures p in Visible(plan, items, prior) && Exposed(plan.query, items[p])
    ensures Matches(plan.policy, plan.query, items[p])
  {
    if !Skips(plan, Scanned(plan, items).retained, upper) {
      var n := DroppedAt(plan, items, Scanned(plan, items), SourceOf(prior, cold), p);
    }
    ExposedMatches(plan.policy, plan.query, items[p]);
  }

  /** No owner's quota has an endangered match. */
  ghost predicate SafeCatalog(plan: Plan, catalog: Catalog, owners: seq<string>)
    requires forall o | o in owners :: o in catalog
  {
    forall o | o in owners :: SafeQuota(plan, catalog[o], Visible(plan, catalog[o], None))
  }

  /** The condition sees only matches, so it carries over to a cache that hides none. */
  lemma SafeOverCache(plan: Plan, items: seq<Item>, prior: Option<seq<nat>>)
    requires SafeQuota(plan, items, Visible(plan, items, None)) && Hidden(plan, items, prior) == {}
    ensures SafeQuota(plan, items, Visible(plan, items, prior))
  {
    var some, all := Visible(plan, items, prior), Visible(plan, items, None);
    forall p | p in some ensures !Endangered(plan, items, some, p) {
      assert !Endangered(plan, items, all, p);
      SameVisible(plan, items, prior, {});
      SameVisible(plan, items, prior, Forced(plan, items) + {p});
      assert some - {} == some && all - {} == all;
    }
  }

  lemma SameVisible(plan: Plan, items: seq<Item>, prior: Option<seq<nat>>, d: set<nat>)
    requires Hidden(plan, items, prior) == {}
    ensures MatchesAt(plan, items, Visible(plan, items, prior) - d)
              == MatchesAt(plan, items, Visible(plan, items, None) - d)
  {
    forall p: nat | p < |items| && Matches(plan.policy, plan.query, items[p]) ensures p in Visible(plan, items, prior) {
      assert p !in Hidden(plan, items, prior);
    }
    SameMatches(plan, items, Visible(plan, items, prior), Visible(plan, items, None), d);
  }

  /** Under the condition, a selection over a cache that hides nothing is the brute-force one. */
  lemma SafeIsRight(plan: Plan, catalog: Catalog, owners: seq<string>, previous: Option<PositionCache>,
                    cold: PositionCache, nonPrefixUpper: map<string, real>)
    requires OwnersOf(catalog, owners) && forall o | o in owners :: o in cold && ColdVisit(plan, catalog[o], cold[o])
    requires forall o | o in owners && o in nonPrefixUpper :: UpperSound(catalog[o], Some(nonPrefixUpper[o]))
    requires previous.Some? ==> forall o | o in previous.value :: Distinct(previous.value[o])
    requires forall o | o in owners :: Hidden(plan, catalog[o], PriorOf(previous, o)) == {}
    requires SafeCatalog(plan, catalog, owners)
    ensures Selected(plan, catalog, owners, previous, DropsOf(plan, catalog, owners, previous, cold, nonPrefixUpper))
            == Reference(plan, catalog, owners)
  {
    var drops := DropsOf(plan, catalog, owners, previous, cold, nonPrefixUpper);
    forall o | o in owners
      ensures Quota(plan, catalog, o, previous, drops) == Quota(plan, catalog, o, None, NO_DROPS)
    {
      if plan.perPlugin > 0 {
        SafeOwner(plan, o, catalog[o], PriorOf(previous, o), cold[o], UpperOf(nonPrefixUpper, o));
      }
    }
    SameShortlist(plan, catalog, owners, previous, drops, None, NO_DROPS);
  }

  lemma SafeOwner(plan: Plan, owner: string, items: seq<Item>, prior: Option<seq<nat>>, cold: seq<nat>,
                  upper: Option<real>)
    requires Slice(owner, items) && plan.perPlugin > 0 && UpperSound(items, upper)
    requires ColdVisit(plan, items, cold) && (prior.Some? ==> Distinct(prior.value))
    requires SafeQuota(plan, items, Visible(plan, items, None)) && Hidden(plan, items, prior) == {}
    ensures var dropped := DroppedBy(plan, items, prior, cold, upper);
            Best(MatchesAt(plan, items, Visible(plan, items, prior) - dropped), plan.perPlugin)
            == Best(MatchesAt(plan, items, Visible(plan, items, None) - {}), plan.perPlugin)
  {
    SafeOverCache(plan, items, prior);
    SafeQuotaIsRight(plan, owner, items, prior, cold, upper);
    SameVisible(plan, items, prior, {});
    assert Visible(plan, items, prior) - {} == Visible(plan, items, prior);
  }

  // ---------------------------------------------------------------- where pruning falls short

  /** A context in which both items below have been selected often and just now. */
  function Busy(): (ctx: Context) {
    var entry := Entry(U32_MAX, Some(0));
    Context(map[("p", "a") := entry, ("p", "b") := entry], (_, _, _) => 792,
            (_, _) => Evidence(1.0, Some(0)), Some(Application), 0)
  }

  ghost predicate IsPrefixToken(t: string) {
    |t| >= 2 && AsciiAlphanumeric(t[0]) && AsciiAlphanumeric(t[1]) && forall c | c in t :: !IsWhite(c)
  }

  lemma TokenAlone(t: string)
    requires t != "" && forall c | c in t :: !IsWhite(c)
    ensures Tokens(t) == [t] && Trim(t) == t && Trim(" " + t) == t && Trim(t + "a") == t + "a"
  {
    assert LeadingRun(t) == |t|;
    assert t[..|t|] == t && t[|t|..] == "";
    assert !IsWhite(t[0]) && !IsWhite(t[|t| - 1]) by { assert t[0] in t && t[|t| - 1] in t; }
    assert (" " + t)[1..] == t;
    assert TrimStart(t) == t && TrimEnd(t) == t && TrimStart(" " + t) == t;
    assert (t + "a")[0] == t[0] && (t + "a")[|t|] == 'a';
  }

  function Longer(t: string): (item: Item) { Item("p", "a", t + "a", [], "", [], Application, 0) }

  function Spaced(t: string): (item: Item) { Item("p", "b", " " + t, [], "", [], PluginDefined("x"), 0) }

  lemma BothMatch(t: string)
    requires IsPrefixToken(t)
    ensures OnPrefixIndex(t, Longer(t)) && !OnPrefixIndex(t, Spaced(t))
    ensures MatchItem(Strict, t, Longer(t)) == Some(Prefix) && MatchItem(Strict, t, Spaced(t)) == Some(ExactPrefix)
  {
    TokenAlone(t);
    assert t != t + "a" && t <= t + "a";
    assert t[0] != (" " + t)[0];
  }

  lemma SpacedScores(t: string)
    requires IsPrefixToken(t)
    ensures var plan := Plan(Strict, Busy(), t, 1, 1, 1);
            && OnPrefixIndex(t, Longer(t)) && Exposed(t, Spaced(t))
            && Matches(Strict, t, Longer(t)) && Matches(Strict, t, Spaced(t))
            && NonPrefixUpperBound(Spaced(t)) < CandidateOf(plan, Longer(t)).score
            && CandidateOf(plan, Longer(t)).score < CandidateOf(plan, Spaced(t)).score
  {
    var longer, spaced := Longer(t), Spaced(t);
    var plan := Plan(Strict, Busy(), t, 1, 1, 1);
    BothMatch(t);
    TokenAlone(t);
    BusyScores(SignalsOf(plan.ctx, t, longer, Prefix), SignalsOf(plan.ctx, t, spaced, ExactPrefix), longer, spaced);
  }

  /** A prefix match and an exposed match that outranks it, though its bound does not. */
  ghost predicate Inverted(plan: Plan, items: seq<Item>) {
    && |items| == 2 && plan.perPlugin == plan.global == plan.batch == 1
    && Slice(items[0].owner, items) && OnPrefixIndex(plan.query, items[0]) && Exposed(plan.query, items[1])
    && Matches(plan.policy, plan.query, items[0]) && Matches(plan.policy, plan.query, items[1])
    && NonPrefixUpperBound(items[1]) < CandidateOf(plan, items[0]).score < CandidateOf(plan, items[1]).score
  }

  lemma SpacedIsInverted(t: string)
    requires IsPrefixToken(t)
    ensures Inverted(Plan(Strict, Busy(), t, 1, 1, 1), [Longer(t), Spaced(t)])
  {
    SpacedScores(t);
    assert "a"[0] == 'a' && "b"[0] == 'b';
  }

  lemma FirstScanned(plan: Plan, items: seq<Item>)
    requires Inverted(plan, items)
    ensures OnIndex(plan, items) == {0} && Scanned(plan, items) == Pass([CandidateOf(plan, items[0])], {})
    ensures 1 in Forced(plan, items)
  {
    var first := CandidateOf(plan, items[0]);
    assert OnIndex(plan, items) == {0};
    assert MatchesAt(plan, items, {0}) == {first} by { OnlyFirst(plan, items); }
    BestOfOne(first, 1);
  }

  lemma OnlyFirst(plan: Plan, items: seq<Item>)
    requires items != [] && Matches(plan.policy, plan.query, items[0])
    ensures MatchesAt(plan, items, {0}) == {CandidateOf(plan, items[0])}
  {
  }

  /** Every pass over the two prunes the second, in whatever order and with whatever bound. */
  lemma SecondIsDropped(plan: Plan, items: seq<Item>, cold: seq<nat>, upper: Option<real>)
    requires Inverted(plan, items) && ColdVisit(plan, items, cold)
    ensures DroppedBy(plan, items, None, cold, upper) == {1}
  {
    FirstScanned(plan, items);
    OnlySecondExposed(plan, items, Visible(plan, items, None));
    if !Skips(plan, Scanned(plan, items).retained, upper) { SecondIsPruned(plan, items, cold); }
  }

  lemma OnlySecondExposed(plan: Plan, items: seq<Item>, seen: set<nat>)
    requires Inverted(plan, items) && 1 in seen && forall p | p in seen :: p < |items|
    ensures ExposedAt(plan, items, seen) == {1}
  {
  }

  lemma SecondIsPruned(plan: Plan, items: seq<Item>, cold: seq<nat>)
    requires Inverted(plan, items) && ColdVisit(plan, items, cold) && 1 in Forced(plan, items)
    ensures VisitAll(plan, items, Scanned(plan, items), cold).dropped == {1}
  {
    PassKeeps(plan, items[0].owner, items, cold);
    OnlySecondExposed(plan, items, Seen(plan, items, cold));
  }

  lemma TwoAnswers(plan: Plan, items: seq<Item>, drops: Drops)
    requires Inverted(plan, items) && DropsFor(drops, items[0].owner) == {1}
    ensures var owner := items[0].owner;
            && Selected(plan, map[owner := items], [owner], None, drops) == [CandidateOf(plan, items[0])]
            && Reference(plan, map[owner := items], [owner]) == [CandidateOf(plan, items[1])]
  {
    var owner := items[0].owner;
    TwoQuotas(plan, items, {1});
    TwoQuotas(plan, items, {});
    OneOwner(plan, map[owner := items], owner, None, drops);
    OneOwner(plan, map[owner := items], owner, None, NO_DROPS);
    BestOfOne(CandidateOf(plan, items[0]), 1);
    BestOfOne(CandidateOf(plan, items[1]), 1);
  }

  lemma BestOfOne(c: Candidate, k: nat)
    requires k > 0
    ensures Best({c}, k) == [c] && Members([c]) == {c}
  {
    BestUnique([c], {c}, k);
  }

  lemma TwoQuotas(plan: Plan, items: seq<Item>, d: set<nat>)
    requires Inverted(plan, items) && (d == {} || d == {1})
    ensures Best(MatchesAt(plan, items, Visible(plan, items, None) - d), 1) ==
            [CandidateOf(plan, items[if d == {} then 1 else 0])]
  {
    var a, b := CandidateOf(plan, items[0]), CandidateOf(plan, items[1]);
    assert Visible(plan, items, None) == {0, 1};
    if d == {} {
      assert {0, 1} - d == {0, 1} && MatchesAt(plan, items, {0, 1}) == {a, b};
      StrongerOfTwo(a, b);
    } else {
      assert {0, 1} - d == {0} && MatchesAt(plan, items, {0}) == {a};
      BestOfOne(a, 1);
    }
  }

  lemma OneOwner(plan: Plan, catalog: Catalog, owner: string, previous: Option<PositionCache>, drops: Drops)
    requires owner in catalog
    ensures Shortlist(plan, catalog, [owner], previous, drops) == Members(Quota(plan, catalog, owner, previous, drops))
  {
  }

  /** The selection over two such items answers with the prefix match, and brute
      force with the exact one that ranks above it. */
  method PruningDropsExactMatch(plan: Plan, items: seq<Item>, cold: seq<nat>, nonPrefixUpper: map<string, real>)
    returns (selected: seq<Candidate>)
    requires Inverted(plan, items) && ColdVisit(plan, items, cold)
    requires UpperSound(items, UpperOf(nonPrefixUpper, items[0].owner))
    ensures selected == [CandidateOf(plan, items[0])]
    ensures Reference(plan, map[items[0].owner := items], [items[0].owner]) == [CandidateOf(plan, items[1])] != selected
  {
    var owner := items[0].owner;
    var byOwner, complete;
    selected, byOwner, complete :=
      SelectBest(plan, map[owner := items], [owner], None, map[owner := cold], nonPrefixUpper);
    SecondIsDropped(plan, items, cold, UpperOf(nonPrefixUpper, owner));
    TwoAnswers(plan, items, DropsOf(plan, map[owner := items], [owner], None, map[owner := cold], nonPrefixUpper));
  }

  lemma StrongerOfTwo(a: Candidate, b: Candidate)
    requires a.score < b.score
    ensures Best({a, b}, 1) == [b]
  {
    BestUnique([b], {a, b}, 1);
  }

  lemma BusyScores(a: Signals, b: Signals, longer: Item, spaced: Item)
    requires longer.hint == spaced.hint == 0 && longer.category == Application && spaced.category.PluginDefined?
    requires a == Signals(0.88, false, Some(0), 1.0, HintSignal(0), U32_MAX, Some(0), Rise(792.0, 8.0), true, 0.0)
    requires b == Signals(1.0, true, Some(0), 0.5, HintSignal(0), U32_MAX, Some(0), Rise(792.0, 8.0), false, 0.0)
    ensures NonPrefixUpperBound(spaced) < ScoreSignals(a) < ScoreSignals(b)
  {
    assert Decay(0.0, 4.0) == 1.0 && Decay(0.0, 86400.0) == 1.0;
    assert Rise(792.0, 8.0) == 0.99 && HintSignal(0) == 0.0;
    RiseMonotone(U32_MAX as real, U32_MAX as real, 8.0);
  }
}
