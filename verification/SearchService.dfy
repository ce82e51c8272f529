/** `SearchService` of crates/crikey-app/src/lib.rs: the live catalog, the
    incremental candidate cache and the published answer, over every sequence of
    catalog, policy, alias, query and merge operations.
 */
module SearchServices {
  import opened Text
  import opened Matching
  import opened Ranking
  import opened Sorting
  import opened Selection
  import opened Pruning
  import opened Publishing

  // ---------------------------------------------------------------- aliases

  type AliasTable = map<string, seq<string>>

  function ExpandTokens(aliases: AliasTable, tokens: seq<string>): (r: seq<string>) {
    if tokens == [] then []
    else (if tokens[0] in aliases then aliases[tokens[0]] else [tokens[0]]) + ExpandTokens(aliases, tokens[1..])
  }

  function Join(tokens: seq<string>): (r: string) {
    if tokens == [] then ""
    else if |tokens| == 1 then tokens[0]
    else tokens[0] + " " + Join(tokens[1..])
  }

  /** `AliasTable::expand`: one pass, and untouched when no token names an alias. */
  function Expand(aliases: AliasTable, text: string): (r: string) {
    if exists t | t in Tokens(text) :: t in aliases
    then Join(ExpandTokens(aliases, Tokens(text))) else text
  }

  ghost predicate IsToken(t: string) {
    t != "" && forall c | c in t :: !IsWhite(c)
  }

  /** The rewritten text splits back into the rewritten tokens. */
  lemma {:induction false} JoinedTokens(tokens: seq<string>)
    requires forall t | t in tokens :: IsToken(t)
    ensures Tokens(Join(tokens)) == tokens
  {
    if tokens != [] {
      var t, s := tokens[0], Join(tokens);
      assert IsToken(t);
      if |tokens| > 1 {
        assert s[..|t|] == t && s[|t|] == ' ' && s[|t| + 1..] == Join(tokens[1..]);
        RunOfToken(s, |t|);
        JoinedTokens(tokens[1..]);
        assert s[|t|..][1..] == Join(tokens[1..]);
        assert Tokens(s[|t|..]) == tokens[1..];
      } else {
        RunOfToken(s, |t|);
        assert s[..|t|] == t && s[|t|..] == "";
      }
      assert tokens == [t] + tokens[1..];
    }
  }

  lemma RunOfToken(s: string, n: nat)
    requires 0 < n <= |s| && (forall i | 0 <= i < n :: !IsWhite(s[i])) && (n < |s| ==> IsWhite(s[n]))
    ensures LeadingRun(s) == n
  {
  }

  // ---------------------------------------------------------------- catalog slices

  /** Writes one item: in place when its id is retained, else appended. */
  function Put(slice: seq<Item>, item: Item): (r: seq<Item>)
    decreases |slice|
  {
    if slice == [] then [item]
    else if slice[0].id == item.id then [item] + slice[1..]
    else [slice[0]] + Put(slice[1..], item)
  }

  function PutAll(slice: seq<Item>, items: seq<Item>): (r: seq<Item>)
    decreases |items|
  {
    if items == [] then slice else PutAll(Put(slice, items[0]), items[1..])
  }

  lemma {:induction false} PutIds(slice: seq<Item>, item: Item)
    ensures forall x | x in Put(slice, item) :: x == item || x in slice
    ensures item in Put(slice, item)
    decreases |slice|
  {
    if slice != [] {
      if slice[0].id != item.id { PutIds(slice[1..], item); }
      assert slice == [slice[0]] + slice[1..];
    }
  }

  lemma {:induction false} PutKeepsSlice(owner: string, slice: seq<Item>, item: Item)
    requires Slice(owner, slice) && item.owner == owner && WellFormed(item)
    ensures Slice(owner, Put(slice, item))
    decreases |slice|
  {
    if slice != [] && slice[0].id != item.id {
      assert Slice(owner, slice[1..]) by {
        forall i, j | 0 <= i < j < |slice[1..]| ensures slice[1..][i].id != slice[1..][j].id {
          assert slice[i + 1].id != slice[j + 1].id;
        }
      }
      PutKeepsSlice(owner, slice[1..], item);
      PutIds(slice[1..], item);
      var r, tail := Put(slice, item), Put(slice[1..], item);
      assert r == [slice[0]] + tail;
      forall i, j | 0 <= i < j < |r| ensures r[i].id != r[j].id {
        assert r[j] == tail[j - 1] && tail[j - 1] in tail;
        if i > 0 { assert tail[i - 1].id != tail[j - 1].id; }
      }
    }
  }

  lemma {:induction false} PutAllKeepsSlice(owner: string, slice: seq<Item>, items: seq<Item>)
    requires Slice(owner, slice) && forall item | item in items :: item.owner == owner && WellFormed(item)
    ensures Slice(owner, PutAll(slice, items))
    ensures slice != [] || items != [] ==> PutAll(slice, items) != []
    decreases |items|
  {
    if items != [] {
      PutKeepsSlice(owner, slice, items[0]);
      PutAllKeepsSlice(owner, Put(slice, items[0]), items[1..]);
    }
  }

  /** The largest non-prefix bound of a slice. */
  function MaxUpper(items: seq<Item>): (upper: real)
    requires items != []
    ensures forall i | 0 <= i < |items| :: NonPrefixUpperBound(items[i]) <= upper
  {
    var head := NonPrefixUpperBound(items[0]);
    if |items| == 1 then head
    else
      var rest := MaxUpper(items[1..]);
      assert items == [items[0]] + items[1..];
      if head < rest then rest else head
  }

  ghost predicate Ascending(owners: seq<string>) {
    forall i, j | 0 <= i < j < |owners| :: LexLess(owners[i], owners[j])
  }

  /** Sorted insertion without repetition, as the binary search does it. */
  function InsertOwner(owners: seq<string>, owner: string): (r: seq<string>) {
    if owners == [] || LexLess(owner, owners[0]) then [owner] + owners
    else if owners[0] == owner then owners
    else [owners[0]] + InsertOwner(owners[1..], owner)
  }

  function RemoveOwner(owners: seq<string>, owner: string): (r: seq<string>) {
    if owners == [] then []
    else if owners[0] == owner then owners[1..]
    else [owners[0]] + RemoveOwner(owners[1..], owner)
  }

  lemma {:induction false} InsertOwnerSorted(owners: seq<string>, owner: string)
    requires Ascending(owners)
    ensures Ascending(InsertOwner(owners, owner))
    ensures forall o :: o in InsertOwner(owners, owner) <==> o == owner || o in owners
  {
    if owners == [] {
    } else if LexLess(owner, owners[0]) {
      var r := InsertOwner(owners, owner);
      forall i, j | 0 <= i < j < |r| ensures LexLess(r[i], r[j]) {
        if i == 0 && j > 1 { LexTransitive(owner, owners[0], owners[j - 1]); }
      }
    } else if owners[0] != owner {
      LexTotal(owner, owners[0]);
      AscendingTail(owners);
      InsertOwnerSorted(owners[1..], owner);
      assert owners == [owners[0]] + owners[1..];
      AscendingCons(owners[0], InsertOwner(owners[1..], owner));
    }
  }

  lemma AscendingTail(owners: seq<string>)
    requires Ascending(owners) && owners != []
    ensures Ascending(owners[1..]) && forall o | o in owners[1..] :: LexLess(owners[0], o)
  {
    forall i, j | 0 <= i < j < |owners[1..]| ensures LexLess(owners[1..][i], owners[1..][j]) {
      assert LexLess(owners[i + 1], owners[j + 1]);
    }
  }

  lemma AscendingCons(head: string, tail: seq<string>)
    requires Ascending(tail) && forall o | o in tail :: LexLess(head, o)
    ensures Ascending([head] + tail)
  {
    var r := [head] + tail;
    forall i, j | 0 <= i < j < |r| ensures LexLess(r[i], r[j]) {
      assert r[j] == tail[j - 1];
      if i > 0 { assert LexLess(tail[i - 1], tail[j - 1]); }
    }
  }

  lemma {:induction false} RemoveOwnerSorted(owners: seq<string>, owner: string)
    requires Ascending(owners)
    ensures Ascending(RemoveOwner(owners, owner))
    ensures forall o :: o in RemoveOwner(owners, owner) <==> o != owner && o in owners
  {
    if owners != [] {
      AscendingTail(owners);
      LexTotal(owner, owner);
      assert owners == [owners[0]] + owners[1..];
      if owners[0] != owner {
        RemoveOwnerSorted(owners[1..], owner);
        AscendingCons(owners[0], RemoveOwner(owners[1..], owner));
      }
    }
  }

  lemma AscendingDistinct(owners: seq<string>)
    requires Ascending(owners)
    ensures forall i, j | 0 <= i < j < |owners| :: owners[i] != owners[j]
  {
    forall i, j | 0 <= i < j < |owners| ensures owners[i] != owners[j] { LexTotal(owners[i], owners[j]); }
  }

  // ---------------------------------------------------------------- warm reuse

  datatype CandidateCache = CandidateCache(text: string, byOwner: PositionCache)

  /** The cached positions are distinct, in range, and passed the filter. */
  ghost predicate CacheWellFormed(policy: Policy, catalog: Catalog, cache: CandidateCache) {
    forall o | o in cache.byOwner :: o in catalog && Filtered(policy, cache.text, catalog[o], cache.byOwner[o])
  }

  /** Every match of the cached query is remembered. */
  ghost predicate CacheCovers(policy: Policy, catalog: Catalog, cache: CandidateCache) {
    forall o | o in cache.byOwner && o in catalog ::
      forall p: nat | p < |catalog[o]| && Matches(policy, cache.text, catalog[o][p]) :: p in cache.byOwner[o]
  }

  /** The reuse test: more than two characters, extending a non-empty cached text. */
  predicate Reuses(cache: Option<CandidateCache>, query: string) {
    cache.Some? && |query| > 2 && cache.value.text != "" && cache.value.text <= query
  }

  function PreviousFor(cache: Option<CandidateCache>, query: string): (r: Option<PositionCache>) {
    if Reuses(cache, query) then Some(cache.value.byOwner) else None
  }

  /** A covering cache of a query with a token hides no match of its extensions. */
  lemma WarmSeesEveryMatch(plan: Plan, catalog: Catalog, owner: string, cache: CandidateCache)
    requires owner in catalog && Slice(owner, catalog[owner])
    requires CacheCovers(plan.policy, catalog, cache) && cache.text <= plan.query && Tokens(cache.text) != []
    ensures Hidden(plan, catalog[owner], PriorOf(Some(cache.byOwner), owner)) == {}
  {
    var items := catalog[owner];
    forall p: nat | p < |items| && Matches(plan.policy, plan.query, items[p])
      ensures p in Visible(plan, items, PriorOf(Some(cache.byOwner), owner))
    {
      MatchPrefixClosed(plan.policy, cache.text, plan.query, items[p]);
    }
  }

  /** The cache hides no match of any owner. */
  ghost predicate AllSeen(plan: Plan, catalog: Catalog, owners: seq<string>, previous: Option<PositionCache>)
    requires forall o | o in owners :: o in catalog
  {
    forall o | o in owners :: Hidden(plan, catalog[o], PriorOf(previous, o)) == {}
  }

  /** What one pass selects, from its inputs alone: the brute-force selection over what its
      cache shows, less what it prunes in this visiting order. */
  ghost function SelectedBy(plan: Plan, catalog: Catalog, owners: seq<string>, previous: Option<PositionCache>,
                            cold: PositionCache, upper: map<string, real>): (r: seq<Candidate>)
    requires forall o | o in owners :: o in catalog && o in cold
  {
    Selected(plan, catalog, owners, previous, DropsOf(plan, catalog, owners, previous, cold, upper))
  }

  /** Every match such a pass leaves out unscored. */
  ghost function MissedBy(plan: Plan, catalog: Catalog, owners: seq<string>, previous: Option<PositionCache>,
                          cold: PositionCache, upper: map<string, real>): (missed: Drops)
    requires forall o | o in owners :: o in catalog && o in cold
  {
    Missed(plan, catalog, owners, previous, DropsOf(plan, catalog, owners, previous, cold, upper))
  }

  /** That is the whole answer exactly when nothing missed belongs to it, and always when
      the cache hides nothing and no match is endangered. */
  lemma SelectionMeans(plan: Plan, catalog: Catalog, owners: seq<string>, previous: Option<PositionCache>,
                       cold: PositionCache, upper: map<string, real>)
    requires OwnersOf(catalog, owners) && forall o | o in owners :: o in cold && ColdVisit(plan, catalog[o], cold[o])
    requires forall o | o in owners && o in upper :: UpperSound(catalog[o], Some(upper[o]))
    requires previous.Some? ==> forall o | o in previous.value :: Distinct(previous.value[o])
    ensures var selected := SelectedBy(plan, catalog, owners, previous, cold, upper);
            var answer := Reference(plan, catalog, owners);
            && (selected == answer <==>
                DropsMiss(plan, catalog, owners, MissedBy(plan, catalog, owners, previous, cold, upper), answer))
            && (AllSeen(plan, catalog, owners, previous) && SafeCatalog(plan, catalog, owners) ==> selected == answer)
            && Descending(selected) && |selected| <= plan.global
  {
    var drops := DropsOf(plan, catalog, owners, previous, cold, upper);
    DropsOfSound(plan, catalog, owners, previous, cold, upper);
    AnswerRightIff(plan, catalog, owners, previous, drops);
    if AllSeen(plan, catalog, owners, previous) && SafeCatalog(plan, catalog, owners) {
      SafeIsRight(plan, catalog, owners, previous, cold, upper);
    }
    BestIsBest(Shortlist(plan, catalog, owners, previous, drops), plan.global);
  }

  /** A cache left by a blank query remembers nothing, so reusing it leaves only the
      prefix index in view. */
  lemma BlankCacheIsEmpty(policy: Policy, catalog: Catalog, cache: CandidateCache, owner: string)
    requires CacheWellFormed(policy, catalog, cache) && Tokens(cache.text) == [] && owner in cache.byOwner
    ensures cache.byOwner[owner] == []
  {
    NonEmptyHasMember(cache.byOwner[owner]);
  }

  lemma NonEmptyHasMember(ps: seq<nat>)
    ensures ps != [] ==> exists p :: p in ps
  {
    if ps != [] { assert ps[0] in ps; }
  }

  // ---------------------------------------------------------------- published answer

  /** One row of the answer. */
  datatype Hit = Hit(candidate: Candidate, ephemeral: bool)

  function Candidates(hits: seq<Hit>): (r: seq<Candidate>)
    ensures |r| == |hits| && forall i | 0 <= i < |hits| :: r[i] == hits[i].candidate
  {
    seq(|hits|, i requires 0 <= i < |hits| => hits[i].candidate)
  }

  /** No row shares its id with an ephemeral row. */
  ghost predicate EphemeralIdsUnique(hits: seq<Hit>) {
    forall i, j | 0 <= i < |hits| && 0 <= j < |hits| && i != j && hits[i].ephemeral ::
      hits[i].candidate.id != hits[j].candidate.id
  }

  /** Rows the aggregator kept: everything but the batches it refused. */
  function Published(selected: seq<Candidate>, refused: set<(string, string)>): (r: seq<Hit>) {
    if selected == [] then []
    else (if (selected[0].owner, selected[0].id) in refused then [] else [Hit(selected[0], false)])
         + Published(selected[1..], refused)
  }

  lemma {:induction false} PublishedMembers(selected: seq<Candidate>, refused: set<(string, string)>)
    ensures |Published(selected, refused)| <= |selected|
    ensures forall h | h in Published(selected, refused) :: !h.ephemeral && h.candidate in selected
    ensures forall c | c in selected && (c.owner, c.id) !in refused :: Hit(c, false) in Published(selected, refused)
  {
    if selected != [] {
      PublishedMembers(selected[1..], refused);
      assert selected == [selected[0]] + selected[1..];
    }
  }

  lemma PrependAbove(c: Candidate, rest: seq<Hit>, selected: seq<Candidate>)
    requires Descending(Candidates(rest)) && Descending(selected) && selected != [] && selected[0] == c
    requires forall h | h in rest :: h.candidate in selected[1..]
    ensures Descending(Candidates([Hit(c, false)] + rest))
  {
    var cs := Candidates([Hit(c, false)] + rest);
    forall i, j | 0 <= i < j < |cs| ensures Above(cs[i], cs[j]) {
      assert cs[j] == Candidates(rest)[j - 1] == rest[j - 1].candidate && rest[j - 1] in rest;
      if i == 0 {
        var t :| 0 <= t < |selected[1..]| && selected[1..][t] == cs[j];
        assert Above(selected[0], selected[t + 1]);
      } else {
        assert Above(Candidates(rest)[i - 1], Candidates(rest)[j - 1]);
      }
    }
  }

  lemma {:induction false} PublishedDescends(selected: seq<Candidate>, refused: set<(string, string)>)
    requires Descending(selected)
    ensures Descending(Candidates(Published(selected, refused)))
  {
    if selected != [] {
      var tail := selected[1..];
      forall i, j | 0 <= i < j < |tail|
        ensures Above(tail[i], tail[j]) { assert Above(selected[i + 1], selected[j + 1]); }
      PublishedDescends(tail, refused);
      PublishedMembers(tail, refused);
      var rest := Published(tail, refused);
      if (selected[0].owner, selected[0].id) !in refused {
        PrependAbove(selected[0], rest, selected);
      } else {
        assert [] + rest == rest;
      }
    }
  }

  lemma PublishedSorted(selected: seq<Candidate>, refused: set<(string, string)>)
    requires Descending(selected)
    ensures Descending(Candidates(Published(selected, refused))) && |Published(selected, refused)| <= |selected|
    ensures forall h | h in Published(selected, refused) :: !h.ephemeral && h.candidate in selected
    ensures forall c | c in selected && (c.owner, c.id) !in refused :: Hit(c, false) in Published(selected, refused)
  {
    PublishedMembers(selected, refused);
    PublishedDescends(selected, refused);
  }

  /** A fresh answer: in rank order, within the limit, and with nothing ephemeral. */
  ghost predicate Presentable(hits: seq<Hit>, limit: nat) {
    Descending(Candidates(hits)) && |hits| <= limit && forall h | h in hits :: !h.ephemeral
  }

  /** One owner's rows of a selection, in rank order. */
  function Own(selected: seq<Candidate>, owner: string): (r: seq<Candidate>) {
    if selected == [] then []
    else (if selected[0].owner == owner then [selected[0]] else []) + Own(selected[1..], owner)
  }

  lemma {:induction false} OwnMembers(selected: seq<Candidate>, owner: string)
    ensures forall c :: c in Own(selected, owner) <==> c in selected && c.owner == owner
  {
    if selected != [] {
      OwnMembers(selected[1..], owner);
      assert selected == [selected[0]] + selected[1..];
    }
  }

  type Traffic = map<string, seq<Sent<Candidate>>>

  /** Every owner's stream carries its own rows. */
  ghost predicate Carries(sent: Traffic, selected: seq<Candidate>, owners: seq<string>, limit: nat,
                          accepts: (string, nat) -> bool) {
    forall o | o in owners :: o in sent && Stream(o, sent[o], Own(selected, o), limit, accepts)
  }

  /** Every selected row is put to the aggregator, in a batch of its own owner. */
  lemma RowIsSent(sent: Traffic, selected: seq<Candidate>, owners: seq<string>, limit: nat,
                  accepts: (string, nat) -> bool, c: Candidate) returns (i: nat)
    requires Carries(sent, selected, owners, limit, accepts) && limit > 0 && c in selected && c.owner in owners
    ensures i < |sent[c.owner]| && c in sent[c.owner][i].items
  {
    OwnMembers(selected, c.owner);
    i := CarriedBySome(sent[c.owner], c);
  }

  /** The items of the refused batches. */
  function RefusedIn(sent: Traffic): (r: set<(string, string)>) {
    set o, i, c | o in sent && 0 <= i < |sent[o]| && !sent[o][i].accepted && c in sent[o][i].items :: (c.owner, c.id)
  }

  lemma CarriesNext(sent: Traffic, selected: seq<Candidate>, owners: seq<string>, n: nat, limit: nat,
                    accepts: (string, nat) -> bool, stream: seq<Sent<Candidate>>)
    requires n < |owners| && Carries(sent, selected, owners[..n], limit, accepts)
    requires Stream(owners[n], stream, Own(selected, owners[n]), limit, accepts)
    ensures Carries(sent[owners[n] := stream], selected, owners[..n + 1], limit, accepts)
  {
    forall o | o in owners[..n + 1] && o != owners[n] ensures o in owners[..n] {
      assert owners[..n + 1] == owners[..n] + [owners[n]];
    }
  }

  /** The whole publication, one owner after the other. */
  method PublishAll(selected: seq<Candidate>, owners: seq<string>, limit: nat, accepts: (string, nat) -> bool)
    returns (sent: Traffic)
    ensures Carries(sent, selected, owners, limit, accepts)
  {
    sent := map[];
    for n := 0 to |owners|
      invariant Carries(sent, selected, owners[..n], limit, accepts)
    {
      var stream := PublishSelected(owners[n], Own(selected, owners[n]), limit, accepts);
      CarriesNext(sent, selected, owners, n, limit, accepts, stream);
      sent := sent[owners[n] := stream];
    }
    assert owners[..|owners|] == owners;
  }

  // ---------------------------------------------------------------- merging

  /** `by_rank` over rows. */
  predicate HitAbove(a: Hit, b: Hit) {
    Above(a.candidate, b.candidate)
  }

  function SortHits(hits: seq<Hit>): (r: seq<Hit>) {
    Sort(HitAbove, hits)
  }

  ghost predicate DistinctCandidates(hits: seq<Hit>) {
    forall i, j | 0 <= i < j < |hits| :: hits[i].candidate != hits[j].candidate
  }

  lemma CandidatesCons(hit: Hit, hits: seq<Hit>)
    ensures Candidates([hit] + hits) == [hit.candidate] + Candidates(hits)
  {
  }

  lemma {:induction false} InsertMirrors(hits: seq<Hit>, hit: Hit)
    ensures Candidates(Insert(HitAbove, hit, hits)) == Insert(Above, hit.candidate, Candidates(hits))
  {
    if hits != [] && HitAbove(hits[0], hit) {
      InsertMirrors(hits[1..], hit);
      assert Candidates(hits)[1..] == Candidates(hits[1..]);
      CandidatesCons(hits[0], Insert(HitAbove, hit, hits[1..]));
    } else {
      CandidatesCons(hit, hits);
    }
  }

  lemma DistinctTail(hits: seq<Hit>)
    requires DistinctCandidates(hits) && hits != []
    ensures DistinctCandidates(hits[1..]) && hits[0].candidate !in Candidates(hits[1..])
    ensures Candidates(hits) == [hits[0].candidate] + Candidates(hits[1..])
  {
    var tail := hits[1..];
    forall i, j | 0 <= i < j < |tail| ensures tail[i].candidate != tail[j].candidate {
      assert hits[i + 1].candidate != hits[j + 1].candidate;
    }
    forall i | 0 <= i < |tail| ensures tail[i].candidate != hits[0].candidate { assert hits[i + 1] == tail[i]; }
  }

  lemma {:induction false} SortHitsSorted(hits: seq<Hit>)
    requires DistinctCandidates(hits)
    ensures Descending(Candidates(SortHits(hits)))
    ensures forall c :: c in Candidates(SortHits(hits)) <==> c in Candidates(hits)
  {
    if hits != [] {
      DistinctTail(hits);
      SortHitsSorted(hits[1..]);
      InsertMirrors(SortHits(hits[1..]), hits[0]);
      InsertSorted(Candidates(SortHits(hits[1..])), hits[0].candidate);
    }
  }

  /** Truncating a descending list keeps its strongest entries. */
  lemma TruncateIsBest(r: seq<Candidate>, k: nat)
    requires Descending(r)
    ensures IsBest(if |r| <= k then r else r[..k], Members(r), k)
  {
    var kept := if |r| <= k then r else r[..k];
    forall c, d | c in kept && d in Members(r) && d !in kept ensures Above(c, d) {
      var i :| 0 <= i < |kept| && kept[i] == c;
      var j :| 0 <= j < |r| && r[j] == d;
      assert j >= |kept|;
      assert Above(r[i], r[j]);
    }
  }

  function Truncate(hits: seq<Hit>, k: nat): (r: seq<Hit>) {
    if |hits| <= k then hits else hits[..k]
  }

  /** Rows name different items, and ephemeral ones different ids. */
  ghost predicate Independent(hits: seq<Hit>) {
    DistinctCandidates(hits) && EphemeralIdsUnique(hits)
  }

  /** Independence depends only on which rows there are, and survives dropping some. */
  lemma IndependentSub(a: seq<Hit>, b: seq<Hit>)
    requires multiset(b) <= multiset(a) && Independent(a)
    ensures Independent(b)
  {
    forall i, j | 0 <= i < |b| && 0 <= j < |b| && i != j
      ensures b[i].candidate != b[j].candidate
      ensures b[i].ephemeral ==> b[i].candidate.id != b[j].candidate.id
    {
      PairIncluded(b, i, j);
      var p, q := PairFound(a, b[i], b[j]);
      if p < q {
        assert a[p].candidate != a[q].candidate;
      } else {
        assert a[q].candidate != a[p].candidate;
      }
    }
  }

  lemma SortedIsIndependent(hits: seq<Hit>)
    requires Descending(Candidates(hits)) && EphemeralIdsUnique(hits)
    ensures Independent(hits)
  {
    forall i, j | 0 <= i < j < |hits| ensures hits[i].candidate != hits[j].candidate {
      DescendingDistinct(Candidates(hits), i, j);
    }
  }

  /** The answer without one plugin's earlier ephemeral batch. */
  function Kept(hits: seq<Hit>, plugin: string): (r: seq<Hit>) {
    if hits == [] then []
    else (if hits[0].ephemeral && hits[0].candidate.owner == plugin then [] else [hits[0]]) + Kept(hits[1..], plugin)
  }

  lemma {:induction false} KeptSub(hits: seq<Hit>, plugin: string)
    ensures multiset(Kept(hits, plugin)) <= multiset(hits)
    ensures forall h :: h in Kept(hits, plugin) <==> h in hits && !(h.ephemeral && h.candidate.owner == plugin)
  {
    if hits != [] {
      KeptSub(hits[1..], plugin);
      assert hits == [hits[0]] + hits[1..];
    }
  }

  /** One merged item: dropped when it does not match or its id is already shown. */
  function Admit(plan: Plan, rows: seq<Hit>, item: Item): (r: seq<Hit>) {
    if Matches(plan.policy, plan.query, item) && forall h | h in rows :: h.candidate.id != item.id
    then rows + [Hit(CandidateOf(plan, item), true)] else rows
  }

  function AdmitAll(plan: Plan, rows: seq<Hit>, items: seq<Item>): (r: seq<Hit>) {
    if items == [] then rows
    else Admit(plan, AdmitAll(plan, rows, items[..|items| - 1]), items[|items| - 1])
  }

  lemma {:induction false} AdmitAllIndependent(plan: Plan, rows: seq<Hit>, items: seq<Item>)
    requires Independent(rows)
    ensures Independent(AdmitAll(plan, rows, items))
  {
    if items != [] {
      var before := AdmitAll(plan, rows, items[..|items| - 1]);
      AdmitAllIndependent(plan, rows, items[..|items| - 1]);
      var after := AdmitAll(plan, rows, items);
      if after != before {
        forall i | 0 <= i < |before| ensures before[i].candidate.id != after[|before|].candidate.id {
          assert before[i] in before;
        }
      }
    }
  }

  /** Sorting and truncating an independent answer leaves its strongest rows. */
  lemma RankedAnswer(rows: seq<Hit>, limit: nat)
    requires Independent(rows)
    ensures var shown := Truncate(SortHits(rows), limit);
            && Candidates(shown) == Best(Members(Candidates(rows)), limit)
            && Descending(Candidates(shown)) && |shown| <= limit && EphemeralIdsUnique(shown)
  {
    var sorted := SortHits(rows);
    SortHitsSorted(rows);
    assert Members(Candidates(sorted)) == Members(Candidates(rows));
    TruncatedBest(sorted, limit);
    TruncateSub(rows, limit);
    IndependentSub(rows, Truncate(sorted, limit));
  }

  lemma TruncatedBest(sorted: seq<Hit>, limit: nat)
    requires Descending(Candidates(sorted))
    ensures var shown := Truncate(sorted, limit);
            Candidates(shown) == Best(Members(Candidates(sorted)), limit) && Descending(Candidates(shown))
  {
    var all := Candidates(sorted);
    var shown := Candidates(Truncate(sorted, limit));
    assert shown == if |all| <= limit then all else all[..limit];
    TruncateIsBest(all, limit);
    BestUnique(shown, Members(all), limit);
  }

  lemma TruncateSub(rows: seq<Hit>, limit: nat)
    ensures multiset(Truncate(SortHits(rows), limit)) <= multiset(rows)
  {
    var sorted := SortHits(rows);
    SortKeeps(HitAbove, rows);
    assert sorted == Truncate(sorted, limit) + sorted[|Truncate(sorted, limit)|..];
  }

  lemma PairIncluded(b: seq<Hit>, i: nat, j: nat)
    requires i < |b| && j < |b| && i != j
    ensures multiset{b[i], b[j]} <= multiset(b)
  {
    var lo, hi := if i < j then i else j, if i < j then j else i;
    assert b == b[..hi] + [b[hi]] + b[hi + 1..];
    assert b[..hi] == b[..lo] + [b[lo]] + b[lo + 1..hi];
    assert b[lo] in multiset(b[..hi]);
  }

  lemma PairFound(a: seq<Hit>, x: Hit, y: Hit) returns (p: nat, q: nat)
    requires multiset{x, y} <= multiset(a)
    ensures p < |a| && q < |a| && p != q && a[p] == x && a[q] == y
  {
    assert x in multiset(a);
    p :| 0 <= p < |a| && a[p] == x;
    var rest := a[..p] + a[p + 1..];
    assert y in multiset(rest) by { WithoutOne(a, p); }
    var k :| 0 <= k < |rest| && rest[k] == y;
    q := if k < p then k else k + 1;
  }

  lemma WithoutOne(a: seq<Hit>, p: nat)
    requires p < |a|
    ensures multiset(a) == multiset(a[..p] + a[p + 1..]) + multiset{a[p]}
  {
    assert a == a[..p] + [a[p]] + a[p + 1..];
  }

  // ---------------------------------------------------------------- the service

  datatype CatalogError = StaleInstance | OwnerMismatch | LimitExceeded
  datatype Replaced = Retained(count: nat) | Refused(error: CatalogError)
  datatype Instance = Instance(highWater: nat, active: bool)

  /** A cached slice as the persistent cache delivers it. */
  datatype CachedSlice = CachedSlice(instance: nat, items: seq<Item>, withinLimits: bool)

  /** What a publication changes: the slices, who may publish, and which came from disk. */
  datatype Store = Store(catalog: Catalog, instances: map<string, Instance>, cacheSourced: set<string>)

  predicate Stale(s: Store, plugin: string, slice: CachedSlice) {
    plugin in s.instances && slice.instance < s.instances[plugin].highWater
  }

  predicate Admits(s: Store, plugin: string, slice: CachedSlice) {
    !Stale(s, plugin, slice) && slice.withinLimits && forall item | item in slice.items :: item.owner == plugin
  }

  /** One publication: a stale one changes nothing, a refused one only retires its
      instance, an accepted one replaces the plugin's whole slice. */
  function AfterReplace(s: Store, plugin: string, slice: CachedSlice): (r: Store) {
    if Stale(s, plugin, slice) then s
    else if !Admits(s, plugin, slice) then s.(instances := s.instances[plugin := Instance(slice.instance, false)])
    else
      var items := PutAll([], slice.items);
      Store(if items == [] then s.catalog - {plugin} else s.catalog[plugin := items],
            s.instances[plugin := Instance(slice.instance, true)], s.cacheSourced - {plugin})
  }

  /** A whole load: each slice that is admitted is marked as coming from disk. */
  function AfterLoad(s: Store, slices: seq<(string, Option<CachedSlice>)>): (r: Store) {
    if slices == [] then s
    else
      var before, last := AfterLoad(s, slices[..|slices| - 1]), slices[|slices| - 1];
      if last.1.None? then before
      else
        var after := AfterReplace(before, last.0, last.1.value);
        if Admits(before, last.0, last.1.value) then after.(cacheSourced := after.cacheSourced + {last.0}) else after
  }

  function SkippedBy(s: Store, slices: seq<(string, Option<CachedSlice>)>): (n: nat) {
    if slices == [] then 0
    else
      var before, last := AfterLoad(s, slices[..|slices| - 1]), slices[|slices| - 1];
      SkippedBy(s, slices[..|slices| - 1]) + if last.1.Some? && Admits(before, last.0, last.1.value) then 0 else 1
  }

  /** The owners are the catalog's, in order, each with a proper slice and a sound bound. */
  ghost predicate CatalogSound(owners: seq<string>, catalog: Catalog, upper: map<string, real>) {
    && Ascending(owners)
    && (forall o :: o in owners <==> o in catalog)
    && (forall o | o in catalog :: catalog[o] != [] && Slice(o, catalog[o]))
    && (forall o | o in catalog && o in upper :: UpperSound(catalog[o], Some(upper[o])))
  }

  /** A retained cache covers its query, unless it descends from a blank one. */
  ghost predicate CacheSound(policy: Policy, catalog: Catalog, cache: CandidateCache, fromBlank: bool) {
    && CacheWellFormed(policy, catalog, cache)
    && if fromBlank then OpensWhite(cache.text) else CacheCovers(policy, catalog, cache)
  }

  class SearchService {
    const perPlugin: nat
    const global: nat
    const batch: nat
    var catalog: Catalog
    var instances: map<string, Instance>
    var owners: seq<string>
    var policy: Policy
    var aliases: AliasTable
    var volatile: set<string>
    var cacheSourced: set<string>
    var ctx: Context
    var results: seq<Hit>
    var candidateCache: Option<CandidateCache>
    var nonPrefixUpper: map<string, real>
    var lastQuery: Option<string>
    var generation: nat
    /** The retained cache descends, keystroke by keystroke, from a blank query. */
    ghost var fromBlank: bool

    ghost function Contents(): (s: Store)
      reads `catalog, `instances, `cacheSourced
    {
      Store(catalog, instances, cacheSourced)
    }

    ghost predicate CatalogValid()
      reads `owners, `catalog, `nonPrefixUpper
    {
      CatalogSound(owners, catalog, nonPrefixUpper)
    }

    ghost predicate CacheValid()
      reads `candidateCache, `policy, `catalog, `fromBlank
    {
      candidateCache.Some? ==> CacheSound(policy, catalog, candidateCache.value, fromBlank)
    }

    ghost predicate AnswerValid()
      reads `results
    {
      Descending(Candidates(results)) && |results| <= global && EphemeralIdsUnique(results)
    }

    ghost predicate Valid()
      reads this
    {
      CatalogValid() && CacheValid() && AnswerValid()
    }

    constructor (perPlugin: nat, global: nat, batch: nat, ctx: Context)
      ensures Valid() && catalog == map[] && candidateCache.None? && results == []
      ensures this.perPlugin == perPlugin && this.global == global && this.batch == batch
    {
      this.perPlugin, this.global, this.batch, this.ctx := perPlugin, global, batch, ctx;
      catalog, instances, owners, nonPrefixUpper := map[], map[], [], map[];
      policy, aliases, volatile, cacheSourced := Strict, map[], {}, {};
      results, candidateCache, lastQuery, generation, fromBlank := [], None, None, 0, false;
    }

    /** A different policy drops the cache: it was narrowed under the old one. */
    method SetMatchPolicy(policy: Policy)
      requires Valid()
      modifies `policy, `candidateCache
      ensures Valid() && this.policy == policy
      ensures policy != old(this.policy) ==> candidateCache.None?
    {
      if this.policy == policy { return; }
      this.policy, candidateCache := policy, None;
    }

    method SetAliases(aliases: AliasTable)
      requires Valid()
      modifies `aliases, `candidateCache
      ensures Valid() && this.aliases == aliases
      ensures aliases != old(this.aliases) ==> candidateCache.None?
    {
      if this.aliases == aliases { return; }
      this.aliases, candidateCache := aliases, None;
    }

    /** History, clock and foreground changes touch nothing else. */
    method SetContext(ctx: Context)
      requires Valid()
      modifies this`ctx
      ensures Valid() && this.ctx == ctx
    {
      this.ctx := ctx;
    }

    method WithdrawSlice(plugin: string)
      requires Valid()
      modifies `catalog, `nonPrefixUpper, `owners, `results, `candidateCache
      ensures Valid() && catalog == old(catalog) - {plugin} && results == [] && candidateCache.None?
    {
      RemoveOwnerSorted(owners, plugin);
      catalog := catalog - {plugin};
      nonPrefixUpper := nonPrefixUpper - {plugin};
      owners := RemoveOwner(owners, plugin);
      results, candidateCache := [], None;
    }

    /** Refusing persistence withdraws a slice only while it came from the cache. */
    method SetCatalogPersistence(plugin: string, persist: bool)
      requires Valid()
      modifies this
      ensures Valid()
      ensures volatile == if persist then old(volatile) - {plugin} else old(volatile) + {plugin}
      ensures catalog == if !persist && plugin !in old(volatile) && plugin in old(cacheSourced)
                         then old(catalog) - {plugin} else old(catalog)
      ensures catalog != old(catalog) ==> candidateCache.None? && results == []
    {
      if persist {
        volatile := volatile - {plugin};
      } else if plugin !in volatile {
        volatile := volatile + {plugin};
        if plugin in cacheSourced {
          cacheSourced := cacheSourced - {plugin};
          WithdrawSlice(plugin);
          assert plugin !in old(catalog) ==> old(catalog) - {plugin} == old(catalog);
        }
      } else {
        assert volatile == volatile + {plugin};
      }
    }

    /** Replaces one owner's slice. A refusal leaves the catalog alone and retires
        the instance it had activated. */
    method ReplaceCatalog(plugin: string, instance: nat, items: seq<Item>, withinLimits: bool) returns (r: Replaced)
      requires Valid() && forall item | item in items :: WellFormed(item)
      modifies `catalog, `instances, `nonPrefixUpper, `owners, `results, `candidateCache, `cacheSourced
      ensures Valid() && candidateCache.None?
      ensures Contents() == AfterReplace(old(Contents()), plugin, CachedSlice(instance, items, withinLimits))
      ensures r.Retained? <==> old(Admits(Contents(), plugin, CachedSlice(instance, items, withinLimits)))
      ensures r.Refused? ==> results == old(results)
      ensures r.Retained? ==> results == [] && r.count == if plugin in catalog then |catalog[plugin]| else 0
    {
      ghost var slice := CachedSlice(instance, items, withinLimits);
      candidateCache := None;
      nonPrefixUpper := nonPrefixUpper - {plugin};
      if plugin in instances && instance < instances[plugin].highWater {
        return Refused(StaleInstance);
      }
      instances := instances[plugin := Instance(instance, true)];
      if !withinLimits || exists item | item in items :: item.owner != plugin {
        instances := instances[plugin := Instance(instance, false)];
        assert !old(Stale(Contents(), plugin, slice)) && !old(Admits(Contents(), plugin, slice));
        return Refused(if withinLimits then OwnerMismatch else LimitExceeded);
      }
      assert old(Admits(Contents(), plugin, slice));
      var count := AcceptSlice(plugin, items);
      r := Retained(count);
    }

    /** Takes in a slice whose items are all the plugin's own. */
    method AcceptSlice(plugin: string, items: seq<Item>) returns (count: nat)
      requires CatalogValid() && AnswerValid() && plugin !in nonPrefixUpper
      requires forall item | item in items :: item.owner == plugin && WellFormed(item)
      modifies `catalog, `nonPrefixUpper, `owners, `results, `cacheSourced
      ensures CatalogValid() && AnswerValid() && results == [] && cacheSourced == old(cacheSourced) - {plugin}
      ensures catalog == if PutAll([], items) == [] then old(catalog) - {plugin}
                         else old(catalog)[plugin := PutAll([], items)]
      ensures count == |PutAll([], items)|
    {
      results := [];
      cacheSourced := cacheSourced - {plugin};
      PutAllKeepsSlice(plugin, [], items);
      InstallSlice(plugin, PutAll([], items));
      count := |PutAll([], items)|;
    }

    method InstallSlice(plugin: string, slice: seq<Item>)
      requires CatalogValid() && plugin !in nonPrefixUpper && Slice(plugin, slice)
      modifies `catalog, `nonPrefixUpper, `owners
      ensures CatalogValid()
      ensures catalog == if slice == [] then old(catalog) - {plugin} else old(catalog)[plugin := slice]
    {
      if slice == [] {
        RemoveOwnerSorted(owners, plugin);
        catalog := catalog - {plugin};
        owners := RemoveOwner(owners, plugin);
      } else {
        InsertOwnerSorted(owners, plugin);
        catalog := catalog[plugin := slice];
        nonPrefixUpper := nonPrefixUpper[plugin := MaxUpper(slice)];
        owners := InsertOwner(owners, plugin);
      }
    }

    /** Admits the cached slices one owner at a time; a miss costs only its owner. */
    method LoadPersistedCatalog(slices: seq<(string, Option<CachedSlice>)>) returns (skipped: nat)
      requires Valid()
      requires forall s | s in slices && s.1.Some? :: forall item | item in s.1.value.items :: WellFormed(item)
      modifies `catalog, `instances, `nonPrefixUpper, `owners, `results, `candidateCache, `cacheSourced
      ensures Valid() && candidateCache.None?
      ensures Contents() == AfterLoad(old(Contents()), slices) && skipped == SkippedBy(old(Contents()), slices)
    {
      candidateCache, nonPrefixUpper := None, map[];
      skipped := 0;
      for n := 0 to |slices|
        invariant Valid() && candidateCache.None?
        invariant Contents() == AfterLoad(old(Contents()), slices[..n])
        invariant skipped == SkippedBy(old(Contents()), slices[..n])
      {
        assert slices[..n + 1][..n] == slices[..n];
        var admitted := AdmitSlice(slices[n].0, slices[n].1);
        if !admitted { skipped := skipped + 1; }
      }
      assert slices[..|slices|] == slices;
    }

    /** Publishes one cached slice, if the cache delivered it. */
    method AdmitSlice(plugin: string, cached: Option<CachedSlice>) returns (admitted: bool)
      requires Valid() && (cached.Some? ==> forall item | item in cached.value.items :: WellFormed(item))
      modifies `catalog, `instances, `nonPrefixUpper, `owners, `results, `candidateCache, `cacheSourced
      ensures Valid() && (old(candidateCache).None? ==> candidateCache.None?)
      ensures admitted <==> cached.Some? && old(Admits(Contents(), plugin, cached.value))
      ensures cached.None? ==> Contents() == old(Contents())
      ensures cached.Some? ==>
                var after := AfterReplace(old(Contents()), plugin, cached.value);
                Contents() == if admitted then after.(cacheSourced := after.cacheSourced + {plugin}) else after
    {
      if cached.None? { return false; }
      var r := ReplaceCatalog(plugin, cached.value.instance, cached.value.items, cached.value.withinLimits);
      admitted := r.Retained?;
      if admitted { cacheSourced := cacheSourced + {plugin}; }
    }

    ghost function PlanFor(query: string, ctx: Context): (plan: Plan)
      reads `policy
    {
      Plan(policy, ctx, query, if perPlugin < global then perPlugin else global, global, batch)
    }

    /** The answer to `query` as a function of the catalog, policy, history and limits. */
    ghost function Answer(query: string, ctx: Context): (r: seq<Candidate>)
      requires CatalogValid()
      reads `policy, `catalog, `owners, `nonPrefixUpper
    {
      Reference(PlanFor(query, ctx), catalog, owners)
    }

    /** Accepts a query: what is selected follows from the catalog, the cache and the
        visiting order, as `QueryMeans` says when it is right, and the answer shown is that
        selection less the items of the batches the aggregator refused. */
    method SubmitQuery(text: string, ctx: Context, cold: PositionCache, accepts: (string, nat) -> bool)
      returns (selected: seq<Candidate>, sent: Traffic)
      requires Valid()
      requires forall o | o in owners ::
                 o in cold && ColdVisit(PlanFor(Expand(aliases, text), ctx), catalog[o], cold[o])
      modifies `ctx, `generation, `lastQuery, `candidateCache, `fromBlank, `results
      ensures Valid() && generation == old(generation) + 1 && this.ctx == ctx
      ensures lastQuery == Some(Expand(aliases, text))
      ensures var query := Expand(aliases, text);
              selected == SelectedBy(PlanFor(query, ctx), catalog, owners, old(PreviousFor(candidateCache, query)),
                                     cold, nonPrefixUpper)
      ensures old(NarrowsBlank(Expand(aliases, text))) ==> OpensWhite(Expand(aliases, text))
      ensures Carries(sent, selected, owners, batch, accepts) && results == Published(selected, RefusedIn(sent))
      ensures CacheLeft(Expand(aliases, text))
    {
      selected, sent := Answered(Expand(aliases, text), ctx, cold, accepts);
    }

    /** The same for a query already expanded. */
    method Answered(query: string, ctx: Context, cold: PositionCache, accepts: (string, nat) -> bool)
      returns (selected: seq<Candidate>, sent: Traffic)
      requires Valid()
      requires forall o | o in owners :: o in cold && ColdVisit(PlanFor(query, ctx), catalog[o], cold[o])
      modifies `ctx, `generation, `lastQuery, `candidateCache, `fromBlank, `results
      ensures Valid() && generation == old(generation) + 1 && this.ctx == ctx && lastQuery == Some(query)
      ensures selected == SelectedBy(PlanFor(query, ctx), catalog, owners, old(PreviousFor(candidateCache, query)),
                                     cold, nonPrefixUpper)
      ensures old(NarrowsBlank(query)) ==> OpensWhite(query)
      ensures Carries(sent, selected, owners, batch, accepts) && results == Published(selected, RefusedIn(sent))
      ensures CacheLeft(query)
    {
      ghost var blank := NarrowsBlank(query);
      var next, hits;
      selected, next, sent, hits := Prepare(query, ctx, cold, accepts);
      if blank { BlankOpensWhite(candidateCache.value.text); }
      Adopt(query, ctx, next, blank, hits);
    }

    /** Everything `SubmitQuery` works out before it changes anything. */
    method Prepare(query: string, ctx: Context, cold: PositionCache, accepts: (string, nat) -> bool)
      returns (selected: seq<Candidate>, next: Option<CandidateCache>, sent: Traffic, hits: seq<Hit>)
      requires Valid()
      requires forall o | o in owners :: o in cold && ColdVisit(PlanFor(query, ctx), catalog[o], cold[o])
      ensures selected == SelectedBy(PlanFor(query, ctx), catalog, owners, PreviousFor(candidateCache, query), cold,
                                     nonPrefixUpper)
      ensures Carries(sent, selected, owners, batch, accepts)
      ensures hits == Published(selected, RefusedIn(sent)) && Presentable(hits, global)
      ensures next.Some? ==> next.value.text == query && CacheWellFormed(policy, catalog, next.value)
      ensures next.Some? && !NarrowsBlank(query) ==> CacheCovers(policy, catalog, next.value)
      ensures perPlugin > 0 && global > 0 && batch > 0 && PrefixToken(query).None? ==>
                next.Some? && next.value.byOwner.Keys == OwnerSet(owners)
    {
      selected, next := SelectFor(query, ctx, cold);
      sent := PublishAll(selected, owners, batch, accepts);
      hits := Published(selected, RefusedIn(sent));
      PublishedSorted(selected, RefusedIn(sent));
    }

    /** A retained cache is the query's own, and a query without a prefix token always
        leaves one listing every owner. */
    ghost predicate CacheLeft(query: string)
      reads `candidateCache, `owners
    {
      && (candidateCache.Some? ==> candidateCache.value.text == query)
      && (perPlugin > 0 && global > 0 && batch > 0 && PrefixToken(query).None? ==>
            candidateCache.Some? && candidateCache.value.byOwner.Keys == OwnerSet(owners))
    }

    method Adopt(query: string, ctx: Context, next: Option<CandidateCache>, ghost blank: bool, hits: seq<Hit>)
      requires Valid() && Presentable(hits, global)
      requires next.Some? ==> CacheSound(policy, catalog, next.value, blank)
      modifies `ctx, `generation, `lastQuery, `candidateCache, `fromBlank, `results
      ensures Valid() && generation == old(generation) + 1 && this.ctx == ctx && lastQuery == Some(query)
      ensures candidateCache == next && fromBlank == blank && results == hits
    {
      AdoptCache(next, blank);
      AdoptAnswer(hits);
      this.ctx, generation, lastQuery := ctx, generation + 1, Some(query);
    }

    method AdoptCache(next: Option<CandidateCache>, ghost blank: bool)
      requires next.Some? ==> CacheSound(policy, catalog, next.value, blank)
      modifies `candidateCache, `fromBlank
      ensures CacheValid() && candidateCache == next && fromBlank == blank
    {
      candidateCache, fromBlank := next, blank;
    }

    method AdoptAnswer(hits: seq<Hit>)
      requires Presentable(hits, global)
      modifies `results
      ensures AnswerValid() && results == hits
    {
      results := hits;
    }

    /** Unless it narrows a blank query's cache, a pass sees every match. */
    lemma NothingHidden(query: string, ctx: Context)
      requires Valid() && !NarrowsBlank(query)
      ensures AllSeen(PlanFor(query, ctx), catalog, owners, PreviousFor(candidateCache, query))
    {
      if Reuses(candidateCache, query) {
        forall o | o in owners
          ensures Hidden(PlanFor(query, ctx), catalog[o], PriorOf(Some(candidateCache.value.byOwner), o)) == {}
        {
          WarmSeesEveryMatch(PlanFor(query, ctx), catalog, o, candidateCache.value);
        }
      }
    }

    /** What a query submitted now would select is the brute-force answer exactly when no
        match it misses belongs to that answer; and always, whatever was typed before,
        unless a match is endangered or the cache it narrows was left by a blank query. */
    lemma QueryMeans(query: string, ctx: Context, cold: PositionCache)
      requires Valid()
      requires forall o | o in owners :: o in cold && ColdVisit(PlanFor(query, ctx), catalog[o], cold[o])
      ensures var plan, previous := PlanFor(query, ctx), PreviousFor(candidateCache, query);
              var selected := SelectedBy(plan, catalog, owners, previous, cold, nonPrefixUpper);
              && (selected == Answer(query, ctx) <==>
                  DropsMiss(plan, catalog, owners, MissedBy(plan, catalog, owners, previous, cold, nonPrefixUpper),
                            Answer(query, ctx)))
              && (!NarrowsBlank(query) && SafeCatalog(plan, catalog, owners) ==> selected == Answer(query, ctx))
    {
      AscendingDistinct(owners);
      if !NarrowsBlank(query) { NothingHidden(query, ctx); }
      SelectionMeans(PlanFor(query, ctx), catalog, owners, PreviousFor(candidateCache, query), cold, nonPrefixUpper);
    }

    method SelectFor(query: string, ctx: Context, cold: PositionCache)
      returns (selected: seq<Candidate>, next: Option<CandidateCache>)
      requires Valid()
      requires forall o | o in owners :: o in cold && ColdVisit(PlanFor(query, ctx), catalog[o], cold[o])
      ensures selected == SelectedBy(PlanFor(query, ctx), catalog, owners, PreviousFor(candidateCache, query), cold,
                                     nonPrefixUpper)
      ensures Descending(selected) && |selected| <= global
      ensures next.Some? ==> next.value.text == query && CacheWellFormed(policy, catalog, next.value)
      ensures next.Some? && !NarrowsBlank(query) ==> CacheCovers(policy, catalog, next.value)
      ensures perPlugin > 0 && global > 0 && batch > 0 && PrefixToken(query).None? ==>
                next.Some? && next.value.byOwner.Keys == OwnerSet(owners)
    {
      var plan := Plan(policy, ctx, query, if perPlugin < global then perPlugin else global, global, batch);
      AscendingDistinct(owners);
      var previous := PreviousFor(candidateCache, query);
      var byOwner, complete;
      selected, byOwner, complete := SelectBest(plan, catalog, owners, previous, cold, nonPrefixUpper);
      if !NarrowsBlank(query) && complete {
        NothingHidden(query, ctx);
        FreshCacheCovers(plan, catalog, owners, previous, byOwner);
      }
      BestIsBest(Shortlist(plan, catalog, owners, previous,
                           DropsOf(plan, catalog, owners, previous, cold, nonPrefixUpper)), plan.global);
      next := if complete then Some(CandidateCache(query, byOwner)) else None;
    }

    /** Ranks one plugin's asynchronous items into the current answer: its earlier
        batch goes, shown ids are kept, and the strongest rows remain. */
    method MergeQueryItems(generation: nat, plugin: string, items: seq<Item>) returns (merged: bool)
      requires Valid()
      modifies `results
      ensures Valid()
      ensures merged <==> generation == this.generation && lastQuery.Some?
      ensures !merged ==> results == old(results)
      ensures merged ==>
                var rows := AdmitAll(PlanFor(lastQuery.value, ctx), Kept(old(results), plugin), items);
                && results == Truncate(SortHits(rows), global)
                && Candidates(results) == Best(Members(Candidates(rows)), global)
    {
      if generation != this.generation || lastQuery.None? { return false; }
      var plan := Plan(policy, ctx, lastQuery.value, if perPlugin < global then perPlugin else global, global, batch);
      SortedIsIndependent(results);
      KeptSub(results, plugin);
      var kept := Kept(results, plugin);
      IndependentSub(results, kept);
      var rows := kept;
      for n := 0 to |items|
        invariant rows == AdmitAll(plan, kept, items[..n])
      {
        assert items[..n + 1][..n] == items[..n];
        rows := Admit(plan, rows, items[n]);
      }
      assert items[..|items|] == items;
      AdmitAllIndependent(plan, kept, items);
      RankedAnswer(rows, global);
      results := Truncate(SortHits(rows), global);
      merged := true;
    }

    /** The query would narrow a cache that a blank query left behind. */
    ghost predicate NarrowsBlank(query: string)
      reads this
    {
      Reuses(candidateCache, query) && (fromBlank || Tokens(candidateCache.value.text) == [])
    }
  }

  predicate OpensWhite(s: string) {
    s != "" && IsWhite(s[0])
  }

  lemma BlankOpensWhite(s: string)
    ensures s != "" && Tokens(s) == [] ==> OpensWhite(s)
  {
  }

  /** A complete pass that sees every match leaves a covering cache. */
  lemma FreshCacheCovers(plan: Plan, catalog: Catalog, owners: seq<string>, previous: Option<PositionCache>,
                         byOwner: PositionCache)
    requires OwnersOf(catalog, owners) && forall o | o in byOwner :: o in owners
    requires AllSeen(plan, catalog, owners, previous)
    requires forall o | o in byOwner :: Remembers(plan, catalog[o], PriorOf(previous, o), byOwner[o])
    ensures CacheCovers(plan.policy, catalog, CandidateCache(plan.query, byOwner))
  {
    forall o, p: nat | o in byOwner && p < |catalog[o]| && Matches(plan.policy, plan.query, catalog[o][p])
      ensures p in byOwner[o]
    {
      assert p !in Hidden(plan, catalog[o], PriorOf(previous, o));
    }
  }

  // ---------------------------------------------------------------- where the code falls short

  /** An item found only through its description. */
  function Described(owner: string, text: string): (item: Item) {
    Item(owner, "a", "", [], text, [], Application, 0)
  }

  /** Whatever the query's tokens, such an item matches it and is off the prefix index. */
  lemma DescribedMatches(policy: Policy, owner: string, query: string)
    requires Tokens(query) != []
    ensures Matches(policy, query, Described(owner, query)) && !OnPrefixIndex(query, Described(owner, query))
  {
    var item := Described(owner, query);
    MatchedIffEveryToken(policy, query, item);
    forall t | t in Tokens(query) ensures MatchToken(policy, item, t).Some? {
      TokensContained(query, t);
      assert query in Fields(item);
      assert !IsWhite(t[0]) by { assert t[0] in t; }
      FieldInKeywordText(item, query, t);
      MatchTokenIff(policy, item, t);
    }
  }

  lemma OnlyMatch(plan: Plan, item: Item)
    requires Matches(plan.policy, plan.query, item) && plan.perPlugin > 0
    ensures var items := [item];
            Best(MatchesAt(plan, items, Visible(plan, items, None) - {}), plan.perPlugin) == [CandidateOf(plan, item)]
  {
    var items, c := [item], CandidateOf(plan, item);
    assert MatchesAt(plan, items, Visible(plan, items, None) - {}) == {c} by {
      assert items[0] == item && 0 in Visible(plan, items, None);
    }
    BestOfOne(c, plan.perPlugin);
  }

  lemma AnswerOfOne(plan: Plan, catalog: Catalog, owner: string, item: Item)
    requires Matches(plan.policy, plan.query, item) && plan.perPlugin > 0 && plan.global > 0 && plan.batch > 0
    requires owner in catalog && catalog[owner] == [item]
    ensures Reference(plan, catalog, [owner]) == [CandidateOf(plan, item)]
  {
    OnlyMatch(plan, item);
    OneOwner(plan, catalog, owner, None, NO_DROPS);
    BestOfOne(CandidateOf(plan, item), plan.global);
  }

  /** Over an empty cache nothing off the prefix index is left to select. */
  lemma NothingSelected(plan: Plan, catalog: Catalog, owner: string, item: Item, byOwner: PositionCache, drops: Drops)
    requires !OnPrefixIndex(plan.query, item)
    requires owner in catalog && catalog[owner] == [item] && owner in byOwner && byOwner[owner] == []
    ensures Selected(plan, catalog, [owner], Some(byOwner), drops) == []
  {
    assert Visible(plan, [item], Some([])) == {};
    assert MatchesAt(plan, [item], {}) == {};
    OneOwner(plan, catalog, owner, Some(byOwner), drops);
  }

  /** A blank query leaves a cache with nothing in it. */
  method TypeBlank(service: SearchService, owner: string, blank: string, ctx: Context, cold: PositionCache,
                   accepts: (string, nat) -> bool)
    requires blank != "" && Tokens(blank) == [] && service.Valid()
    requires service.perPlugin > 0 && service.global > 0 && service.batch > 0
    requires forall o | o in service.owners ::
               o in cold && ColdVisit(service.PlanFor(blank, ctx), service.catalog[o], cold[o])
    requires owner in service.owners
    modifies service`ctx, service`generation, service`lastQuery, service`candidateCache, service`fromBlank,
             service`results
    ensures service.Valid() && service.candidateCache.Some? && service.candidateCache.value.text == blank
    ensures owner in service.candidateCache.value.byOwner && service.candidateCache.value.byOwner[owner] == []
  {
    var selected, sent := service.SubmitQuery(blank, ctx, cold, accepts);
    assert owner in OwnerSet(service.owners);
    BlankCacheIsEmpty(service.policy, service.catalog, service.candidateCache.value, owner);
  }

  /** Every blank query poisons every extension of it that has a token: typed first, it
      leaves a cache that reuse is granted, and a match of the longer query that is off
      the prefix index is not shown. */
  method BlankQueryHidesMatches(service: SearchService, owner: string, item: Item, blank: string, query: string,
                                ctx: Context, coldBlank: PositionCache, coldQuery: PositionCache,
                                accepts: (string, nat) -> bool)
    returns (selected: seq<Candidate>)
    requires blank != "" && Tokens(blank) == [] && blank <= query && |query| > 2
    requires service.Valid() && Expand(service.aliases, query) == query
    requires service.perPlugin > 0 && service.global > 0 && service.batch > 0
    requires service.owners == [owner] && owner in service.catalog && service.catalog[owner] == [item]
    requires Matches(service.policy, query, item) && !OnPrefixIndex(query, item)
    requires owner in coldBlank && ColdVisit(service.PlanFor(blank, ctx), [item], coldBlank[owner])
    requires owner in coldQuery && ColdVisit(service.PlanFor(query, ctx), [item], coldQuery[owner])
    modifies service`ctx, service`generation, service`lastQuery, service`candidateCache, service`fromBlank,
             service`results
    ensures service.Valid() && service.lastQuery == Some(query) && selected == [] && service.results == []
    ensures service.Answer(query, ctx) == [CandidateOf(service.PlanFor(query, ctx), item)]
  {
    TypeBlank(service, owner, blank, ctx, coldBlank, accepts);
    selected := QueryOverEmpty(service, owner, item, query, ctx, coldQuery, accepts);
    AnswerOfOne(service.PlanFor(query, ctx), service.catalog, owner, item);
  }

  /** A query that reuses an empty cache selects nothing off the prefix index. */
  method QueryOverEmpty(service: SearchService, owner: string, item: Item, query: string, ctx: Context,
                        cold: PositionCache, accepts: (string, nat) -> bool)
    returns (selected: seq<Candidate>)
    requires service.Valid() && Expand(service.aliases, query) == query
    requires service.owners == [owner] && owner in service.catalog && service.catalog[owner] == [item]
    requires Reuses(service.candidateCache, query) && !OnPrefixIndex(query, item)
    requires owner in service.candidateCache.value.byOwner && service.candidateCache.value.byOwner[owner] == []
    requires owner in cold && ColdVisit(service.PlanFor(query, ctx), [item], cold[owner])
    modifies service`ctx, service`generation, service`lastQuery, service`candidateCache, service`fromBlank,
             service`results
    ensures service.Valid() && service.lastQuery == Some(query) && selected == [] && service.results == []
  {
    ghost var byOwner := service.candidateCache.value.byOwner;
    var sent;
    selected, sent := service.SubmitQuery(query, ctx, cold, accepts);
    NothingSelected(service.PlanFor(query, ctx), service.catalog, owner, item, byOwner,
      DropsOf(service.PlanFor(query, ctx), service.catalog, [owner], Some(byOwner), cold, service.nonPrefixUpper));
  }
}
