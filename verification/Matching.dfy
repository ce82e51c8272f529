/** The matcher of crates/crikey-query: which items a query reads, and how.

    Labels, descriptions and search terms are held in folded form, and a query
    is its normalized text: `tokens` is always `Tokens(text)`, which both
    `normalize` and `AliasTable::expand` maintain.
 */
module Matching {
  import opened Text

  const MAX_WORD_PREFIX_WORDS := 8
  const MAX_WORD_PREFIX_TOKEN := 12

  datatype Category =
    | Application | Keyword | Command | Expression | Contact
    | Url | Directory | File | ClipboardItem | PluginDefined(name: string)

  /** One published catalog item. `words` are the label's word ranges. */
  datatype Item = Item(
    owner: string,
    id: string,
    labelText: string,
    words: seq<(nat, nat)>,
    description: string,
    terms: seq<string>,
    category: Category,
    hint: int)

  /** Word ranges are ascending, disjoint and inside the label. */
  ghost predicate WellFormed(item: Item) {
    && (forall i | 0 <= i < |item.words| :: item.words[i].0 <= item.words[i].1 <= |item.labelText|)
    && (forall i, j | 0 <= i < j < |item.words| :: item.words[i].1 <= item.words[j].0)
  }

  datatype Policy = Strict | Subsequence

  datatype Method = ExactPrefix | Prefix | WordPrefix | Substring | KeywordHit | Fuzzy

  /** Lower is stronger. */
  function Precedence(m: Method): (r: nat) {
    match m
    case ExactPrefix => 0
    case Prefix => 1
    case WordPrefix => 2
    case Substring => 3
    case KeywordHit => 4
    case Fuzzy => 5
  }

  // ---------------------------------------------------------------- searchable text

  function PushField(out: string, raw: string): (r: string) {
    if raw == "" then out else if out == "" then raw else out + " " + raw
  }

  function PushFields(out: string, raws: seq<string>): (r: string)
    decreases |raws|
  {
    if raws == [] then out else PushFields(PushField(out, raws[0]), raws[1..])
  }

  /** Label, description and search terms, joined by single spaces. */
  function Searchable(item: Item): (r: string) {
    PushFields(PushField(item.labelText, item.description), item.terms)
  }

  /** What follows the label in the searchable text, less one separator. */
  function KeywordText(item: Item): (r: string) {
    SearchableExtendsLabel(item);
    var tail := Searchable(item)[|item.labelText|..];
    if tail != "" && tail[0] == ' ' then tail[1..] else tail
  }

  lemma {:induction false} PushFieldsExtends(out: string, raws: seq<string>)
    ensures out <= PushFields(out, raws)
    decreases |raws|
  {
    if raws != [] { PushFieldsExtends(PushField(out, raws[0]), raws[1..]); }
  }

  lemma SearchableExtendsLabel(item: Item)
    ensures item.labelText <= Searchable(item)
  {
    PushFieldsExtends(PushField(item.labelText, item.description), item.terms);
  }

  lemma OccursInLonger(short: string, long: string, needle: string, from: nat)
    requires short <= long && OccursFrom(short, needle, from)
    ensures OccursFrom(long, needle, from)
  {
    var i: nat :| from <= i <= |short| && OccursAt(short, needle, i);
    assert OccursAt(long, needle, i);
  }

  lemma SuffixOccurs(s: string, base: nat, suffix: string, needle: string, i: nat)
    requires base <= |s| && s[base..] == suffix && OccursAt(suffix, needle, i)
    ensures base + i <= |s| && OccursAt(s, needle, base + i)
  {
    assert s[base..][i..i + |needle|] == s[base + i..base + i + |needle|];
  }

  lemma FieldOccurs(out: string, raw: string, needle: string, from: nat)
    requires from <= |out| && needle != "" && Contains(raw, needle)
    ensures OccursFrom(PushField(out, raw), needle, from)
  {
    var i: nat :| i <= |raw| && OccursAt(raw, needle, i);
    var pushed := PushField(out, raw);
    SuffixOccurs(pushed, |pushed| - |raw|, raw, needle, i);
  }

  lemma {:induction false} TermOccurs(out: string, raws: seq<string>, k: nat, needle: string, from: nat)
    requires from <= |out| && needle != "" && k < |raws| && Contains(raws[k], needle)
    ensures OccursFrom(PushFields(out, raws), needle, from)
    decreases |raws|
  {
    var next := PushField(out, raws[0]);
    if k == 0 {
      FieldOccurs(out, raws[0], needle, from);
      PushFieldsExtends(next, raws[1..]);
      OccursInLonger(next, PushFields(next, raws[1..]), needle, from);
    } else {
      TermOccurs(next, raws[1..], k - 1, needle, from);
    }
  }

  /** The fields keyword containment inspects one by one. */
  function Fields(item: Item): (r: seq<string>) {
    item.terms + if item.description != "" then [item.description] else []
  }

  /** A token found in one field is found in the joined text, after the label. */
  lemma FieldInSearchable(item: Item, field: string, token: string) returns (i: nat)
    requires field in Fields(item) && Contains(field, token) && token != "" && token[0] != ' '
    ensures |item.labelText| <= i <= |Searchable(item)| && OccursAt(Searchable(item), token, i)
  {
    var from := |item.labelText|;
    var text := Searchable(item);
    var first := PushField(item.labelText, item.description);
    if field in item.terms {
      var k :| 0 <= k < |item.terms| && item.terms[k] == field;
      TermOccurs(first, item.terms, k, token, from);
    } else {
      FieldOccurs(item.labelText, item.description, token, from);
      PushFieldsExtends(first, item.terms);
      OccursInLonger(first, text, token, from);
    }
    i :| from <= i <= |text| && OccursAt(text, token, i);
  }

  /** A token found in one field is visible in the joined keyword text. */
  lemma FieldInKeywordText(item: Item, field: string, token: string)
    requires field in Fields(item) && Contains(field, token)
    requires token != "" && token[0] != ' '
    ensures Contains(KeywordText(item), token)
  {
    var from := |item.labelText|;
    var i := FieldInSearchable(item, field, token);
    SearchableExtendsLabel(item);
    OccursInTail(Searchable(item), token, from, i);
    var tail := Searchable(item)[from..];
    if tail != "" && tail[0] == ' ' { OccursPastSpace(tail, token, i - from); }
  }

  lemma OccursInTail(text: string, token: string, from: nat, i: nat)
    requires from <= i && OccursAt(text, token, i)
    ensures OccursAt(text[from..], token, i - from)
  {
    assert text[from..][i - from..i - from + |token|] == text[i..i + |token|];
  }

  lemma OccursPastSpace(tail: string, token: string, i: nat)
    requires OccursAt(tail, token, i) && token != "" && token[0] != ' ' && tail != "" && tail[0] == ' '
    ensures i > 0 && OccursAt(tail[1..], token, i - 1)
  {
    assert tail[i] == tail[i..i + |token|][0] == token[0];
    assert tail[1..][i - 1..i - 1 + |token|] == tail[i..i + |token|];
  }

  // ---------------------------------------------------------------- word-prefix reading

  function WordTexts(item: Item): (r: seq<string>)
    ensures |r| == |item.words|
    ensures WellFormed(item) ==>
              forall i | 0 <= i < |r| :: r[i] == item.labelText[item.words[i].0..item.words[i].1]
  {
    seq(|item.words|, i requires 0 <= i < |item.words| =>
      var (start, end) := item.words[i];
      if start <= end <= |item.labelText| then item.labelText[start..end] else "")
  }

  /** Length of the longest common prefix. */
  function Reach(a: string, b: string): (n: nat)
    ensures n <= |a| && n <= |b|
  {
    if a == "" || b == "" || a[0] != b[0] then 0 else 1 + Reach(a[1..], b[1..])
  }

  lemma {:induction false} ReachIsLongest(a: string, b: string, n: nat)
    requires n <= |a| && n <= |b|
    ensures n <= Reach(a, b) <==> a[..n] == b[..n]
  {
    if n > 0 {
      if a[0] == b[0] {
        ReachIsLongest(a[1..], b[1..], n - 1);
        assert a[..n] == [a[0]] + a[1..][..n - 1];
        assert b[..n] == [b[0]] + b[1..][..n - 1];
        assert a[..n] == b[..n] ==> a[1..][..n - 1] == a[..n][1..] == b[..n][1..] == b[1..][..n - 1];
      } else {
        assert a[..n][0] != b[..n][0];
      }
    }
  }

  /** What one chunk earns, in fifths: its bytes plus one for a whole word. */
  function ChunkValue(word: string, chunk: string): (v: int) {
    5 * Utf8Length(chunk) + (if |chunk| == |word| then 5 else 0)
  }

  /** One grid cell, from the row below it: the better of skipping the word, at a
      cost of 3, and taking one of its first `reach` prefixes as a chunk. */
  function Cell(word: string, token: string, q: nat, reach: nat, next: seq<Option<int>>): (r: Option<int>)
    requires q + reach <= |token| && |next| == |token| + 1
    decreases reach
  {
    if reach == 0 then
      if next[q].Some? then Some(next[q].value - 3) else None
    else
      var shorter := Cell(word, token, q, reach - 1, next);
      if next[q + reach].None? then shorter
      else
        var value := ChunkValue(word, token[q..q + reach]) + next[q + reach].value;
        if shorter.None? || value > shorter.value then Some(value) else shorter
  }

  /** Entry `q` of the row for `word`, above the row `next`. */
  function Entry(word: string, token: string, q: nat, next: seq<Option<int>>): (r: Option<int>)
    requires q <= |token| == |next| - 1
  {
    if q == |token| then Some(0) else Cell(word, token, q, Reach(token[q..], word), next)
  }

  /** One grid row: entry `q` is the best value covering `token[q..]` by chunks that
      are prefixes of distinct words of `words[w..]`, in fifths, or `None`. */
  function Row(words: seq<string>, token: string, w: nat): (row: seq<Option<int>>)
    requires w <= |words|
    ensures |row| == |token| + 1
    decreases |words| - w
  {
    if w == |words| then
      seq(|token| + 1, q requires 0 <= q <= |token| => if q == |token| then Some(0) else None)
    else
      var next := Row(words, token, w + 1);
      seq(|token| + 1, q requires 0 <= q <= |token| => Entry(words[w], token, q, next))
  }

  predicate Takes(word: string, token: string, q: nat, n: nat, next: seq<Option<int>>, expected: int)
    requires q + n <= |token| && |next| == |token| + 1
  {
    next[q + n].Some? && ChunkValue(word, token[q..q + n]) + next[q + n].value == expected
  }

  /** The shortest chunk length in `lo..=reach` the grid credited, or 0. */
  function Credited(word: string, token: string, q: nat, lo: nat, reach: nat, next: seq<Option<int>>, expected: int)
    : (n: nat)
    requires 1 <= lo && q + reach <= |token| && |next| == |token| + 1
    ensures n != 0 ==> lo <= n <= reach && Takes(word, token, q, n, next, expected)
    ensures n == 0 ==> forall m: nat | lo <= m <= reach :: !Takes(word, token, q, m, next, expected)
    decreases reach + 1 - lo
  {
    if lo > reach then 0
    else if Takes(word, token, q, lo, next, expected) then lo
    else Credited(word, token, q, lo + 1, reach, next, expected)
  }

  /** The chunk the replay takes from `word` at offset `q`: its length, or 0 to skip. */
  function Taken(word: string, token: string, q: nat, next: seq<Option<int>>): (n: nat)
    requires q < |token| == |next| - 1
    ensures n <= Reach(token[q..], word)
  {
    var reach := Reach(token[q..], word);
    var expected := Cell(word, token, q, reach, next);
    if expected.None? then 0 else Credited(word, token, q, 1, reach, next, expected.value)
  }

  /** Chunk lengths the replay takes, by word and offset. */
  type Choices = seq<seq<nat>>

  predicate Fits(row: seq<nat>, size: nat) {
    |row| == size && forall q | 0 <= q < size :: q + row[q] <= size
  }

  predicate InBounds(choices: Choices, size: nat) {
    forall w | 0 <= w < |choices| :: Fits(choices[w], size)
  }

  function ChosenRow(word: string, token: string, next: seq<Option<int>>): (row: seq<nat>)
    requires |next| == |token| + 1
    ensures Fits(row, |token|) && forall q | 0 <= q < |token| :: row[q] == Taken(word, token, q, next)
  {
    seq(|token|, q requires 0 <= q < |token| => Taken(word, token, q, next))
  }

  /** What the filled grid credits at every word and offset. */
  function Chosen(words: seq<string>, token: string): (choices: Choices)
    ensures |choices| == |words| && InBounds(choices, |token|)
  {
    seq(|words|, w requires 0 <= w < |words| => ChosenRow(words[w], token, Row(words, token, w + 1)))
  }

  /** Replays the choices from `(w, q)` and counts the chunks taken. */
  function Replay(choices: Choices, size: nat, w: nat, q: nat): (r: Option<nat>)
    requires InBounds(choices, size) && w <= |choices| && q <= size
    decreases |choices| - w
  {
    if q == size then Some(0)
    else if w == |choices| then None
    else
      var n := choices[w][q];
      var rest := Replay(choices, size, w + 1, q + n);
      if n == 0 || rest.None? then rest else Some(rest.value + 1)
  }

  /** Cheap necessary condition for a decomposition of two or more chunks. */
  predicate MayDecompose(words: seq<string>, token: string) {
    && |token| >= 2
    && (|| (exists i | 0 <= i < |words| :: |words[i]| >= 2 && words[i][0] == token[0] && words[i][1] == token[1])
        || (exists i, j | 0 <= i < j < |words| ::
              words[i] != "" && words[i][0] == token[0] && words[j] != "" && words[j][0] == token[1]))
  }

  /** Whether any decomposition exists at all, within the grid's limits. */
  predicate Decomposes(words: seq<string>, token: string) {
    0 < |words| <= MAX_WORD_PREFIX_WORDS && |token| <= MAX_WORD_PREFIX_TOKEN
    && Row(words, token, 0)[0].Some?
  }

  predicate ReadsAsWordPrefix(words: seq<string>, token: string) {
    && MayDecompose(words, token)
    && Decomposes(words, token)
    && var chunks := Replay(Chosen(words, token), |token|, 0, 0);
       chunks.Some? && chunks.value >= 2
  }

  /** `token[q..e]` may be taken as one chunk from `word`. */
  predicate ChunkOf(word: string, token: string, q: nat, e: nat) {
    q < e <= |token| && token[q..e] <= word
  }

  /** Coverage without values: some choice of chunks and skips reaches the end. */
  predicate Covers(words: seq<string>, token: string, w: nat, q: nat)
    requires w <= |words| && q <= |token|
    decreases |words| - w
  {
    || q == |token|
    || (w < |words| && Covers(words, token, w + 1, q))
    || (w < |words| && exists e: nat | e <= |token| && ChunkOf(words[w], token, q, e) :: Covers(words, token, w + 1, e))
  }

  lemma ReachIff(word: string, token: string, q: nat, e: nat)
    requires q < e <= |token|
    ensures e - q <= Reach(token[q..], word) <==> ChunkOf(word, token, q, e)
  {
    var n := e - q;
    assert token[q..][..n] == token[q..e];
    if n <= |word| {
      ReachIsLongest(token[q..], word, n);
    }
  }

  lemma {:induction false} CellIff(word: string, token: string, q: nat, reach: nat, next: seq<Option<int>>)
    requires q + reach <= |token| && |next| == |token| + 1
    ensures Cell(word, token, q, reach, next).Some? <==>
              exists e | q <= e <= q + reach :: next[e].Some?
    decreases reach
  {
    if reach > 0 { CellIff(word, token, q, reach - 1, next); }
  }

  lemma {:induction false} CellAttained(word: string, token: string, q: nat, reach: nat, next: seq<Option<int>>)
    requires q + reach <= |token| && |next| == |token| + 1 && Cell(word, token, q, reach, next).Some?
    ensures next[q].Some? || exists n: nat | 1 <= n <= reach ::
              Takes(word, token, q, n, next, Cell(word, token, q, reach, next).value)
    decreases reach
  {
    if reach > 0 {
      var best, shorter := Cell(word, token, q, reach, next), Cell(word, token, q, reach - 1, next);
      if best == shorter {
        CellAttained(word, token, q, reach - 1, next);
      } else {
        assert Takes(word, token, q, reach, next, best.value);
      }
    }
  }

  /** The grid holds a value exactly at the cells from which the token can be covered. */
  lemma {:induction false} GridIffCovers(words: seq<string>, token: string, w: nat, q: nat)
    requires w <= |words| && q <= |token|
    ensures Row(words, token, w)[q].Some? <==> Covers(words, token, w, q)
    decreases |words| - w
  {
    if q < |token| && w < |words| {
      var next := Row(words, token, w + 1);
      forall e: nat | e <= |token| ensures next[e].Some? <==> Covers(words, token, w + 1, e) {
        GridIffCovers(words, token, w + 1, e);
      }
      var reach := Reach(token[q..], words[w]);
      CellIff(words[w], token, q, reach, next);
      forall e: nat | q < e <= |token| ensures e <= q + reach <==> ChunkOf(words[w], token, q, e) {
        ReachIff(words[w], token, q, e);
      }
      assert Row(words, token, w)[q] == Cell(words[w], token, q, reach, next);
      if Row(words, token, w)[q].Some? {
        var e :| q <= e <= q + reach && next[e].Some?;
        assert Covers(words, token, w + 1, e);
        assert e == q || ChunkOf(words[w], token, q, e);
      }
      if Covers(words, token, w, q) {
        if Covers(words, token, w + 1, q) {
          assert next[q].Some?;
        } else {
          var e: nat :| e <= |token| && ChunkOf(words[w], token, q, e) && Covers(words, token, w + 1, e);
          assert next[e].Some?;
        }
      }
    }
  }

  /** Shortening the token keeps it decomposable. */
  lemma {:induction false} CoverPrefix(words: seq<string>, shorter: string, longer: string, w: nat, q: nat)
    requires shorter <= longer && w <= |words| && q <= |shorter|
    requires Covers(words, longer, w, q)
    ensures Covers(words, shorter, w, q)
    decreases |words| - w
  {
    if q < |shorter| {
      if Covers(words, longer, w + 1, q) {
        CoverPrefix(words, shorter, longer, w + 1, q);
      } else {
        var e: nat :| e <= |longer| && ChunkOf(words[w], longer, q, e) && Covers(words, longer, w + 1, e);
        if e <= |shorter| {
          CoverPrefix(words, shorter, longer, w + 1, e);
          assert shorter[q..e] == longer[q..e];
          assert ChunkOf(words[w], shorter, q, e);
        } else {
          assert shorter[q..|shorter|] == longer[q..e][..|shorter| - q];
          assert ChunkOf(words[w], shorter, q, |shorter|) && Covers(words, shorter, w + 1, |shorter|);
        }
      }
    }
  }

  /** The replay steps only to cells that hold a value. */
  lemma TakenLeads(word: string, token: string, q: nat, next: seq<Option<int>>)
    requires q < |token| == |next| - 1 && Entry(word, token, q, next).Some?
    ensures next[q + Taken(word, token, q, next)].Some?
  {
    CellAttained(word, token, q, Reach(token[q..], word), next);
  }

  lemma TakenIsChunk(word: string, token: string, q: nat, next: seq<Option<int>>)
    requires q < |token| == |next| - 1 && Taken(word, token, q, next) > 0
    ensures ChunkOf(word, token, q, q + Taken(word, token, q, next))
  {
    ReachIff(word, token, q, q + Taken(word, token, q, next));
  }

  lemma RowAt(words: seq<string>, token: string, w: nat, q: nat)
    requires w <= |words| && q < |token|
    ensures w == |words| ==> Row(words, token, w)[q] == None
    ensures w < |words| ==> Row(words, token, w)[q] == Entry(words[w], token, q, Row(words, token, w + 1))
  {
  }

  type Rows = seq<seq<Option<int>>>

  predicate Aligned(choices: Choices, size: nat, rows: Rows) {
    |rows| == |choices| + 1 && InBounds(choices, size) && forall w | 0 <= w < |rows| :: |rows[w]| == size + 1
  }

  /** A cell with a value leads, by what is chosen there, to one with a value below. */
  predicate Leads(choices: Choices, size: nat, rows: Rows, w: nat, q: nat)
    requires Aligned(choices, size, rows) && w <= |choices| && q < size
  {
    rows[w][q].Some? ==> w < |choices| && rows[w + 1][q + choices[w][q]].Some?
  }

  function Grid(words: seq<string>, token: string): (rows: Rows)
    ensures |rows| == |words| + 1 && forall w | 0 <= w <= |words| :: |rows[w]| == |token| + 1
  {
    seq(|words| + 1, w requires 0 <= w <= |words| => Row(words, token, w))
  }

  lemma RowLeads(words: seq<string>, token: string, w: nat, q: nat)
    requires w <= |words| && q < |token| && Row(words, token, w)[q].Some?
    ensures w < |words| && Row(words, token, w + 1)[q + Taken(words[w], token, q, Row(words, token, w + 1))].Some?
  {
    RowAt(words, token, w, q);
    TakenLeads(words[w], token, q, Row(words, token, w + 1));
  }

  lemma ChosenAt(words: seq<string>, token: string, w: nat, q: nat)
    requires w < |words| && q < |token|
    ensures Chosen(words, token)[w][q] == Taken(words[w], token, q, Row(words, token, w + 1))
  {
  }

  lemma GridAt(words: seq<string>, token: string, w: nat)
    requires w <= |words|
    ensures Grid(words, token)[w] == Row(words, token, w)
  {
  }

  lemma ChosenLeads(words: seq<string>, token: string, w: nat, q: nat)
    requires w <= |words| && q < |token|
    ensures Leads(Chosen(words, token), |token|, Grid(words, token), w, q)
  {
    var choices, rows := Chosen(words, token), Grid(words, token);
    assert rows[w] == Row(words, token, w) by { GridAt(words, token, w); }
    if rows[w][q].Some? {
      RowLeads(words, token, w, q);
      ChosenAt(words, token, w, q);
      assert rows[w + 1] == Row(words, token, w + 1) by { GridAt(words, token, w + 1); }
    }
  }

  /** The replay of a cell with a value always covers the token. */
  lemma {:induction false} ReplayCompletes(choices: Choices, size: nat, rows: Rows, w: nat, q: nat)
    requires Aligned(choices, size, rows) && w <= |choices| && q <= size && rows[w][q].Some?
    requires forall i: nat, e: nat | i <= |choices| && e < size :: Leads(choices, size, rows, i, e)
    ensures Replay(choices, size, w, q).Some?
    decreases |choices| - w
  {
    if q < size {
      assert Leads(choices, size, rows, w, q);
      ReplayCompletes(choices, size, rows, w + 1, q + choices[w][q]);
    }
  }

  /** A token the grid can cover is replayed to its end. */
  lemma ChosenCompletes(words: seq<string>, token: string)
    requires Row(words, token, 0)[0].Some?
    ensures Replay(Chosen(words, token), |token|, 0, 0).Some?
  {
    var choices, rows := Chosen(words, token), Grid(words, token);
    forall i: nat, e: nat | i <= |choices| && e < |token| ensures Leads(choices, |token|, rows, i, e) {
      ChosenLeads(words, token, i, e);
    }
    GridAt(words, token, 0);
    ReplayCompletes(choices, |token|, rows, 0, 0);
  }

  /** `n` characters of word `i` are the first chunk, and `chunks` are taken in all:
      one chunk ends the token, more open a second one at a later word. */
  ghost predicate FirstChunk(words: seq<string>, token: string, q: nat, i: nat, n: nat, chunks: nat) {
    && i < |words| && ChunkOf(words[i], token, q, q + n)
    && (chunks == 1 ==> q + n == |token|)
    && (chunks >= 2 ==> q + n < |token| && exists j | i < j < |words| :: words[j] != "" && words[j][0] == token[q + n])
  }

  /** Every choice but zero is a chunk of its word. */
  ghost predicate Chunks(words: seq<string>, token: string, choices: Choices) {
    && |choices| == |words| && InBounds(choices, |token|)
    && forall w, q | 0 <= w < |words| && 0 <= q < |token| && choices[w][q] > 0 ::
         ChunkOf(words[w], token, q, q + choices[w][q])
  }

  lemma ChosenAreChunks(words: seq<string>, token: string)
    ensures Chunks(words, token, Chosen(words, token))
  {
    var choices := Chosen(words, token);
    forall w, q | 0 <= w < |words| && 0 <= q < |token| && choices[w][q] > 0
      ensures ChunkOf(words[w], token, q, q + choices[w][q])
    {
      ChosenAt(words, token, w, q);
      TakenIsChunk(words[w], token, q, Row(words, token, w + 1));
    }
  }

  lemma {:induction false} ReplayShape(words: seq<string>, token: string, choices: Choices, w: nat, q: nat)
    returns (i: nat, n: nat)
    requires Chunks(words, token, choices) && w <= |words| && q < |token|
    requires Replay(choices, |token|, w, q).Some?
    ensures w <= i && FirstChunk(words, token, q, i, n, Replay(choices, |token|, w, q).value)
    ensures Replay(choices, |token|, w, q).value >= 1
    decreases |words| - w
  {
    n := choices[w][q];
    if n == 0 {
      i, n := ReplayShape(words, token, choices, w + 1, q);
    } else {
      i := w;
      if q + n < |token| {
        var j, m := ReplayShape(words, token, choices, w + 1, q + n);
        LaterChunk(words, token, q, w, n, j, q + n + m, Replay(choices, |token|, w, q).value);
      }
    }
  }

  lemma LaterChunk(words: seq<string>, token: string, q: nat, i: nat, n: nat, j: nat, e: nat, chunks: nat)
    requires i < j < |words| && q + n < |token| && chunks >= 2
    requires ChunkOf(words[i], token, q, q + n) && ChunkOf(words[j], token, q + n, e)
    ensures FirstChunk(words, token, q, i, n, chunks)
  {
    assert words[j][0] == token[q + n..e][0];
  }

  lemma FirstChunkShows(words: seq<string>, token: string, i: nat, n: nat, chunks: nat)
    requires token != "" && FirstChunk(words, token, 0, i, n, chunks) && chunks >= 1
    ensures chunks == 1 ==> token <= words[i]
    ensures chunks >= 2 ==> MayDecompose(words, token)
  {
    var word := words[i];
    if chunks == 1 {
      assert token[0..n] == token;
    } else {
      assert word[0] == token[0..n][0] == token[0];
      if n >= 2 {
        assert word[1] == token[0..n][1] == token[1];
      }
    }
  }

  /** A token that decomposes is read as a word prefix or stands inside one word. */
  lemma DecomposedIsRead(words: seq<string>, token: string)
    requires token != "" && Decomposes(words, token)
    ensures ReadsAsWordPrefix(words, token) || exists i | 0 <= i < |words| :: token <= words[i]
  {
    ChosenCompletes(words, token);
    ChosenAreChunks(words, token);
    var i, n := ReplayShape(words, token, Chosen(words, token), 0, 0);
    FirstChunkShows(words, token, i, n, Replay(Chosen(words, token), |token|, 0, 0).value);
  }

  // ---------------------------------------------------------------- matching

  predicate KeywordReads(item: Item, token: string) {
    && Contains(KeywordText(item), token)
    && exists field | field in Fields(item) :: Contains(field, token)
  }

  /** Strongest reading of one token. */
  function MatchToken(policy: Policy, item: Item, token: string): (r: Option<Method>) {
    if token == "" then None
    else if token <= item.labelText then Some(Prefix)
    else if ReadsAsWordPrefix(WordTexts(item), token) then Some(WordPrefix)
    else if Contains(item.labelText, token) then Some(Substring)
    else if KeywordReads(item, token) then Some(KeywordHit)
    else if policy == Subsequence && |token| >= 2 && IsSubsequence(item.labelText, token) then Some(Fuzzy)
    else None
  }

  function Weakest(policy: Policy, item: Item, tokens: seq<string>): (r: Option<Method>) {
    if tokens == [] then Some(ExactPrefix)
    else
      var here := MatchToken(policy, item, tokens[0]);
      var rest := Weakest(policy, item, tokens[1..]);
      if here.None? || rest.None? then None
      else if Precedence(here.value) > Precedence(rest.value) then here else rest
  }

  predicate ReproducesLabel(query: string, item: Item) {
    Trim(item.labelText) != "" && Trim(query) == Trim(item.labelText)
  }

  /** How `query` reads `item`, if it does: the method `score_prepared` reports. */
  function MatchItem(policy: Policy, query: string, item: Item): (r: Option<Method>) {
    if Tokens(query) == [] then None
    else if ReproducesLabel(query, item) then Some(ExactPrefix)
    else if Trim(query) <= item.labelText then Some(Prefix)
    else Weakest(policy, item, Tokens(query))
  }

  predicate Matches(policy: Policy, query: string, item: Item) {
    MatchItem(policy, query, item).Some?
  }

  predicate TokenMayMatch(policy: Policy, item: Item, token: string) {
    && token != ""
    && (|| Contains(item.labelText, token)
        || Contains(KeywordText(item), token)
        || (&& IsSubsequence(item.labelText, token)
            && (MayDecompose(WordTexts(item), token) || (policy == Subsequence && |token| >= 2))))
  }

  /** The cheap filter applied when cached positions are revisited. */
  predicate MayMatch(policy: Policy, query: string, item: Item) {
    Tokens(query) != [] && forall t | t in Tokens(query) :: TokenMayMatch(policy, item, t)
  }

  // ---------------------------------------------------------------- narrowing is sound

  lemma WordInLabel(item: Item, i: nat, token: string)
    requires WellFormed(item) && i < |item.words| && token <= WordTexts(item)[i]
    ensures Contains(item.labelText, token)
  {
    var (lo, hi) := item.words[i];
    ContainsSlice(item.labelText, lo, hi);
    ContainsPrefix(item.labelText, token, WordTexts(item)[i]);
  }

  /** The readings of a token, without the order they are tried in. */
  lemma MatchTokenIff(policy: Policy, item: Item, token: string)
    requires WellFormed(item) && token != ""
    ensures MatchToken(policy, item, token).Some? <==>
              || Contains(item.labelText, token)
              || Decomposes(WordTexts(item), token)
              || KeywordReads(item, token)
              || (policy == Subsequence && |token| >= 2 && IsSubsequence(item.labelText, token))
  {
    if token <= item.labelText {
      assert token == item.labelText[0..|token|];
      ContainsSlice(item.labelText, 0, |token|);
    }
    if Decomposes(WordTexts(item), token) { DecomposedIsInLabel(item, token); }
  }

  lemma DecomposedIsInLabel(item: Item, token: string)
    requires WellFormed(item) && token != "" && Decomposes(WordTexts(item), token)
    ensures ReadsAsWordPrefix(WordTexts(item), token) || Contains(item.labelText, token)
  {
    DecomposedIsRead(WordTexts(item), token);
    if !ReadsAsWordPrefix(WordTexts(item), token) {
      var i :| 0 <= i < |item.words| && token <= WordTexts(item)[i];
      WordInLabel(item, i, token);
    }
  }

  lemma SingleCharacterContained(hay: string, needle: string)
    requires |needle| == 1 && IsSubsequence(hay, needle)
    ensures Contains(hay, needle)
    decreases |hay|
  {
    if hay[0] == needle[0] {
      assert hay[0..1] == needle;
      assert OccursAt(hay, needle, 0);
    } else {
      SingleCharacterContained(hay[1..], needle);
      var i: nat :| i <= |hay[1..]| && OccursAt(hay[1..], needle, i);
      assert hay[i + 1..i + 2] == hay[1..][i..i + 1];
      assert OccursAt(hay, needle, i + 1);
    }
  }

  /** Extending a token can only lose a reading, never gain one. */
  lemma MatchTokenPrefixClosed(policy: Policy, item: Item, shorter: string, longer: string)
    requires WellFormed(item) && shorter != "" && shorter <= longer
    requires MatchToken(policy, item, longer).Some?
    ensures MatchToken(policy, item, shorter).Some?
  {
    MatchTokenIff(policy, item, longer);
    MatchTokenIff(policy, item, shorter);
    if Contains(item.labelText, longer) {
      ContainsPrefix(item.labelText, shorter, longer);
    } else if Decomposes(WordTexts(item), longer) {
      GridIffCovers(WordTexts(item), longer, 0, 0);
      CoverPrefix(WordTexts(item), shorter, longer, 0, 0);
      GridIffCovers(WordTexts(item), shorter, 0, 0);
    } else if KeywordReads(item, longer) {
      ContainsPrefix(KeywordText(item), shorter, longer);
      var field :| field in Fields(item) && Contains(field, longer);
      ContainsPrefix(field, shorter, longer);
    } else {
      SubsequencePrefix(item.labelText, shorter, longer);
      if |shorter| == 1 { SingleCharacterContained(item.labelText, shorter); }
    }
  }

  lemma {:induction false} WeakestIff(policy: Policy, item: Item, tokens: seq<string>)
    ensures Weakest(policy, item, tokens).Some? <==>
              forall t | t in tokens :: MatchToken(policy, item, t).Some?
  {
    if tokens != [] {
      WeakestIff(policy, item, tokens[1..]);
      assert tokens == [tokens[0]] + tokens[1..];
    }
  }

  lemma {:induction false} TrimEndContained(s: string)
    ensures TrimEnd(s) <= s
    decreases |s|
  {
    if s != "" && IsWhite(s[|s| - 1]) { TrimEndContained(s[..|s| - 1]); }
  }

  lemma {:induction false} TokensContained(s: string, t: string)
    requires t in Tokens(s)
    ensures Contains(s, t)
    decreases |s|
  {
    if IsWhite(s[0]) {
      TokensContained(s[1..], t);
      assert s[1..] == s[1..|s|];
      ContainsSlice(s, 1, |s|);
      ContainsTransitive(s, s[1..], t);
    } else {
      var n := LeadingRun(s);
      if t == s[..n] {
        assert t == s[0..n];
        ContainsSlice(s, 0, n);
      } else {
        TokensContained(s[n..], t);
        assert s[n..] == s[n..|s|];
        ContainsSlice(s, n, |s|);
        ContainsTransitive(s, s[n..], t);
      }
    }
  }

  lemma {:induction false} TokensTrimStart(s: string)
    ensures Tokens(TrimStart(s)) == Tokens(s)
  {
    if s != "" && IsWhite(s[0]) { TokensTrimStart(s[1..]); }
  }

  lemma {:induction false} TokensDropWhite(s: string, w: char)
    requires IsWhite(w)
    ensures Tokens(s + [w]) == Tokens(s)
    decreases |s|
  {
    if s == "" {
      assert s + [w] == [w];
    } else if IsWhite(s[0]) {
      assert (s + [w])[1..] == s[1..] + [w];
      TokensDropWhite(s[1..], w);
    } else {
      var n := LeadingRun(s);
      assert LeadingRun(s + [w]) == n by {
        assert IsWhite((s + [w])[n]);
      }
      assert (s + [w])[..n] == s[..n] && (s + [w])[n..] == s[n..] + [w];
      TokensDropWhite(s[n..], w);
    }
  }

  lemma {:induction false} TokensTrimEnd(s: string)
    ensures Tokens(TrimEnd(s)) == Tokens(s)
    decreases |s|
  {
    if s != "" && IsWhite(s[|s| - 1]) {
      TokensTrimEnd(s[..|s| - 1]);
      TokensDropWhite(s[..|s| - 1], s[|s| - 1]);
      assert s == s[..|s| - 1] + [s[|s| - 1]];
    }
  }

  lemma {:induction false} TrimStartSuffix(s: string) returns (k: nat)
    ensures k <= |s| && TrimStart(s) == s[k..]
  {
    if s != "" && IsWhite(s[0]) {
      var j := TrimStartSuffix(s[1..]);
      k := j + 1;
    } else {
      k := 0;
    }
  }

  lemma TrimContained(s: string)
    ensures Contains(s, Trim(s)) && Tokens(Trim(s)) == Tokens(s)
  {
    var k := TrimStartSuffix(s);
    TrimEndContained(s[k..]);
    var t := Trim(s);
    assert t == s[k..k + |t|];
    ContainsSlice(s, k, k + |t|);
    TokensTrimStart(s);
    TokensTrimEnd(TrimStart(s));
  }

  /** A query matches exactly when it has a token and each token has a reading:
      the whole-label and phrase readings decide the method, never the match. */
  lemma MatchedIffEveryToken(policy: Policy, query: string, item: Item)
    requires WellFormed(item)
    ensures Matches(policy, query, item) <==>
              Tokens(query) != [] && forall t | t in Tokens(query) :: MatchToken(policy, item, t).Some?
  {
    WeakestIff(policy, item, Tokens(query));
    if Tokens(query) != [] && (ReproducesLabel(query, item) || Trim(query) <= item.labelText) {
      TrimContained(query);
      TrimContained(item.labelText);
      forall t | t in Tokens(query) ensures MatchToken(policy, item, t).Some? {
        TokensContained(Trim(query), t);
        if !ReproducesLabel(query, item) {
          assert Trim(query) == item.labelText[0..|Trim(query)|];
          ContainsSlice(item.labelText, 0, |Trim(query)|);
        }
        ContainsTransitive(item.labelText, Trim(query), t);
        MatchTokenIff(policy, item, t);
      }
    }
  }

  /** Matching is prefix-closed wherever the shorter query has a token. */
  lemma MatchPrefixClosed(policy: Policy, shorter: string, longer: string, item: Item)
    requires WellFormed(item) && shorter <= longer && Tokens(shorter) != []
    requires Matches(policy, longer, item)
    ensures Matches(policy, shorter, item)
  {
    MatchedIffEveryToken(policy, longer, item);
    MatchedIffEveryToken(policy, shorter, item);
    TokensOfPrefix(shorter, longer);
    forall t | t in Tokens(shorter) ensures MatchToken(policy, item, t).Some? {
      var i :| 0 <= i < |Tokens(shorter)| && Tokens(shorter)[i] == t;
      MatchTokenPrefixClosed(policy, item, t, Tokens(longer)[i]);
    }
  }

  /** Narrowing is sound exactly when the earlier query had a token or the
      later one has none either: a blank query matches nothing, yet extending it
      can match. */
  lemma NarrowingSoundIff(policy: Policy, shorter: string, longer: string)
    requires shorter <= longer
    ensures (forall item | WellFormed(item) && Matches(policy, longer, item) :: Matches(policy, shorter, item))
            <==> Tokens(shorter) != [] || Tokens(longer) == []
  {
    if Tokens(shorter) != [] {
      forall item | WellFormed(item) && Matches(policy, longer, item) ensures Matches(policy, shorter, item) {
        MatchPrefixClosed(policy, shorter, longer, item);
      }
    } else if Tokens(longer) != [] {
      var item := Item("", "", longer, [], "", [], Application, 0);
      TrimContained(longer);
      MatchedIffEveryToken(policy, longer, item);
      forall t | t in Tokens(longer) ensures MatchToken(policy, item, t).Some? {
        TokensContained(longer, t);
        MatchTokenIff(policy, item, t);
      }
      assert Matches(policy, longer, item) && !Matches(policy, shorter, item);
    }
  }

  /** Where the words from `w` on begin in the label. */
  function WordsStart(item: Item, w: nat): (n: nat) {
    if w < |item.words| then item.words[w].0 else |item.labelText|
  }

  /** Chunks taken left to right over ascending words spell a subsequence of the label. */
  lemma {:induction false} CoverIsSubsequence(item: Item, token: string, w: nat, q: nat)
    requires WellFormed(item) && w <= |item.words| && q <= |token|
    requires Covers(WordTexts(item), token, w, q)
    ensures WordsStart(item, w) <= |item.labelText|
    ensures IsSubsequence(item.labelText[WordsStart(item, w)..], token[q..])
    decreases |item.words| - w
  {
    var text := item.labelText;
    if q == |token| {
      assert token[q..] == "";
    } else {
      var lo, next := WordsStart(item, w), WordsStart(item, w + 1);
      if Covers(WordTexts(item), token, w + 1, q) {
        CoverIsSubsequence(item, token, w + 1, q);
        assert text[lo..][next - lo..] == text[next..];
        SubsequenceWiden(text[lo..], token[q..], next - lo);
      } else {
        var word := WordTexts(item)[w];
        var e: nat :| e <= |token| && ChunkOf(word, token, q, e) && Covers(WordTexts(item), token, w + 1, e);
        CoverIsSubsequence(item, token, w + 1, e);
        ChunkThenRest(text, token, q, e, lo, item.words[w].1, next);
      }
    }
  }

  lemma ChunkThenRest(text: string, token: string, q: nat, e: nat, lo: nat, hi: nat, next: nat)
    requires lo <= hi <= next <= |text| && ChunkOf(text[lo..hi], token, q, e)
    requires IsSubsequence(text[next..], token[e..])
    ensures IsSubsequence(text[lo..], token[q..])
  {
    var chunk := token[q..e];
    var mid := lo + |chunk|;
    assert text[lo..mid] == text[lo..hi][..|chunk|] == chunk;
    assert text[mid..][next - mid..] == text[next..];
    SubsequenceWiden(text[mid..], token[e..], next - mid);
    SubsequenceChunk(chunk, text[mid..], token[e..]);
    assert text[lo..] == chunk + text[mid..] && token[q..] == chunk + token[e..];
  }

  /** The warm filter never discards an item the matcher would accept. */
  lemma MatchImpliesMayMatch(policy: Policy, query: string, item: Item)
    requires WellFormed(item) && Matches(policy, query, item)
    ensures MayMatch(policy, query, item)
  {
    MatchedIffEveryToken(policy, query, item);
    forall t | t in Tokens(query) ensures TokenMayMatch(policy, item, t) {
      MatchTokenIff(policy, item, t);
      if !Contains(item.labelText, t) && Decomposes(WordTexts(item), t) {
        GridIffCovers(WordTexts(item), t, 0, 0);
        CoverIsSubsequence(item, t, 0, 0);
        SubsequenceWiden(item.labelText, t[0..], WordsStart(item, 0));
        assert t[0..] == t;
        DecomposedIsRead(WordTexts(item), t);
        if !ReadsAsWordPrefix(WordTexts(item), t) {
          var i :| 0 <= i < |item.words| && t <= WordTexts(item)[i];
          WordInLabel(item, i, t);
        }
      }
    }
  }
}
