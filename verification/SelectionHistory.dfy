/** The selection history file of crates/crikey-app/src/selection_history_store.rs:
    its text, its strict parser and the size budget a save is trimmed to.

    The two kinds of record differ only in their table of fields, so one writer and
    one parser take the table. Names of keys are parameters: what is proved holds
    for any distinct names, and `FORMAT` is the file's own choice.
 */
module SelectionHistories {
  import opened Integers
  import opened Text
  import opened JsonText
  import opened JsonCursor
  import opened Sorting

  // ---------------------------------------------------------------- records

  datatype Selection = Selection(plugin: string, item: string, frequency: u32, lastSelectedSecs: Option<u64>)

  datatype Affinity = Affinity(plugin: string, item: string, query: string, count: u32)

  datatype Snapshot = Snapshot(selections: seq<Selection>, affinities: seq<Affinity>)

  const EMPTY: Snapshot := Snapshot([], [])

  /** What a field holds: text, a 32-bit count, or a second count that may be absent. */
  datatype Kind = Name | Count | Stamp

  datatype Value = NameValue(text: string) | CountValue(count: u32) | StampValue(secs: Option<u64>)

  datatype Field = Field(key: string, kind: Kind)

  predicate Holds(kind: Kind, value: Value) {
    match kind
    case Name => value.NameValue?
    case Count => value.CountValue?
    case Stamp => value.StampValue?
  }

  type Row = seq<Value>

  predicate Conforms(fields: seq<Field>, row: Row) {
    |row| == |fields| && forall i | 0 <= i < |row| :: Holds(fields[i].kind, row[i])
  }

  ghost predicate Distinct(fields: seq<Field>) {
    forall i, j | 0 <= i < j < |fields| :: fields[i].key != fields[j].key
  }

  const SELECTION_KINDS: seq<Kind> := [Name, Name, Count, Stamp]
  const AFFINITY_KINDS: seq<Kind> := [Name, Name, Name, Count]

  predicate OfKinds(fields: seq<Field>, kinds: seq<Kind>) {
    |fields| == |kinds| && forall i | 0 <= i < |fields| :: fields[i].kind == kinds[i]
  }

  function SelectionRow(r: Selection): (row: Row) {
    [NameValue(r.plugin), NameValue(r.item), CountValue(r.frequency), StampValue(r.lastSelectedSecs)]
  }

  function AffinityRow(r: Affinity): (row: Row) {
    [NameValue(r.plugin), NameValue(r.item), NameValue(r.query), CountValue(r.count)]
  }

  function TextOf(v: Value): (s: string) { if v.NameValue? then v.text else "" }

  function CountOf(v: Value): (n: u32) { if v.CountValue? then v.count else 0 }

  function SecsOf(v: Value): (n: Option<u64>) { if v.StampValue? then v.secs else None }

  function SelectionOf(row: Row): (r: Selection) {
    if |row| != 4 then Selection("", "", 0, None)
    else Selection(TextOf(row[0]), TextOf(row[1]), CountOf(row[2]), SecsOf(row[3]))
  }

  function AffinityOf(row: Row): (r: Affinity) {
    if |row| != 4 then Affinity("", "", "", 0)
    else Affinity(TextOf(row[0]), TextOf(row[1]), TextOf(row[2]), CountOf(row[3]))
  }

  // ---------------------------------------------------------------- one value, one row

  function WriteValue(v: Value): (s: string) {
    match v
    case NameValue(text) => Quoted(text)
    case CountValue(n) => Decimal(n)
    case StampValue(None) => "null"
    case StampValue(Some(n)) => Decimal(n)
  }

  function ReadValue(kind: Kind, s: string): (r: Read<Value>)
    ensures r.Got? ==> |r.rest| < |s| && Holds(kind, r.value)
  {
    match kind
    case Name =>
      var text := ReadString(s);
      if text.Failed? then Failed else Got(NameValue(text.value), text.rest)
    case Count =>
      var n := ReadU32(s);
      if n.Failed? then Failed else Got(CountValue(n.value), n.rest)
    case Stamp =>
      var nothing := ReadNull(s);
      if nothing.Got? then Got(StampValue(None), nothing.rest)
      else
        var n := ReadU64(s);
        if n.Failed? then Failed else Got(StampValue(Some(n.value)), n.rest)
  }

  function WriteFields(fields: seq<Field>, row: Row): (s: string) {
    if fields == [] || row == [] then ""
    else
      Quoted(fields[0].key) + ":" + WriteValue(row[0])
      + (if |fields| == 1 then "" else "," + WriteFields(fields[1..], row[1..]))
  }

  /** `push_selection` and `push_affinity`: one object, its fields in table order. */
  function WriteRow(fields: seq<Field>, row: Row): (s: string) {
    "{" + WriteFields(fields, row) + "}"
  }

  function Find(fields: seq<Field>, key: string): (i: nat)
    ensures i <= |fields|
    ensures i < |fields| ==> fields[i].key == key
    ensures forall j | 0 <= j < i :: fields[j].key != key
  {
    if fields == [] || fields[0].key == key then 0 else 1 + Find(fields[1..], key)
  }

  /** One known key not seen before, with its value. */
  function ReadField(fields: seq<Field>, s: string, seen: seq<Option<Value>>): (r: Read<seq<Option<Value>>>)
    requires |seen| == |fields|
    ensures r.Got? ==> |r.rest| < |s| && |r.value| == |fields|
  {
    var key := ReadKey(s);
    if key.Failed? then Failed
    else
      var i := Find(fields, key.value);
      if i == |fields| || seen[i].Some? then Failed
      else
        var value := ReadValue(fields[i].kind, key.rest);
        if value.Failed? then Failed else Got(seen[i := Some(value.value)], value.rest)
  }

  function ReadFields(fields: seq<Field>, s: string, seen: seq<Option<Value>>): (r: Read<seq<Option<Value>>>)
    requires |seen| == |fields|
    ensures r.Got? ==> |r.rest| < |s| && |r.value| == |fields|
    decreases |s|
  {
    var field := ReadField(fields, s, seen);
    if field.Failed? then Failed
    else
      var comma := Punctuation(field.rest, ',');
      if comma.Got? then ReadFields(fields, comma.rest, field.value)
      else Got(field.value, SkipSpace(field.rest))
  }

  function Unseen(n: nat): (r: seq<Option<Value>>) {
    seq(n, _ => None)
  }

  predicate Complete(seen: seq<Option<Value>>) {
    forall i | 0 <= i < |seen| :: seen[i].Some?
  }

  function Values(seen: seq<Option<Value>>): (row: Row)
    requires Complete(seen)
    ensures |row| == |seen| && forall i | 0 <= i < |seen| :: seen[i] == Some(row[i])
  {
    seq(|seen|, i requires 0 <= i < |seen| => seen[i].value)
  }

  /** `parse_selection` and `parse_query_affinity`: every field once, in any order. */
  function ReadRow(fields: seq<Field>, s: string): (r: Read<Row>)
    ensures r.Got? ==> |r.rest| < |s| && |r.value| == |fields|
  {
    var open := Punctuation(s, '{');
    if open.Failed? then Failed
    else
      var seen := ReadFields(fields, open.rest, Unseen(|fields|));
      if seen.Failed? then Failed
      else
        var close := Punctuation(seen.rest, '}');
        if close.Failed? || !Complete(seen.value) then Failed else Got(Values(seen.value), close.rest)
  }

  // ---------------------------------------------------------------- rows read back

  /** Not a digit, so a number before it ends. */
  predicate Ends(rest: string) {
    rest != "" && !IsDigit(rest[0])
  }

  lemma ValueRoundTrip(kind: Kind, v: Value, rest: string)
    requires Holds(kind, v) && Ends(rest)
    ensures ReadValue(kind, WriteValue(v) + rest) == Got(v, rest)
  {
    match v
    case NameValue(text) => StringRoundTrip(text, rest);
    case CountValue(n) => NumberRoundTrip(n, rest);
    case StampValue(None) => NullRoundTrip(rest);
    case StampValue(Some(n)) => NumberRoundTrip(n, rest);
  }

  lemma NullRoundTrip(rest: string)
    ensures ReadNull("null" + rest) == Got((), rest)
  {
    var s := "null" + rest;
    assert s[0] == 'n' && s[4..] == rest;
  }

  /** The first `n` values seen. */
  function Seen(row: Row, n: nat): (seen: seq<Option<Value>>) {
    seq(|row|, i requires 0 <= i < |row| => if i < n then Some(row[i]) else None)
  }

  lemma SeenMore(row: Row, n: nat)
    requires n < |row|
    ensures Seen(row, n)[n := Some(row[n])] == Seen(row, n + 1) && Seen(row, n)[n].None?
  {
  }

  lemma FieldRoundTrip(fields: seq<Field>, row: Row, n: nat, rest: string)
    requires Distinct(fields) && Conforms(fields, row) && n < |fields| && Ends(rest)
    ensures ReadField(fields, Quoted(fields[n].key) + ":" + WriteValue(row[n]) + rest, Seen(row, n))
              == Got(Seen(row, n + 1), rest)
  {
    var value := WriteValue(row[n]) + rest;
    var s := Quoted(fields[n].key) + ":" + WriteValue(row[n]) + rest;
    assert s == Quoted(fields[n].key) + ":" + value;
    KeyRoundTrip(fields[n].key, value);
    ValueRoundTrip(fields[n].kind, row[n], rest);
    SeenMore(row, n);
    FieldReads(fields, s, value, n, Seen(row, n), row[n], rest);
  }

  lemma FieldReads(fields: seq<Field>, s: string, value: string, n: nat, seen: seq<Option<Value>>, v: Value,
                   rest: string)
    requires Distinct(fields) && n < |fields| == |seen| && seen[n].None?
    requires ReadKey(s) == Got(fields[n].key, value) && ReadValue(fields[n].kind, value) == Got(v, rest)
    ensures ReadField(fields, s, seen) == Got(seen[n := Some(v)], rest)
  {
    assert Find(fields, fields[n].key) == n;
  }

  lemma FieldsText(fields: seq<Field>, row: Row, n: nat, end: string)
    requires |row| == |fields| && n < |fields|
    ensures WriteFields(fields[n..], row[n..]) + end ==
            Quoted(fields[n].key) + ":" + WriteValue(row[n])
            + (if n + 1 == |fields| then end else [','] + (WriteFields(fields[n + 1..], row[n + 1..]) + end))
  {
    assert fields[n..][1..] == fields[n + 1..] && row[n..][1..] == row[n + 1..];
  }

  lemma FieldsStep(fields: seq<Field>, s: string, seen: seq<Option<Value>>, now: seq<Option<Value>>, more: string)
    requires |seen| == |now| == |fields| && ReadField(fields, s, seen) == Got(now, [','] + more)
    ensures ReadFields(fields, s, seen) == ReadFields(fields, more, now)
  {
    PunctuationHere(',', more);
  }

  lemma FieldsStop(fields: seq<Field>, s: string, seen: seq<Option<Value>>, now: seq<Option<Value>>, rest: string)
    requires |seen| == |now| == |fields| && ReadField(fields, s, seen) == Got(now, ['}'] + rest)
    ensures ReadFields(fields, s, seen) == Got(now, ['}'] + rest)
  {
    PunctuationHere('}', rest);
  }

  lemma {:induction false} FieldsRoundTrip(fields: seq<Field>, row: Row, n: nat, rest: string)
    requires Distinct(fields) && Conforms(fields, row) && n < |fields|
    ensures ReadFields(fields, WriteFields(fields[n..], row[n..]) + (['}'] + rest), Seen(row, n))
              == Got(Seen(row, |row|), ['}'] + rest)
    decreases |fields| - n
  {
    var end := ['}'] + rest;
    var s := WriteFields(fields[n..], row[n..]) + end;
    FieldsText(fields, row, n, end);
    if n + 1 == |fields| {
      FieldRoundTrip(fields, row, n, end);
      FieldsStop(fields, s, Seen(row, n), Seen(row, n + 1), rest);
    } else {
      var more := WriteFields(fields[n + 1..], row[n + 1..]) + end;
      FieldRoundTrip(fields, row, n, [','] + more);
      FieldsStep(fields, s, Seen(row, n), Seen(row, n + 1), more);
      FieldsRoundTrip(fields, row, n + 1, rest);
    }
  }

  /** Every record reads back, whatever follows it. */
  lemma RowRoundTrip(fields: seq<Field>, row: Row, rest: string)
    requires Distinct(fields) && Conforms(fields, row) && fields != []
    ensures ReadRow(fields, WriteRow(fields, row) + rest) == Got(row, rest)
  {
    var inner := WriteFields(fields, row) + (['}'] + rest);
    assert WriteRow(fields, row) + rest == ['{'] + inner;
    PunctuationHere('{', inner);
    assert fields[0..] == fields && row[0..] == row && Seen(row, 0) == Unseen(|row|);
    FieldsRoundTrip(fields, row, 0, rest);
    PunctuationHere('}', rest);
    assert Values(Seen(row, |row|)) == row;
  }

  // ---------------------------------------------------------------- rows are balanced

  lemma ValueTakes(kind: Kind, s: string)
    requires ReadValue(kind, s).Got?
    ensures Takes(s, ReadValue(kind, s).rest)
  {
    match kind
    case Name => StringTakes(s);
    case Count => NumberTakes(s);
    case Stamp => if ReadNull(s).Got? { NullTakes(s); } else { NumberTakes(s); }
  }

  lemma FieldTakes(fields: seq<Field>, s: string, seen: seq<Option<Value>>)
    requires |seen| == |fields| && ReadField(fields, s, seen).Got?
    ensures Takes(s, ReadField(fields, s, seen).rest)
  {
    var key := ReadKey(s);
    KeyTakes(s);
    ValueTakes(fields[Find(fields, key.value)].kind, key.rest);
    TakesThen(s, key.rest, ReadField(fields, s, seen).rest);
  }

  lemma {:induction false} FieldsTake(fields: seq<Field>, s: string, seen: seq<Option<Value>>)
    requires |seen| == |fields| && ReadFields(fields, s, seen).Got?
    ensures Takes(s, ReadFields(fields, s, seen).rest)
    decreases |s|
  {
    var field := ReadField(fields, s, seen);
    FieldTakes(fields, s, seen);
    var comma := Punctuation(field.rest, ',');
    var rest := ReadFields(fields, s, seen).rest;
    if comma.Got? {
      NeutralPunctuationTakes(field.rest, ',');
      FieldsTake(fields, comma.rest, field.value);
      TakesThen(field.rest, comma.rest, rest);
    } else {
      var space := SkipSpaceTakes(field.rest);
    }
    TakesThen(s, field.rest, rest);
  }

  lemma RowTakes(fields: seq<Field>, s: string)
    requires ReadRow(fields, s).Got?
    ensures Takes(s, ReadRow(fields, s).rest)
  {
    var inner := Punctuation(s, '{').rest;
    FieldsTake(fields, inner, Unseen(|fields|));
    BracketTakes(s, '{', inner, ReadFields(fields, inner, Unseen(|fields|)).rest, '}', ReadRow(fields, s).rest);
  }

  // ---------------------------------------------------------------- the file

  /** Everything the file spells out besides the records. */
  datatype Format = Format(magic: string, version: u32, selections: string, affinities: string,
                           selectionFields: seq<Field>, affinityFields: seq<Field>)

  const FORMAT: Format := Format("crikey_selection_history", 1, "selections", "query_affinities",
    [Field("plugin", Name), Field("item", Name), Field("frequency", Count), Field("last_selected_secs", Stamp)],
    [Field("plugin", Name), Field("item", Name), Field("query", Name), Field("count", Count)])

  ghost predicate WellFormed(f: Format) {
    && f.selections != f.affinities
    && Distinct(f.selectionFields) && OfKinds(f.selectionFields, SELECTION_KINDS)
    && Distinct(f.affinityFields) && OfKinds(f.affinityFields, AFFINITY_KINDS)
  }

  function RowWriter<T>(fields: seq<Field>, encode: T -> Row): (write: T -> string) {
    v => WriteRow(fields, encode(v))
  }

  function Decoded<T>(decode: Row -> T, r: Read<Row>): (d: Read<T>) {
    if r.Failed? then Failed else Got(decode(r.value), r.rest)
  }

  function RowReader<T>(fields: seq<Field>, decode: Row -> T): (read: string -> Read<T>)
    ensures Progresses(read)
  {
    s => Decoded(decode, ReadRow(fields, s))
  }

  function SelectionWriter(f: Format): (write: Selection -> string) { RowWriter(f.selectionFields, SelectionRow) }

  function AffinityWriter(f: Format): (write: Affinity -> string) { RowWriter(f.affinityFields, AffinityRow) }

  function SelectionReader(f: Format): (read: string -> Read<Selection>)
    ensures Progresses(read)
  {
    RowReader(f.selectionFields, SelectionOf)
  }

  function AffinityReader(f: Format): (read: string -> Read<Affinity>)
    ensures Progresses(read)
  {
    RowReader(f.affinityFields, AffinityOf)
  }

  function SerializeWith(f: Format, h: Snapshot): (text: string) {
    "{" + Quoted(f.magic) + ":" + Decimal(f.version)
    + "," + Quoted(f.selections) + ":" + WriteArray(SelectionWriter(f), h.selections)
    + "," + Quoted(f.affinities) + ":" + WriteArray(AffinityWriter(f), h.affinities) + "}"
  }

  function Serialize(h: Snapshot): (text: string) {
    SerializeWith(FORMAT, h)
  }

  // ---------------------------------------------------------------- the literal text

  ghost predicate PlainFields(fields: seq<Field>) {
    forall i | 0 <= i < |fields| :: Plain(fields[i].key)
  }

  ghost predicate PlainFormat(f: Format) {
    && Plain(f.magic) && Plain(f.selections) && Plain(f.affinities)
    && PlainFields(f.selectionFields) && PlainFields(f.affinityFields)
  }

  /** The fields of a record under their bare keys. */
  function BareFields(fields: seq<Field>, row: Row): (s: string) {
    if fields == [] || row == [] then ""
    else
      Bare(fields[0].key) + ":" + WriteValue(row[0])
      + (if |fields| == 1 then "" else "," + BareFields(fields[1..], row[1..]))
  }

  function BareWriter<T>(fields: seq<Field>, encode: T -> Row): (write: T -> string) {
    v => "{" + BareFields(fields, encode(v)) + "}"
  }

  function BareText(f: Format, h: Snapshot): (text: string) {
    "{" + Bare(f.magic) + ":" + Decimal(f.version)
    + "," + Bare(f.selections) + ":" + WriteArray(BareWriter(f.selectionFields, SelectionRow), h.selections)
    + "," + Bare(f.affinities) + ":" + WriteArray(BareWriter(f.affinityFields, AffinityRow), h.affinities) + "}"
  }

  lemma {:induction false} FieldsBare(fields: seq<Field>, row: Row)
    requires PlainFields(fields)
    ensures WriteFields(fields, row) == BareFields(fields, row)
    decreases |fields|
  {
    if fields != [] && row != [] {
      assert Plain(fields[0].key);
      PlainQuoted(fields[0].key);
      FieldsBare(fields[1..], row[1..]);
    }
  }

  lemma {:induction false} ItemsBare<T>(fields: seq<Field>, encode: T -> Row, records: seq<T>)
    requires PlainFields(fields)
    ensures JoinItems(RowWriter(fields, encode), records) == JoinItems(BareWriter(fields, encode), records)
  {
    if records != [] {
      FieldsBare(fields, encode(records[0]));
      ItemsBare(fields, encode, records[1..]);
    }
  }

  lemma WrittenBare(f: Format, h: Snapshot)
    requires PlainFormat(f)
    ensures SerializeWith(f, h) == BareText(f, h)
  {
    PlainQuoted(f.magic);
    PlainQuoted(f.selections);
    PlainQuoted(f.affinities);
    ItemsBare(f.selectionFields, SelectionRow, h.selections);
    ItemsBare(f.affinityFields, AffinityRow, h.affinities);
  }

  lemma NamesArePlain()
    ensures PlainFormat(FORMAT)
  {
    SelectionNamesPlain();
    AffinityNamesPlain();
  }

  lemma SelectionNamesPlain()
    ensures PlainFields(FORMAT.selectionFields)
  {
  }

  lemma AffinityNamesPlain()
    ensures PlainFields(FORMAT.affinityFields)
  {
  }

  /** On disk every key is the source's own text, with nothing escaped. */
  lemma HistoryText(h: Snapshot)
    ensures Serialize(h) == BareText(FORMAT, h)
  {
    NamesArePlain();
    WrittenBare(FORMAT, h);
  }

  datatype Sections = Sections(selections: Option<seq<Selection>>, affinities: Option<seq<Affinity>>)

  function ReadSection(f: Format, s: string, seen: Sections): (r: Read<Sections>)
    ensures r.Got? ==> |r.rest| < |s|
  {
    var key := ReadKey(s);
    if key.Failed? then Failed
    else if key.value == f.selections && seen.selections.None? then
      var records := ReadArray(SelectionReader(f), key.rest);
      if records.Failed? then Failed else Got(seen.(selections := Some(records.value)), records.rest)
    else if key.value == f.affinities && seen.affinities.None? then
      var records := ReadArray(AffinityReader(f), key.rest);
      if records.Failed? then Failed else Got(seen.(affinities := Some(records.value)), records.rest)
    else Failed
  }

  /** As many further sections as commas announce. */
  function ReadSections(f: Format, s: string, seen: Sections): (r: Read<Sections>)
    decreases |s|
  {
    var comma := Punctuation(s, ',');
    if comma.Failed? then Got(seen, SkipSpace(s))
    else
      var section := ReadSection(f, comma.rest, seen);
      if section.Failed? then Failed else ReadSections(f, section.rest, section.value)
  }

  /** The magic and the version, which must come first. */
  function ReadHeader(f: Format, s: string): (r: Read<()>)
    ensures r.Got? ==> |r.rest| < |s|
  {
    var key := ReadKey(s);
    if key.Failed? || key.value != f.magic then Failed
    else
      var version := ReadU32(key.rest);
      if version.Failed? || version.value != f.version then Failed else Got((), version.rest)
  }

  function ReadEnvelope(f: Format, text: string): (r: Read<Sections>) {
    var open := Punctuation(text, '{');
    if open.Failed? then Failed
    else
      var header := ReadHeader(f, open.rest);
      if header.Failed? then Failed
      else
        var sections := ReadSections(f, header.rest, Sections(None, None));
        if sections.Failed? then Failed
        else
          var close := Punctuation(sections.rest, '}');
          if close.Failed? then Failed else Got(sections.value, close.rest)
  }

  function ParseWith(f: Format, text: string): (r: Option<Snapshot>) {
    var whole := ReadEnvelope(f, text);
    if whole.Failed? || SkipSpace(whole.rest) != "" then None
    else
      var Sections(selections, affinities) := whole.value;
      if selections.None? || affinities.None? then None else Some(Snapshot(selections.value, affinities.value))
  }

  /** `parse`: the snapshot a text is, if it is one. */
  function Parse(text: string): (r: Option<Snapshot>) {
    ParseWith(FORMAT, text)
  }

  // ---------------------------------------------------------------- the file reads back

  predicate Any<T>(v: T) { true }

  lemma RowsInverse<T(!new)>(fields: seq<Field>, encode: T -> Row, decode: Row -> T)
    requires Distinct(fields) && fields != []
    requires forall v :: Conforms(fields, encode(v)) && decode(encode(v)) == v
    ensures Inverse(RowWriter(fields, encode), RowReader(fields, decode), Any)
  {
    var write, read := RowWriter(fields, encode), RowReader(fields, decode);
    forall v, rest: string
      ensures read(write(v) + rest) == Got(v, rest) { RowInverse(fields, encode, decode, v, rest); }
    forall v ensures write(v) != "" && write(v)[0] == '{' { RowOpens(fields, encode, v); }
  }

  lemma RowInverse<T>(fields: seq<Field>, encode: T -> Row, decode: Row -> T, v: T, rest: string)
    requires Distinct(fields) && fields != [] && Conforms(fields, encode(v)) && decode(encode(v)) == v
    ensures RowReader(fields, decode)(RowWriter(fields, encode)(v) + rest) == Got(v, rest)
  {
    RowRoundTrip(fields, encode(v), rest);
  }

  lemma RowOpens<T>(fields: seq<Field>, encode: T -> Row, v: T)
    ensures RowWriter(fields, encode)(v) != "" && RowWriter(fields, encode)(v)[0] == '{'
  {
  }

  lemma SelectionsRoundTrip(f: Format, records: seq<Selection>, rest: string)
    requires WellFormed(f)
    ensures ReadArray(SelectionReader(f), WriteArray(SelectionWriter(f), records) + rest) == Got(records, rest)
  {
    RowsInverse(f.selectionFields, SelectionRow, SelectionOf);
    ArrayRoundTrip(SelectionWriter(f), SelectionReader(f), Any, records, rest);
  }

  lemma AffinitiesRoundTrip(f: Format, records: seq<Affinity>, rest: string)
    requires WellFormed(f)
    ensures ReadArray(AffinityReader(f), WriteArray(AffinityWriter(f), records) + rest) == Got(records, rest)
  {
    RowsInverse(f.affinityFields, AffinityRow, AffinityOf);
    ArrayRoundTrip(AffinityWriter(f), AffinityReader(f), Any, records, rest);
  }

  /** A section's text. */
  function Section(key: string, records: string, rest: string): (s: string) {
    Quoted(key) + ":" + (records + rest)
  }

  lemma SelectionSection(f: Format, records: seq<Selection>, rest: string)
    requires WellFormed(f)
    ensures ReadSection(f, Section(f.selections, WriteArray(SelectionWriter(f), records), rest), Sections(None, None))
            == Got(Sections(Some(records), None), rest)
  {
    KeyRoundTrip(f.selections, WriteArray(SelectionWriter(f), records) + rest);
    SelectionsRoundTrip(f, records, rest);
  }

  lemma AffinitySection(f: Format, had: seq<Selection>, records: seq<Affinity>, rest: string)
    requires WellFormed(f)
    ensures var text := Section(f.affinities, WriteArray(AffinityWriter(f), records), rest);
            ReadSection(f, text, Sections(Some(had), None))
            == Got(Sections(Some(had), Some(records)), rest)
  {
    KeyRoundTrip(f.affinities, WriteArray(AffinityWriter(f), records) + rest);
    AffinitiesRoundTrip(f, records, rest);
  }

  function SectionsText(f: Format, h: Snapshot): (text: string) {
    Section(f.selections, WriteArray(SelectionWriter(f), h.selections),
      [','] + Section(f.affinities, WriteArray(AffinityWriter(f), h.affinities), "}"))
  }

  lemma Regroup(magic: string, version: string, key1: string, list1: string, key2: string, list2: string)
    ensures "{" + magic + ":" + version + "," + key1 + ":" + list1 + "," + key2 + ":" + list2 + "}"
            == ['{'] + (magic + ":"
              + (version + ([','] + (key1 + ":" + (list1 + ([','] + (key2 + ":" + (list2 + "}"))))))))
  {
    var tail := key2 + ":" + (list2 + "}");
    assert key2 + ":" + list2 + "}" == tail;
    var middle := key1 + ":" + (list1 + ([','] + tail));
    assert key1 + ":" + list1 + "," + key2 + ":" + list2 + "}" == middle;
    assert "{" + magic + ":" + version + "," + key1 + ":" + list1 + "," + key2 + ":" + list2 + "}"
        == "{" + magic + ":" + version + "," + (key1 + ":" + list1 + "," + key2 + ":" + list2 + "}");
  }

  lemma SectionsRead(f: Format, h: Snapshot)
    requires WellFormed(f)
    ensures ReadSections(f, [','] + SectionsText(f, h), Sections(None, None))
              == Got(Sections(Some(h.selections), Some(h.affinities)), "}")
  {
    var second := Section(f.affinities, WriteArray(AffinityWriter(f), h.affinities), "}");
    PunctuationHere(',', SectionsText(f, h));
    SelectionSection(f, h.selections, [','] + second);
    PunctuationHere(',', second);
    AffinitySection(f, h.selections, h.affinities, "}");
    PunctuationHere('}', "");
    assert ['}'] + "" == "}";
    assert ReadSections(f, [','] + second, Sections(Some(h.selections), None))
             == Got(Sections(Some(h.selections), Some(h.affinities)), "}");
  }

  lemma HeaderReads(f: Format, rest: string)
    requires Ends(rest)
    ensures ReadHeader(f, Quoted(f.magic) + ":" + (Decimal(f.version) + rest)) == Got((), rest)
  {
    KeyRoundTrip(f.magic, Decimal(f.version) + rest);
    NumberRoundTrip(f.version, rest);
  }

  lemma RoundTripWith(f: Format, h: Snapshot)
    requires WellFormed(f)
    ensures ParseWith(f, SerializeWith(f, h)) == Some(h)
  {
    var body := [','] + SectionsText(f, h);
    var inner := Quoted(f.magic) + ":" + (Decimal(f.version) + body);
    Regroup(Quoted(f.magic), Decimal(f.version), Quoted(f.selections), WriteArray(SelectionWriter(f), h.selections),
      Quoted(f.affinities), WriteArray(AffinityWriter(f), h.affinities));
    assert SerializeWith(f, h) == ['{'] + inner;
    PunctuationHere('{', inner);
    HeaderReads(f, body);
    SectionsRead(f, h);
    PunctuationHere('}', "");
    assert ['}'] + "" == "}";
    EnvelopeReads(f, ['{'] + inner, inner, body, h);
  }

  lemma EnvelopeReads(f: Format, text: string, inner: string, body: string, h: Snapshot)
    requires Punctuation(text, '{') == Got((), inner) && ReadHeader(f, inner) == Got((), body)
    requires ReadSections(f, body, Sections(None, None)) == Got(Sections(Some(h.selections), Some(h.affinities)), "}")
    requires Punctuation("}", '}') == Got((), "")
    ensures ParseWith(f, text) == Some(h)
  {
  }

  lemma FormatIsWellFormed()
    ensures WellFormed(FORMAT)
  {
    var keys := ["plugin", "item", "frequency", "last_selected_secs", "query", "count", "selections",
      "query_affinities"];
    assert |keys[0]| == 6 && |keys[1]| == 4 && |keys[2]| == 9 && |keys[3]| == 18 && |keys[4]| == 5 && |keys[5]| == 5;
    assert keys[4][0] == 'q' && keys[5][0] == 'c' && |keys[6]| == 10 && |keys[7]| == 16;
  }

  /** Every snapshot, of any length, reads back exactly. */
  lemma RoundTrip(h: Snapshot)
    ensures Parse(Serialize(h)) == Some(h)
  {
    FormatIsWellFormed();
    RoundTripWith(FORMAT, h);
  }

  // ---------------------------------------------------------------- torn writes

  lemma RowReaderTakes<T>(fields: seq<Field>, decode: Row -> T)
    ensures ReaderTakes(RowReader(fields, decode))
  {
    var read := RowReader(fields, decode);
    forall s | read(s).Got? ensures Takes(s, read(s).rest) { RowTakes(fields, s); }
  }

  lemma SectionTakes(f: Format, s: string, seen: Sections)
    requires ReadSection(f, s, seen).Got?
    ensures Takes(s, ReadSection(f, s, seen).rest)
  {
    var key := ReadKey(s);
    KeyTakes(s);
    if key.value == f.selections && seen.selections.None? {
      RowReaderTakes(f.selectionFields, SelectionOf);
      ArrayTakes(SelectionReader(f), key.rest);
    } else {
      RowReaderTakes(f.affinityFields, AffinityOf);
      ArrayTakes(AffinityReader(f), key.rest);
    }
    TakesThen(s, key.rest, ReadSection(f, s, seen).rest);
  }

  lemma {:induction false} SectionsTake(f: Format, s: string, seen: Sections)
    requires ReadSections(f, s, seen).Got?
    ensures Takes(s, ReadSections(f, s, seen).rest)
    decreases |s|
  {
    var comma := Punctuation(s, ',');
    if comma.Failed? {
      var space := SkipSpaceTakes(s);
    } else {
      var section := ReadSection(f, comma.rest, seen);
      var rest := ReadSections(f, s, seen).rest;
      NeutralPunctuationTakes(s, ',');
      SectionTakes(f, comma.rest, seen);
      SectionsTake(f, section.rest, section.value);
      TakesThen(comma.rest, section.rest, rest);
      TakesThen(s, comma.rest, rest);
    }
  }

  lemma HeaderTakes(f: Format, s: string)
    requires ReadHeader(f, s).Got?
    ensures Takes(s, ReadHeader(f, s).rest)
  {
    KeyTakes(s);
    NumberTakes(ReadKey(s).rest);
    TakesThen(s, ReadKey(s).rest, ReadHeader(f, s).rest);
  }

  lemma ParsedIsDocument(f: Format, text: string) returns (lead: string, body: string, trail: string)
    requires ParseWith(f, text).Some?
    ensures Document(text, lead, body, trail)
  {
    var inner := Punctuation(text, '{').rest;
    var mid := ReadHeader(f, inner).rest;
    var last := ReadSections(f, mid, Sections(None, None)).rest;
    HeaderTakes(f, inner);
    SectionsTake(f, mid, Sections(None, None));
    TakesThen(inner, mid, last);
    lead, body := DocumentFrom(text, inner, last, ReadEnvelope(f, text).rest);
    trail := ReadEnvelope(f, text).rest;
  }

  lemma ParsePrefixFreeWith(f: Format, shorter: string, longer: string)
    requires ParseWith(f, shorter).Some? && ParseWith(f, longer).Some? && shorter <= longer
    ensures AllSpace(longer[|shorter|..])
  {
    var l1, b1, t1 := ParsedIsDocument(f, shorter);
    var l2, b2, t2 := ParsedIsDocument(f, longer);
    DocumentsPrefixFree(shorter, longer, l1, b1, t1, l2, b2, t2);
  }

  /** Of two texts that both parse, neither is a proper prefix of the other save for
      trailing white space. */
  lemma ParsePrefixFree(shorter: string, longer: string)
    requires Parse(shorter).Some? && Parse(longer).Some? && shorter <= longer
    ensures AllSpace(longer[|shorter|..])
  {
    ParsePrefixFreeWith(FORMAT, shorter, longer);
  }

  lemma TornWith(f: Format, h: Snapshot, cut: nat)
    requires WellFormed(f) && cut < |SerializeWith(f, h)|
    ensures ParseWith(f, SerializeWith(f, h)[..cut]) == None
  {
    var text := SerializeWith(f, h);
    RoundTripWith(f, h);
    if ParseWith(f, text[..cut]).Some? {
      ParsePrefixFreeWith(f, text[..cut], text);
      EndsInBrace(text, cut);
    }
  }

  /** A history cut short anywhere never parses. */
  lemma TornWriteDetected(h: Snapshot, cut: nat)
    requires cut < |Serialize(h)|
    ensures Parse(Serialize(h)[..cut]) == None
  {
    FormatIsWellFormed();
    TornWith(FORMAT, h, cut);
  }

  // ---------------------------------------------------------------- the size budget

  /** Lexicographic, shorter first, as tuples of strings compare. */
  predicate KeyLess(a: seq<string>, b: seq<string>) {
    if b == [] then false
    else if a == [] then true
    else if a[0] != b[0] then LexLess(a[0], b[0])
    else KeyLess(a[1..], b[1..])
  }

  lemma {:induction false} KeyTotal(a: seq<string>, b: seq<string>)
    ensures KeyLess(a, b) || a == b || KeyLess(b, a)
    ensures !(KeyLess(a, b) && KeyLess(b, a))
  {
    if a != [] && b != [] {
      LexTotal(a[0], b[0]);
      if a[0] == b[0] {
        KeyTotal(a[1..], b[1..]);
        if a[1..] == b[1..] { assert a == [a[0]] + a[1..] == b; }
      }
    }
  }

  lemma {:induction false} KeyTransitive(a: seq<string>, b: seq<string>, c: seq<string>)
    requires KeyLess(a, b) && KeyLess(b, c)
    ensures KeyLess(a, c)
  {
    if a != [] {
      if a[0] == b[0] && b[0] == c[0] {
        KeyTransitive(a[1..], b[1..], c[1..]);
      } else if a[0] != b[0] && b[0] != c[0] {
        LexTotal(a[0], b[0]);
        LexTransitive(a[0], b[0], c[0]);
      }
    }
  }

  /** How often a record was used, and the key the store orders it by. */
  datatype Ranking<!T> = Ranking(uses: T -> nat, key: T -> seq<string>)

  datatype Rankings = Rankings(selections: Ranking<Selection>, affinities: Ranking<Affinity>)

  /** The store's own: by plugin and item, and by query, plugin and item. */
  function StoreRankings(): (ranks: Rankings) {
    Rankings(
      Ranking((s: Selection) => s.frequency, (s: Selection) => [s.plugin, s.item]),
      Ranking((a: Affinity) => a.count, (a: Affinity) => [a.query, a.plugin, a.item]))
  }

  function ByKey<T>(r: Ranking<T>): (less: (T, T) -> bool) {
    (a, b) => KeyLess(r.key(a), r.key(b))
  }

  function ByUse<T>(r: Ranking<T>): (less: (T, T) -> bool) {
    (a, b) => r.uses(a) > r.uses(b) || (r.uses(a) == r.uses(b) && KeyLess(r.key(a), r.key(b)))
  }

  lemma ByKeyOrders<T(!new)>(r: Ranking<T>)
    ensures Orders(ByKey(r))
  {
    var less := ByKey(r);
    forall a, b | less(a, b) ensures !less(b, a) { KeyTotal(r.key(a), r.key(b)); }
    forall a, b, c | less(a, b) && !less(c, b) ensures less(a, c) {
      KeyTotal(r.key(b), r.key(c));
      if KeyLess(r.key(b), r.key(c)) { KeyTransitive(r.key(a), r.key(b), r.key(c)); }
    }
  }

  lemma ByUseOrders<T(!new)>(r: Ranking<T>)
    ensures Orders(ByUse(r))
  {
    var less := ByUse(r);
    forall a, b | less(a, b) ensures !less(b, a) { KeyTotal(r.key(a), r.key(b)); }
    forall a, b, c | less(a, b) && !less(c, b) ensures less(a, c) {
      KeyTotal(r.key(b), r.key(c));
      if KeyLess(r.key(a), r.key(b)) && KeyLess(r.key(b), r.key(c)) { KeyTransitive(r.key(a), r.key(b), r.key(c)); }
    }
  }

  /** Bytes one more record adds after `kept` others. */
  function CostOf<T>(write: T -> string, record: T, kept: nat): (n: nat) {
    Utf8Length(write(record)) + if kept > 0 then 1 else 0
  }

  function Cost<T>(write: T -> string, records: seq<T>, kept: nat): (n: nat) {
    if records == [] then 0 else CostOf(write, records[0], kept) + Cost(write, records[1..], kept + 1)
  }

  /** How many leading records the trimming loop keeps. */
  function KeptCount<T>(write: T -> string, records: seq<T>, used: nat, budget: nat, kept: nat): (n: nat)
    ensures n <= |records|
  {
    if records == [] then 0
    else
      var cost := CostOf(write, records[0], kept);
      if used + cost > budget then 0 else 1 + KeptCount(write, records[1..], used + cost, budget, kept + 1)
  }

  function Kept<T>(write: T -> string, r: Ranking<T>, records: seq<T>, used: nat, budget: nat): (kept: seq<T>) {
    var ranked := Sort(ByUse(r), records);
    ranked[..KeptCount(write, ranked, used, budget, 0)]
  }

  /** Bytes the file takes with both arrays empty. */
  function Envelope(f: Format): (n: nat) {
    Utf8Length(SerializeWith(f, EMPTY))
  }

  function KeptSelections(f: Format, ranks: Rankings, h: Snapshot, budget: nat): (kept: seq<Selection>) {
    Kept(SelectionWriter(f), ranks.selections, h.selections, Envelope(f), budget)
  }

  /** The bytes counted when the first loop ends. */
  function UsedBySelections(f: Format, ranks: Rankings, h: Snapshot, budget: nat): (n: nat) {
    Envelope(f) + Cost(SelectionWriter(f), KeptSelections(f, ranks, h, budget), 0)
  }

  function KeptAffinities(f: Format, ranks: Rankings, h: Snapshot, budget: nat): (kept: seq<Affinity>) {
    Kept(AffinityWriter(f), ranks.affinities, h.affinities, UsedBySelections(f, ranks, h, budget), budget)
  }

  /** The bytes counted when both loops have ended. */
  function Used(f: Format, ranks: Rankings, h: Snapshot, budget: nat): (n: nat) {
    UsedBySelections(f, ranks, h, budget) + Cost(AffinityWriter(f), KeptAffinities(f, ranks, h, budget), 0)
  }

  /** `within_budget`. */
  function WithinBudget(f: Format, ranks: Rankings, h: Snapshot, budget: nat): (r: Snapshot) {
    InKeyOrder(ranks, KeptSelections(f, ranks, h, budget), KeptAffinities(f, ranks, h, budget))
  }

  /** What was kept, back in the store's own order. */
  function InKeyOrder(ranks: Rankings, selections: seq<Selection>, affinities: seq<Affinity>): (h: Snapshot) {
    Snapshot(Sort(ByKey(ranks.selections), selections), Sort(ByKey(ranks.affinities), affinities))
  }

  lemma PrefixTail<T>(s: seq<T>, n: nat)
    requires 0 < n <= |s|
    ensures s[..n][1..] == s[1..][..n - 1] && s[..n][0] == s[0]
  {
  }

  /** The loop keeps the longest run that fits, no less. */
  lemma {:induction false} KeptIsLongest<T>(write: T -> string, records: seq<T>, used: nat, budget: nat, kept: nat)
    ensures var n := KeptCount(write, records, used, budget, kept);
            && (n > 0 ==> used + Cost(write, records[..n], kept) <= budget)
            && (n < |records| ==> used + Cost(write, records[..n + 1], kept) > budget)
  {
    var n := KeptCount(write, records, used, budget, kept);
    if records != [] {
      var cost := CostOf(write, records[0], kept);
      if n == 0 {
        assert records[..1][1..] == [];
      } else {
        KeptIsLongest(write, records[1..], used + cost, budget, kept + 1);
        PrefixTail(records, n);
        if n < |records| { PrefixTail(records, n + 1); }
      }
    }
  }

  lemma {:induction false} AllKept<T>(write: T -> string, records: seq<T>, used: nat, budget: nat, kept: nat)
    requires used + Cost(write, records, kept) <= budget
    ensures KeptCount(write, records, used, budget, kept) == |records|
  {
    if records != [] {
      AllKept(write, records[1..], used + CostOf(write, records[0], kept), budget, kept + 1);
    }
  }

  /** The counted cost is the exact size of the written list. */
  lemma {:induction false} CostIsExact<T>(write: T -> string, records: seq<T>, kept: nat)
    ensures Cost(write, records, kept)
            == Utf8Length(JoinItems(write, records)) + if kept > 0 && records != [] then 1 else 0
  {
    if records != [] {
      CostIsExact(write, records[1..], kept + 1);
      if |records| == 1 {
        assert JoinItems(write, records) == write(records[0]) + "";
        assert write(records[0]) + "" == write(records[0]);
      } else {
        Utf8LengthConcat(write(records[0]), "," + JoinItems(write, records[1..]));
        Utf8LengthConcat(",", JoinItems(write, records[1..]));
      }
    }
  }

  function Bulk<T>(write: T -> string, records: seq<T>): (n: nat) {
    if records == [] then 0 else Utf8Length(write(records[0])) + Bulk(write, records[1..])
  }

  lemma {:induction false} CostIsBulk<T>(write: T -> string, records: seq<T>, kept: nat)
    ensures Cost(write, records, kept) == Bulk(write, records) + |records| - if kept == 0 && records != [] then 1 else 0
  {
    if records != [] { CostIsBulk(write, records[1..], kept + 1); }
  }

  lemma {:induction false} InsertBulk<T>(write: T -> string, less: (T, T) -> bool, x: T, s: seq<T>)
    ensures Bulk(write, Insert(less, x, s)) == Utf8Length(write(x)) + Bulk(write, s) && |Insert(less, x, s)| == |s| + 1
  {
    if s == [] || !less(s[0], x) {
      assert ([x] + s)[1..] == s;
    } else {
      InsertBulk(write, less, x, s[1..]);
      assert Insert(less, x, s)[1..] == Insert(less, x, s[1..]);
    }
  }

  lemma {:induction false} SortBulk<T>(write: T -> string, less: (T, T) -> bool, s: seq<T>)
    ensures Bulk(write, Sort(less, s)) == Bulk(write, s) && |Sort(less, s)| == |s|
  {
    if s != [] {
      SortBulk(write, less, s[1..]);
      InsertBulk(write, less, s[0], Sort(less, s[1..]));
    }
  }

  /** Sorting never changes how long the written list is. */
  lemma SortCost<T>(write: T -> string, less: (T, T) -> bool, s: seq<T>)
    ensures Cost(write, Sort(less, s), 0) == Cost(write, s, 0)
  {
    SortBulk(write, less, s);
    CostIsBulk(write, s, 0);
    CostIsBulk(write, Sort(less, s), 0);
  }

  lemma ArrayBytes<T>(write: T -> string, records: seq<T>)
    ensures Utf8Length(WriteArray(write, records)) == 2 + Cost(write, records, 0)
  {
    CostIsExact(write, records, 0);
    Utf8LengthConcat("[" + JoinItems(write, records), "]");
    Utf8LengthConcat("[", JoinItems(write, records));
  }

  lemma Framed(a: string, b: string, c: string, d: string, e: string)
    ensures Utf8Length(a + b + c + d + e)
              == Utf8Length(a) + Utf8Length(b) + Utf8Length(c) + Utf8Length(d) + Utf8Length(e)
  {
    Utf8LengthConcat(a + b + c + d, e);
    Utf8LengthConcat(a + b + c, d);
    Utf8LengthConcat(a + b, c);
    Utf8LengthConcat(a, b);
  }

  lemma FileBytes(f: Format, h: Snapshot)
    ensures Utf8Length(SerializeWith(f, h)) ==
            Envelope(f) + Cost(SelectionWriter(f), h.selections, 0) + Cost(AffinityWriter(f), h.affinities, 0)
  {
    var head := "{" + Quoted(f.magic) + ":" + Decimal(f.version) + "," + Quoted(f.selections) + ":";
    var mid := "," + Quoted(f.affinities) + ":";
    FileParts(f, h, head, mid);
    FileParts(f, EMPTY, head, mid);
  }

  lemma FileParts(f: Format, h: Snapshot, head: string, mid: string)
    requires head == "{" + Quoted(f.magic) + ":" + Decimal(f.version) + "," + Quoted(f.selections) + ":"
    requires mid == "," + Quoted(f.affinities) + ":"
    ensures Utf8Length(SerializeWith(f, h)) ==
            Utf8Length(head) + 2 + Cost(SelectionWriter(f), h.selections, 0) + Utf8Length(mid) + 2
              + Cost(AffinityWriter(f), h.affinities, 0) + Utf8Length("}")
  {
    var one, two := WriteArray(SelectionWriter(f), h.selections), WriteArray(AffinityWriter(f), h.affinities);
    ArrayBytes(SelectionWriter(f), h.selections);
    ArrayBytes(AffinityWriter(f), h.affinities);
    Framed(head, one, mid, two, "}");
    Gathered(head, one, Quoted(f.affinities), two);
  }

  lemma Gathered(head: string, one: string, key: string, two: string)
    ensures head + one + "," + key + ":" + two + "}" == head + one + ("," + key + ":") + two + "}"
  {
    assert head + one + "," + key + ":" == head + one + ("," + key + ":");
  }

  lemma KeptCost<T>(write: T -> string, r: Ranking<T>, records: seq<T>, used: nat, budget: nat)
    ensures var kept := Kept(write, r, records, used, budget);
            && Cost(write, Sort(ByKey(r), kept), 0) == Cost(write, kept, 0)
            && (used <= budget ==> used + Cost(write, kept, 0) <= budget)
  {
    SortCost(write, ByKey(r), Kept(write, r, records, used, budget));
    KeptIsLongest(write, Sort(ByUse(r), records), used, budget, 0);
  }

  /** The running count is the exact size of the trimmed file. */
  lemma TrimmedSize(f: Format, ranks: Rankings, h: Snapshot, budget: nat)
    ensures Utf8Length(SerializeWith(f, WithinBudget(f, ranks, h, budget))) == Used(f, ranks, h, budget)
  {
    TrimmedBytes(f, ranks, KeptSelections(f, ranks, h, budget), KeptAffinities(f, ranks, h, budget));
  }

  /** The running count never exceeds a budget that the empty file fits. */
  lemma UsedWithinBudget(f: Format, ranks: Rankings, h: Snapshot, budget: nat)
    requires Envelope(f) <= budget
    ensures Used(f, ranks, h, budget) <= budget
  {
    KeptCost(SelectionWriter(f), ranks.selections, h.selections, Envelope(f), budget);
    KeptCost(AffinityWriter(f), ranks.affinities, h.affinities, UsedBySelections(f, ranks, h, budget), budget);
  }

  lemma TrimmedBytes(f: Format, ranks: Rankings, selections: seq<Selection>, affinities: seq<Affinity>)
    ensures Utf8Length(SerializeWith(f, InKeyOrder(ranks, selections, affinities))) ==
            Envelope(f) + Cost(SelectionWriter(f), selections, 0) + Cost(AffinityWriter(f), affinities, 0)
  {
    FileBytes(f, InKeyOrder(ranks, selections, affinities));
    SortCost(SelectionWriter(f), ByKey(ranks.selections), selections);
    SortCost(AffinityWriter(f), ByKey(ranks.affinities), affinities);
  }

  /** What is kept: the records of a prefix of the most-used order, no record lost from
      that prefix, put back in key order. */
  lemma KeptMostUsed<T(!new)>(write: T -> string, r: Ranking<T>, records: seq<T>, used: nat, budget: nat)
    ensures var ranked := Sort(ByUse(r), records);
            var kept := Kept(write, r, records, used, budget);
            && Ordered(ByUse(r), ranked) && multiset(ranked) == multiset(records)
            && kept <= ranked
            && Ordered(ByKey(r), Sort(ByKey(r), kept)) && multiset(Sort(ByKey(r), kept)) == multiset(kept)
            && (|kept| < |ranked| ==> used + Cost(write, ranked[..|kept| + 1], 0) > budget)
  {
    RankedByUse(r, records);
    BackByKey(r, Kept(write, r, records, used, budget));
    KeptIsLongest(write, Sort(ByUse(r), records), used, budget, 0);
  }

  lemma RankedByUse<T(!new)>(r: Ranking<T>, records: seq<T>)
    ensures Ordered(ByUse(r), Sort(ByUse(r), records)) && multiset(Sort(ByUse(r), records)) == multiset(records)
  {
    ByUseOrders(r);
    SortOrders(ByUse(r), records);
    SortKeeps(ByUse(r), records);
  }

  lemma BackByKey<T(!new)>(r: Ranking<T>, kept: seq<T>)
    ensures Ordered(ByKey(r), Sort(ByKey(r), kept)) && multiset(Sort(ByKey(r), kept)) == multiset(kept)
  {
    ByKeyOrders(r);
    SortOrders(ByKey(r), kept);
    SortKeeps(ByKey(r), kept);
  }

  lemma KeptWhole<T(!new)>(write: T -> string, r: Ranking<T>, records: seq<T>, used: nat, budget: nat)
    requires StrictlyOrdered(ByKey(r), records) && used + Cost(write, records, 0) <= budget
    ensures Sort(ByKey(r), Kept(write, r, records, used, budget)) == records
    ensures Cost(write, Kept(write, r, records, used, budget), 0) == Cost(write, records, 0)
  {
    var ranked := Sort(ByUse(r), records);
    SortCost(write, ByUse(r), records);
    AllKept(write, ranked, used, budget, 0);
    assert ranked[..|ranked|] == ranked;
    SortKeeps(ByUse(r), records);
    ByKeyOrders(r);
    SortRestores(ByKey(r), ranked, records);
  }

  /** A snapshot in strict key order that fits is left alone. */
  lemma FittingIsUnchanged(f: Format, ranks: Rankings, h: Snapshot, budget: nat)
    requires StrictlyOrdered(ByKey(ranks.selections), h.selections)
    requires StrictlyOrdered(ByKey(ranks.affinities), h.affinities)
    requires Utf8Length(SerializeWith(f, h)) <= budget
    ensures WithinBudget(f, ranks, h, budget) == h
  {
    FileBytes(f, h);
    var one := Envelope(f) + Cost(SelectionWriter(f), h.selections, 0);
    assert Sort(ByKey(ranks.selections), KeptSelections(f, ranks, h, budget)) == h.selections
           && UsedBySelections(f, ranks, h, budget) == one by {
      KeptWhole(SelectionWriter(f), ranks.selections, h.selections, Envelope(f), budget);
    }
    assert Sort(ByKey(ranks.affinities), KeptAffinities(f, ranks, h, budget)) == h.affinities by {
      KeptWhole(AffinityWriter(f), ranks.affinities, h.affinities, one, budget);
    }
  }

  // ---------------------------------------------------------------- load after save

  const MAX_BYTES: nat := 4 * 1024 * 1024

  function LoadWith(f: Format, disk: Option<string>): (h: Snapshot) {
    if disk.None? || Utf8Length(disk.value) > MAX_BYTES then EMPTY
    else
      var parsed := ParseWith(f, disk.value);
      if parsed.None? then EMPTY else parsed.value
  }

  /** `load`: the snapshot on disk, or an empty one. */
  function Load(disk: Option<string>): (h: Snapshot) {
    LoadWith(FORMAT, disk)
  }

  /** The text a save commits. */
  function SavedWith(f: Format, ranks: Rankings, h: Snapshot): (text: string) {
    SerializeWith(f, WithinBudget(f, ranks, h, MAX_BYTES))
  }

  lemma LoadAfterSaveWith(f: Format, ranks: Rankings, h: Snapshot)
    requires WellFormed(f) && Envelope(f) <= MAX_BYTES
    ensures LoadWith(f, Some(SavedWith(f, ranks, h))) == WithinBudget(f, ranks, h, MAX_BYTES)
  {
    TrimmedSize(f, ranks, h, MAX_BYTES);
    UsedWithinBudget(f, ranks, h, MAX_BYTES);
    RoundTripWith(f, WithinBudget(f, ranks, h, MAX_BYTES));
  }

  lemma {:induction false} EscapedBytes(s: string)
    ensures Utf8Length(EscapeAll(s)) <= 6 * |s|
  {
    if s != "" {
      EscapedBytes(s[1..]);
      Utf8LengthConcat(Escape(s[0]), EscapeAll(s[1..]));
      SixBytes(s[0]);
    }
  }

  lemma SixBytes(c: char)
    ensures Utf8Length(Escape(c)) <= 6
  {
    var s := Escape(c);
    if |s| == 1 {
      assert s[1..] == "";
    } else {
      assert forall i | 0 <= i < |s| :: s[i] < '\U{80}';
      PlainBytes(s);
    }
  }

  lemma {:induction false} PlainBytes(s: string)
    requires forall i | 0 <= i < |s| :: s[i] < '\U{80}'
    ensures Utf8Length(s) == |s|
  {
    if s != "" { PlainBytes(s[1..]); }
  }

  lemma QuotedBytes(s: string)
    ensures Utf8Length(Quoted(s)) <= 2 + 6 * |s|
  {
    EscapedBytes(s);
    Utf8LengthConcat("\"" + EscapeAll(s), "\"");
    Utf8LengthConcat("\"", EscapeAll(s));
  }

  /** The empty file is small when the names in it are. */
  lemma EnvelopeBytes(f: Format)
    requires f.version < 10
    ensures Envelope(f) <= 20 + 6 * (|f.magic| + |f.selections| + |f.affinities|)
  {
    var head := "{" + Quoted(f.magic) + ":" + Decimal(f.version) + "," + Quoted(f.selections) + ":";
    var mid := "," + Quoted(f.affinities) + ":";
    FileParts(f, EMPTY, head, mid);
    HeadBytes(f.magic, Decimal(f.version), f.selections);
    MidBytes(f.affinities);
    DigitBytes(f.version);
  }

  lemma HeadBytes(magic: string, version: string, key: string)
    ensures Utf8Length("{" + Quoted(magic) + ":" + version + "," + Quoted(key) + ":")
            <= 8 + 6 * (|magic| + |key|) + Utf8Length(version)
  {
    QuotedBytes(magic);
    QuotedBytes(key);
    var open := "{" + Quoted(magic) + ":" + version + ",";
    Framed("{", Quoted(magic), ":", version, ",");
    Framed(open, Quoted(key), ":", "", "");
    assert open + Quoted(key) + ":" + "" + "" == open + Quoted(key) + ":";
  }

  lemma MidBytes(key: string)
    ensures Utf8Length("," + Quoted(key) + ":") <= 4 + 6 * |key|
  {
    QuotedBytes(key);
    Framed(",", Quoted(key), ":", "", "");
    assert "," + Quoted(key) + ":" + "" + "" == "," + Quoted(key) + ":";
  }

  lemma DigitBytes(n: nat)
    requires n < 10
    ensures Utf8Length(Decimal(n)) == 1
  {
    PlainBytes(Decimal(n));
  }

  /** What the next process loads is the trimmed snapshot, never a silently empty one. */
  lemma LoadAfterSave(h: Snapshot)
    ensures Load(Some(SavedWith(FORMAT, StoreRankings(), h))) == WithinBudget(FORMAT, StoreRankings(), h, MAX_BYTES)
  {
    FormatIsWellFormed();
    EnvelopeBytes(FORMAT);
    LoadAfterSaveWith(FORMAT, StoreRankings(), h);
  }

  // ---------------------------------------------------------------- the loops

  /** One trimming loop: keeps records while the count stays in budget. Only under the
      largest budget of all can the count itself overflow. */
  method KeepRanked<T>(write: T -> string, ranked: seq<T>, start: u64, budget: u64)
    returns (n: nat, used: u64, overflow: bool)
    ensures n <= |ranked|
    ensures overflow <==> budget == U64_MAX && start + Cost(write, ranked, 0) > U64_MAX
    ensures !overflow ==> n == KeptCount(write, ranked, start, budget, 0) && used == start + Cost(write, ranked[..n], 0)
    ensures !overflow && budget == U64_MAX ==> n == |ranked|
  {
    n, used, overflow := 0, start, false;
    while n < |ranked|
      invariant n <= |ranked| && used == start + Cost(write, ranked[..n], 0)
      invariant KeptCount(write, ranked, start, budget, 0) == n + KeptCount(write, ranked[n..], used, budget, n)
    {
      var cost := CostOf(write, ranked[n], n);
      assert ranked[n..][0] == ranked[n] && ranked[n..][1..] == ranked[n + 1..];
      CostNext(write, ranked, n);
      if Saturated(used + cost) > budget { return; }
      if used + cost > U64_MAX {
        CostPrefix(write, ranked, n + 1, 0);
        overflow := true;
        return;
      }
      used, n := used + cost, n + 1;
    }
    assert ranked[n..] == [] && ranked[..n] == ranked;
  }

  lemma CostNext<T>(write: T -> string, ranked: seq<T>, n: nat)
    requires n < |ranked|
    ensures Cost(write, ranked[..n + 1], 0) == Cost(write, ranked[..n], 0) + CostOf(write, ranked[n], n)
  {
    assert ranked[..n + 1] == ranked[..n] + [ranked[n]];
    CostOneMore(write, ranked[..n], ranked[n], 0);
  }

  /** Most-used first, then as many as fit. */
  method KeepMostUsed<T>(write: T -> string, r: Ranking<T>, records: seq<T>, start: u64, budget: u64)
    returns (kept: seq<T>, used: u64, overflow: bool)
    ensures overflow <==> budget == U64_MAX && start + Cost(write, records, 0) > U64_MAX
    ensures !overflow ==> kept == Kept(write, r, records, start, budget) && used == start + Cost(write, kept, 0)
    ensures !overflow && budget == U64_MAX ==> used == start + Cost(write, records, 0)
  {
    var ranked := Sort(ByUse(r), records);
    SortCost(write, ByUse(r), records);
    var n;
    n, used, overflow := KeepRanked(write, ranked, start, budget);
    kept := ranked[..n];
    assert n == |ranked| ==> kept == ranked;
  }

  lemma {:induction false} CostPrefix<T>(write: T -> string, records: seq<T>, n: nat, kept: nat)
    requires n <= |records|
    ensures Cost(write, records[..n], kept) <= Cost(write, records, kept)
  {
    if n > 0 {
      PrefixTail(records, n);
      CostPrefix(write, records[1..], n - 1, kept + 1);
    }
  }

  lemma {:induction false} CostOneMore<T>(write: T -> string, records: seq<T>, last: T, kept: nat)
    ensures Cost(write, records + [last], kept) == Cost(write, records, kept) + CostOf(write, last, kept + |records|)
  {
    if records == [] {
      assert ([] + [last])[1..] == [];
      assert [] + [last] == [last];
    } else {
      CostOneMore(write, records[1..], last, kept + 1);
      assert (records + [last])[1..] == records[1..] + [last];
    }
  }

  /** `within_budget`; `used` is the count its loops end with, which overflows exactly when
      the budget is the largest there is and the whole file exceeds it. */
  method TrimToBudget(f: Format, ranks: Rankings, h: Snapshot, budget: u64)
    returns (r: Snapshot, used: u64, overflow: bool)
    requires Envelope(f) <= U64_MAX
    ensures overflow <==> budget == U64_MAX && Utf8Length(SerializeWith(f, h)) > U64_MAX
    ensures !overflow ==> r == WithinBudget(f, ranks, h, budget) && used == Utf8Length(SerializeWith(f, r))
    ensures !overflow && Envelope(f) <= budget ==> used <= budget
  {
    FileBytes(f, h);
    r := EMPTY;
    var selections, affinities;
    selections, affinities, used, overflow := KeepBoth(f, ranks, h, budget);
    if overflow { return; }
    r := InKeyOrder(ranks, selections, affinities);
    TrimmedTo(f, ranks, h, budget, selections, affinities);
  }

  /** Both loops, the second starting from the count the first ends with. */
  method KeepBoth(f: Format, ranks: Rankings, h: Snapshot, budget: u64)
    returns (selections: seq<Selection>, affinities: seq<Affinity>, used: u64, overflow: bool)
    requires Envelope(f) <= U64_MAX
    ensures overflow <==>
              && budget == U64_MAX
              && Envelope(f) + Cost(SelectionWriter(f), h.selections, 0) + Cost(AffinityWriter(f), h.affinities, 0)
                   > U64_MAX
    ensures !overflow ==>
              && selections == KeptSelections(f, ranks, h, budget) && affinities == KeptAffinities(f, ranks, h, budget)
              && used == Used(f, ranks, h, budget)
  {
    affinities := [];
    selections, used, overflow := KeepMostUsed(SelectionWriter(f), ranks.selections, h.selections, Envelope(f), budget);
    if overflow { return; }
    affinities, used, overflow := KeepMostUsed(AffinityWriter(f), ranks.affinities, h.affinities, used, budget);
  }

  lemma TrimmedTo(f: Format, ranks: Rankings, h: Snapshot, budget: nat, selections: seq<Selection>,
                  affinities: seq<Affinity>)
    requires selections == KeptSelections(f, ranks, h, budget) && affinities == KeptAffinities(f, ranks, h, budget)
    ensures var r := InKeyOrder(ranks, selections, affinities);
            && r == WithinBudget(f, ranks, h, budget)
            && Utf8Length(SerializeWith(f, r)) == Used(f, ranks, h, budget)
            && (Envelope(f) <= budget ==> Used(f, ranks, h, budget) <= budget)
  {
    TrimmedSize(f, ranks, h, budget);
    if Envelope(f) <= budget { UsedWithinBudget(f, ranks, h, budget); }
  }

  /** The loop that writes one array. */
  method PushRecords<T>(head: string, write: T -> string, records: seq<T>) returns (out: string)
    ensures out == head + JoinItems(write, records)
  {
    out := head;
    for n := 0 to |records|
      invariant out == head + JoinItems(write, records[..n])
    {
      JoinOneMore(write, records, n);
      if n > 0 { out := out + ","; }
      out := out + write(records[n]);
    }
    assert records[..|records|] == records;
  }

  /** `serialize`. */
  method SerializeSnapshot(f: Format, h: Snapshot) returns (out: string)
    ensures out == SerializeWith(f, h)
  {
    var head := "{" + Quoted(f.magic) + ":" + Decimal(f.version) + "," + Quoted(f.selections) + ":";
    var mid := "," + Quoted(f.affinities) + ":";
    out := PushRecords(head + "[", SelectionWriter(f), h.selections);
    out := PushRecords(out + "]" + mid + "[", AffinityWriter(f), h.affinities);
    out := out + "]}";
    Bracketed(head, JoinItems(SelectionWriter(f), h.selections), mid, JoinItems(AffinityWriter(f), h.affinities));
    Gathered(head, WriteArray(SelectionWriter(f), h.selections), Quoted(f.affinities),
      WriteArray(AffinityWriter(f), h.affinities));
  }

  lemma Bracketed(head: string, one: string, mid: string, two: string)
    ensures head + "[" + one + "]" + mid + "[" + two + "]}" == head + ("[" + one + "]") + mid + ("[" + two + "]") + "}"
  {
    assert head + "[" + one + "]" == head + ("[" + one + "]");
    assert "]}" == "]" + "}";
  }

  // ---------------------------------------------------------------- parsing with the cursor

  method ParseValue(cursor: Cursor, kind: Kind) returns (r: Option<Value>)
    requires cursor.Valid()
    modifies cursor
    ensures cursor.Valid() && (r.Some? <==> ReadValue(kind, old(cursor.Rest())).Got?)
    ensures r.Some? ==> ReadValue(kind, old(cursor.Rest())) == Got(r.value, cursor.Rest())
  {
    match kind {
      case Name =>
        var text := cursor.String();
        r := if text.None? then None else Some(NameValue(text.value));
      case Count =>
        var n := cursor.Number();
        r := if n.None? then None else Some(CountValue(n.value));
      case Stamp =>
        var nothing := cursor.Null();
        if nothing { return Some(StampValue(None)); }
        var n := cursor.NumberU64();
        r := if n.None? then None else Some(StampValue(Some(n.value)));
    }
  }

  method ParseField(cursor: Cursor, fields: seq<Field>, seen: seq<Option<Value>>)
    returns (r: Option<seq<Option<Value>>>)
    requires cursor.Valid() && |seen| == |fields|
    modifies cursor
    ensures cursor.Valid() && (r.Some? <==> ReadField(fields, old(cursor.Rest()), seen).Got?)
    ensures r.Some? ==> ReadField(fields, old(cursor.Rest()), seen) == Got(r.value, cursor.Rest())
  {
    var key := cursor.String();
    if key.None? { return None; }
    var ok := cursor.Consume(':');
    if !ok { return None; }
    var i := Find(fields, key.value);
    if i == |fields| || seen[i].Some? { return None; }
    var value := ParseValue(cursor, fields[i].kind);
    if value.None? { return None; }
    r := Some(seen[i := Some(value.value)]);
  }

  /** The loop of `parse_selection` and `parse_query_affinity`. */
  method ParseRow(cursor: Cursor, fields: seq<Field>) returns (r: Option<Row>)
    requires cursor.Valid()
    modifies cursor
    ensures cursor.Valid() && (r.Some? <==> ReadRow(fields, old(cursor.Rest())).Got?)
    ensures r.Some? ==> ReadRow(fields, old(cursor.Rest())) == Got(r.value, cursor.Rest())
  {
    var ok := cursor.Consume('{');
    if !ok { return None; }
    ghost var start := cursor.Rest();
    var seen, more := Unseen(|fields|), true;
    while more
      invariant cursor.Valid() && |seen| == |fields|
      invariant ReadFields(fields, start, Unseen(|fields|)) ==
                  if more then ReadFields(fields, cursor.Rest(), seen) else Got(seen, cursor.Rest())
      decreases more, |cursor.Rest()|
    {
      var field := ParseField(cursor, fields, seen);
      if field.None? { return None; }
      seen := field.value;
      more := cursor.Consume(',');
    }
    ok := cursor.Consume('}');
    if !ok || !Complete(seen) { return None; }
    r := Some(Values(seen));
  }

  /** `parse_selections` and `parse_query_affinities`. */
  method ParseRows<T>(cursor: Cursor, fields: seq<Field>, decode: Row -> T) returns (r: Option<seq<T>>)
    requires cursor.Valid()
    modifies cursor
    ensures cursor.Valid() && (r.Some? <==> ReadArray(RowReader(fields, decode), old(cursor.Rest())).Got?)
    ensures r.Some? ==> ReadArray(RowReader(fields, decode), old(cursor.Rest())) == Got(r.value, cursor.Rest())
  {
    var ok := cursor.Consume('[');
    if !ok { return None; }
    ok := cursor.Consume(']');
    if ok { return Some([]); }
    ghost var read := RowReader(fields, decode);
    ghost var items := cursor.Rest();
    var values, more := [], true;
    PrependNoItems(ReadItems(read, items));
    while more
      invariant cursor.Valid()
      invariant more ==> ReadItems(read, items) == PrependAll(values, ReadItems(read, cursor.Rest()))
      invariant !more ==> ReadItems(read, items) == Got(values, cursor.Rest())
      decreases more, |cursor.Rest()|
    {
      ghost var here := cursor.Rest();
      var row := ParseRow(cursor, fields);
      if row.None? { return None; }
      more := cursor.Consume(',');
      ghost var was := values;
      values := values + [decode(row.value)];
      if more {
        ItemStep(read, was, here, decode(row.value), cursor.Rest());
      }
    }
    ok := cursor.Consume(']');
    if !ok { return None; }
    r := Some(values);
  }

  method ParseSection(cursor: Cursor, f: Format, seen: Sections) returns (r: Option<Sections>)
    requires cursor.Valid()
    modifies cursor
    ensures cursor.Valid() && (r.Some? <==> ReadSection(f, old(cursor.Rest()), seen).Got?)
    ensures r.Some? ==> ReadSection(f, old(cursor.Rest()), seen) == Got(r.value, cursor.Rest())
  {
    var key := cursor.String();
    if key.None? { return None; }
    var ok := cursor.Consume(':');
    if !ok { return None; }
    if key.value == f.selections && seen.selections.None? {
      var records := ParseRows(cursor, f.selectionFields, SelectionOf);
      if records.None? { return None; }
      r := Some(seen.(selections := records));
    } else if key.value == f.affinities && seen.affinities.None? {
      var records := ParseRows(cursor, f.affinityFields, AffinityOf);
      if records.None? { return None; }
      r := Some(seen.(affinities := records));
    } else {
      return None;
    }
  }

  method ParseHeader(cursor: Cursor, f: Format) returns (ok: bool)
    requires cursor.Valid()
    modifies cursor
    ensures cursor.Valid() && (ok <==> ReadHeader(f, old(cursor.Rest())).Got?)
    ensures ok ==> ReadHeader(f, old(cursor.Rest())) == Got((), cursor.Rest())
  {
    var key := cursor.String();
    if key.None? || key.value != f.magic { return false; }
    ok := cursor.Consume(':');
    if !ok { return; }
    var version := cursor.Number();
    ok := version.Some? && version.value == f.version;
  }

  method ParseEnvelope(cursor: Cursor, f: Format) returns (r: Option<Sections>)
    requires cursor.Valid()
    modifies cursor
    ensures cursor.Valid() && (r.Some? <==> ReadEnvelope(f, old(cursor.Rest())).Got?)
    ensures r.Some? ==> ReadEnvelope(f, old(cursor.Rest())) == Got(r.value, cursor.Rest())
  {
    var ok := cursor.Consume('{');
    if !ok { return None; }
    ok := ParseHeader(cursor, f);
    if !ok { return None; }
    r := ParseSections(cursor, f);
  }

  method ParseSections(cursor: Cursor, f: Format) returns (r: Option<Sections>)
    requires cursor.Valid()
    modifies cursor
    ensures cursor.Valid()
    ensures var read := ReadSections(f, old(cursor.Rest()), Sections(None, None));
            && (r.Some? <==> read.Got? && Punctuation(read.rest, '}').Got?)
            && (r.Some? ==> read.value == r.value && Punctuation(read.rest, '}').rest == cursor.Rest())
  {
    ghost var start := cursor.Rest();
    var seen := Sections(None, None);
    var more := cursor.Consume(',');
    while more
      invariant cursor.Valid()
      invariant more ==> ReadSections(f, start, Sections(None, None)) == AfterComma(f, cursor.Rest(), seen)
      invariant !more ==> ReadSections(f, start, Sections(None, None)) == Got(seen, cursor.Rest())
      decreases more, |cursor.Rest()|
    {
      var section := ParseSection(cursor, f, seen);
      if section.None? { return None; }
      seen := section.value;
      more := cursor.Consume(',');
    }
    var ok := cursor.Consume('}');
    if !ok { return None; }
    r := Some(seen);
  }

  ghost function AfterComma(f: Format, s: string, seen: Sections): (r: Read<Sections>) {
    var section := ReadSection(f, s, seen);
    if section.Failed? then Failed else ReadSections(f, section.rest, section.value)
  }

  /** `parse`, driving a cursor over the text. */
  method ParseSnapshot(f: Format, text: string) returns (r: Option<Snapshot>)
    ensures r == ParseWith(f, text)
  {
    var cursor := new Cursor(text);
    var seen := ParseEnvelope(cursor, f);
    if seen.None? { return None; }
    cursor.SkipWhitespace();
    if cursor.Rest() != "" || seen.value.selections.None? || seen.value.affinities.None? { return None; }
    r := Some(Snapshot(seen.value.selections.value, seen.value.affinities.value));
  }
}
