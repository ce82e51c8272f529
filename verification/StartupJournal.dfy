/** The startup journal of crates/crikey-app/src/startup_recovery.rs: its record on
    disk, and the crash-loop verdict it carries from one process to the next.
 */
module StartupJournals {
  import opened Integers
  import opened Text
  import opened JsonText
  import opened JsonCursor

  const SAFE_MODE_AFTER_FAILURES: nat := 3
  const MAX_BYTES: nat := 64 * 1024

  /** What one record says. */
  datatype Record = Record(failures: u32, active: seq<string>)

  const FRESH: Record := Record(0, [])

  // ---------------------------------------------------------------- the record as text

  /** The names of the two fields, kept apart from what is done with them. */
  datatype Keys = Keys(failures: string, active: string)

  const KEYS: Keys := Keys("consecutive_failures", "active")

  function SerializeWith(keys: Keys, record: Record): (text: string) {
    "{" + Quoted(keys.failures) + ":" + Decimal(record.failures)
    + "," + Quoted(keys.active) + ":" + WriteArray(Quoted, record.active) + "}"
  }

  function Serialize(record: Record): (text: string) {
    SerializeWith(KEYS, record)
  }

  lemma KeysArePlain()
    ensures Plain(KEYS.failures) && Plain(KEYS.active)
  {
  }

  lemma WrittenBare(keys: Keys, record: Record)
    requires Plain(keys.failures) && Plain(keys.active)
    ensures SerializeWith(keys, record) ==
            "{" + Bare(keys.failures) + ":" + Decimal(record.failures)
            + "," + Bare(keys.active) + ":" + WriteArray(Quoted, record.active) + "}"
  {
    PlainQuoted(keys.failures);
    PlainQuoted(keys.active);
  }

  /** On disk the keys are the source's own text, with nothing escaped. */
  lemma JournalText(record: Record)
    ensures Serialize(record) ==
            "{" + Bare(KEYS.failures) + ":" + Decimal(record.failures)
            + "," + Bare(KEYS.active) + ":" + WriteArray(Quoted, record.active) + "}"
  {
    KeysArePlain();
    WrittenBare(KEYS, record);
  }

  datatype Fields = Fields(failures: Option<u32>, active: Option<seq<string>>)

  /** One field: a known key not seen before, with its value. */
  function ReadField(keys: Keys, s: string, fields: Fields): (r: Read<Fields>)
    ensures r.Got? ==> |r.rest| < |s|
  {
    var key := ReadKey(s);
    if key.Failed? then Failed
    else if key.value == keys.failures && fields.failures.None? then
      var n := ReadU32(key.rest);
      if n.Failed? then Failed else Got(fields.(failures := Some(n.value)), n.rest)
    else if key.value == keys.active && fields.active.None? then
      var names := ReadStrings(key.rest);
      if names.Failed? then Failed else Got(fields.(active := Some(names.value)), names.rest)
    else Failed
  }

  function ReadFields(keys: Keys, s: string, fields: Fields): (r: Read<Fields>)
    decreases |s|
  {
    var field := ReadField(keys, s, fields);
    if field.Failed? then Failed
    else
      var comma := Punctuation(field.rest, ',');
      if comma.Got? then ReadFields(keys, comma.rest, field.value)
      else Got(field.value, SkipSpace(field.rest))
  }

  /** The fields between the braces, and the text after them. */
  function ReadObject(keys: Keys, text: string): (r: Read<Fields>) {
    var open := Punctuation(text, '{');
    if open.Failed? then Failed
    else
      var empty := Punctuation(open.rest, '}');
      if empty.Got? then Got(Fields(None, None), empty.rest)
      else
        var fields := ReadFields(keys, SkipSpace(open.rest), Fields(None, None));
        if fields.Failed? then Failed
        else
          var close := Punctuation(fields.rest, '}');
          if close.Failed? then Failed else Got(fields.value, close.rest)
  }

  function ParseWith(keys: Keys, text: string): (r: Option<Record>) {
    var whole := ReadObject(keys, text);
    if whole.Failed? || SkipSpace(whole.rest) != "" then None
    else
      var Fields(failures, active) := whole.value;
      if failures.None? || active.None? then None else Some(Record(failures.value, active.value))
  }

  /** `parse`: the record a text is, if it is one. */
  function Parse(text: string): (r: Option<Record>) {
    ParseWith(KEYS, text)
  }

  lemma StringsInverse()
    ensures Inverse(Quoted, ReadString, (s: string) => true)
  {
    forall v, rest: string ensures ReadString(Quoted(v) + rest) == Got(v, rest) { StringRoundTrip(v, rest); }
  }

  lemma ActiveFieldReads(keys: Keys, failures: u32, active: seq<string>, rest: string)
    ensures ReadField(keys, Quoted(keys.active) + ":" + WriteArray(Quoted, active) + rest, Fields(Some(failures), None))
            == Got(Fields(Some(failures), Some(active)), rest)
  {
    var value := WriteArray(Quoted, active) + rest;
    assert Quoted(keys.active) + ":" + WriteArray(Quoted, active) + rest == Quoted(keys.active) + ":" + value;
    KeyRoundTrip(keys.active, value);
    StringsInverse();
    ArrayRoundTrip(Quoted, ReadString, (s: string) => true, active, rest);
  }

  lemma FailuresFieldReads(keys: Keys, n: u32, rest: string)
    requires rest != "" && !IsDigit(rest[0])
    ensures ReadField(keys, Quoted(keys.failures) + ":" + Decimal(n) + rest, Fields(None, None))
              == Got(Fields(Some(n), None), rest)
  {
    var s, value := Quoted(keys.failures) + ":" + Decimal(n) + rest, Decimal(n) + rest;
    assert ReadKey(s) == Got(keys.failures, value) by {
      assert s == Quoted(keys.failures) + ":" + value;
      KeyRoundTrip(keys.failures, value);
    }
    assert ReadU32(value) == Got(n, rest) by { NumberRoundTrip(n, rest); }
    FailuresField(keys, s, value, n, rest);
  }

  lemma FailuresField(keys: Keys, s: string, value: string, n: u32, rest: string)
    requires ReadKey(s) == Got(keys.failures, value) && ReadU32(value) == Got(n, rest)
    ensures ReadField(keys, s, Fields(None, None)) == Got(Fields(Some(n), None), rest)
  {
  }

  lemma RoundTripWith(keys: Keys, record: Record)
    ensures ParseWith(keys, SerializeWith(keys, record)) == Some(record)
  {
    var Record(n, active) := record;
    var second := Quoted(keys.active) + ":" + WriteArray(Quoted, active) + "}";
    var inner := Quoted(keys.failures) + ":" + Decimal(n) + ([','] + second);
    Regroup(Quoted(keys.failures), Decimal(n), Quoted(keys.active), WriteArray(Quoted, active));
    PunctuationHere('{', inner);
    FieldsRead(keys, record, second, inner);
    PunctuationHere('}', "");
    assert "}" == ['}'] + "";
    ObjectReads(keys, SerializeWith(keys, record), inner, record);
  }

  lemma ObjectReads(keys: Keys, text: string, inner: string, record: Record)
    requires Punctuation(text, '{') == Got((), inner) && SkipSpace(inner) == inner && inner != "" && inner[0] != '}'
    requires ReadFields(keys, inner, Fields(None, None)) == Got(Fields(Some(record.failures), Some(record.active)), "}")
    requires Punctuation("}", '}') == Got((), "")
    ensures ParseWith(keys, text) == Some(record)
  {
  }

  lemma Regroup(key1: string, value1: string, key2: string, value2: string)
    requires key1 != "" && key1[0] == '"'
    ensures var second := key2 + ":" + value2 + "}";
            var inner := key1 + ":" + value1 + ([','] + second);
            && "{" + key1 + ":" + value1 + "," + key2 + ":" + value2 + "}" == ['{'] + inner
            && inner != "" && inner[0] == '"' && SkipSpace(inner) == inner
  {
    var second := key2 + ":" + value2 + "}";
    var inner := key1 + ":" + value1 + ([','] + second);
    assert inner[0] == key1[0];
    assert "{" + key1 + ":" + value1 + "," + key2 + ":" + value2 + "}" == "{" + key1 + ":" + value1 + ("," + second);
  }

  lemma FieldsRead(keys: Keys, record: Record, second: string, inner: string)
    requires second == Quoted(keys.active) + ":" + WriteArray(Quoted, record.active) + "}"
    requires inner == Quoted(keys.failures) + ":" + Decimal(record.failures) + ([','] + second)
    ensures ReadFields(keys, inner, Fields(None, None)) == Got(Fields(Some(record.failures), Some(record.active)), "}")
  {
    var Record(n, active) := record;
    FailuresFieldReads(keys, n, [','] + second);
    PunctuationHere(',', second);
    ActiveFieldReads(keys, n, active, "}");
    PunctuationHere('}', "");
    assert "}" == ['}'] + "";
    assert ReadFields(keys, second, Fields(Some(n), None)) == Got(Fields(Some(n), Some(active)), "}");
  }

  /** Every journal reads back exactly. */
  lemma RoundTrip(record: Record)
    ensures Parse(Serialize(record)) == Some(record)
  {
    RoundTripWith(KEYS, record);
  }

  // ---------------------------------------------------------------- torn writes

  lemma FieldTakes(keys: Keys, s: string, fields: Fields)
    requires ReadField(keys, s, fields).Got?
    ensures Takes(s, ReadField(keys, s, fields).rest)
  {
    var key := ReadKey(s);
    KeyTakes(s);
    if key.value == keys.failures && fields.failures.None? {
      NumberTakes(key.rest);
    } else {
      forall t | ReadString(t).Got? ensures Takes(t, ReadString(t).rest) { StringTakes(t); }
      ArrayTakes(ReadString, key.rest);
    }
    TakesThen(s, key.rest, ReadField(keys, s, fields).rest);
  }

  lemma {:induction false} FieldsTake(keys: Keys, s: string, fields: Fields)
    requires ReadFields(keys, s, fields).Got?
    ensures Takes(s, ReadFields(keys, s, fields).rest)
    decreases |s|
  {
    var field := ReadField(keys, s, fields);
    FieldTakes(keys, s, fields);
    var comma := Punctuation(field.rest, ',');
    var rest := ReadFields(keys, s, fields).rest;
    if comma.Got? {
      NeutralPunctuationTakes(field.rest, ',');
      FieldsTake(keys, comma.rest, field.value);
      TakesThen(field.rest, comma.rest, rest);
    } else {
      var space := SkipSpaceTakes(field.rest);
    }
    TakesThen(s, field.rest, rest);
  }

  lemma ParsedIsDocument(keys: Keys, text: string) returns (lead: string, body: string, trail: string)
    requires ParseWith(keys, text).Some?
    ensures Document(text, lead, body, trail)
  {
    var inner := Punctuation(text, '{').rest;
    trail := ReadObject(keys, text).rest;
    if Punctuation(inner, '}').Got? {
      TakesNothing(inner);
      lead, body := DocumentFrom(text, inner, inner, trail);
    } else {
      var space := SkipSpaceTakes(inner);
      FieldsTake(keys, SkipSpace(inner), Fields(None, None));
      var last := ReadFields(keys, SkipSpace(inner), Fields(None, None)).rest;
      TakesThen(inner, SkipSpace(inner), last);
      lead, body := DocumentFrom(text, inner, last, trail);
    }
  }

  lemma ParsePrefixFreeWith(keys: Keys, shorter: string, longer: string)
    requires ParseWith(keys, shorter).Some? && ParseWith(keys, longer).Some? && shorter <= longer
    ensures AllSpace(longer[|shorter|..])
  {
    var l1, b1, t1 := ParsedIsDocument(keys, shorter);
    var l2, b2, t2 := ParsedIsDocument(keys, longer);
    DocumentsPrefixFree(shorter, longer, l1, b1, t1, l2, b2, t2);
  }

  /** Of two texts that both parse, neither is a proper prefix of the other save for
      trailing white space. */
  lemma ParsePrefixFree(shorter: string, longer: string)
    requires Parse(shorter).Some? && Parse(longer).Some? && shorter <= longer
    ensures AllSpace(longer[|shorter|..])
  {
    ParsePrefixFreeWith(KEYS, shorter, longer);
  }

  lemma TornWith(keys: Keys, record: Record, cut: nat)
    requires cut < |SerializeWith(keys, record)|
    ensures ParseWith(keys, SerializeWith(keys, record)[..cut]) == None
  {
    var text := SerializeWith(keys, record);
    RoundTripWith(keys, record);
    if ParseWith(keys, text[..cut]).Some? {
      ParsePrefixFreeWith(keys, text[..cut], text);
      EndsInBrace(text, cut);
    }
  }

  /** A journal cut short anywhere never parses. */
  lemma TornWriteDetected(record: Record, cut: nat)
    requires cut < |Serialize(record)|
    ensures Parse(Serialize(record)[..cut]) == None
  {
    TornWith(KEYS, record, cut);
  }

  // ---------------------------------------------------------------- one process

  datatype StartupMode = Normal | SafeMode(consecutiveFailures: nat)

  /** The journal a process holds. */
  datatype State = State(record: Record, admitted: Option<StartupMode>)

  function Saturating(n: nat): (r: u32) {
    if n > U32_MAX then U32_MAX else n
  }

  function Verdict(failures: nat): (m: StartupMode) {
    if failures >= SAFE_MODE_AFTER_FAILURES then SafeMode(failures) else Normal
  }

  function Begin(s: State, plugins: seq<string>): (r: State) {
    if s.admitted.Some? then s.(record := s.record.(active := plugins))
    else State(Record(Saturating(s.record.failures + 1), plugins), Some(Verdict(s.record.failures)))
  }

  function Ready(s: State): (r: State) {
    State(s.record.(failures := 0), None)
  }

  function WithActive(s: State, plugins: seq<string>): (r: State) {
    s.(record := s.record.(active := plugins))
  }

  /** The length gate of `read_bounded`; `None` is an absent or unreadable file. */
  function ReadBounded(disk: Option<string>, maxBytes: nat): (r: Option<string>) {
    if disk.Some? && Utf8Length(disk.value) <= maxBytes then disk else None
  }

  function LoadWith(keys: Keys, disk: Option<string>): (r: Record) {
    var text := ReadBounded(disk, MAX_BYTES);
    if text.None? then FRESH
    else
      var parsed := ParseWith(keys, text.value);
      if parsed.None? then FRESH else parsed.value
  }

  /** `load`: the record on disk, or a fresh one. */
  function Load(disk: Option<string>): (r: Record) {
    LoadWith(KEYS, disk)
  }

  class StartupJournal {
    var failures: u32
    var active: seq<string>
    var admitted: Option<StartupMode>

    function Abstract(): (s: State)
      reads this
    {
      State(Record(failures, active), admitted)
    }

    constructor (disk: Option<string>)
      ensures Abstract() == State(Load(disk), None)
    {
      var record := Load(disk);
      failures, active, admitted := record.failures, record.active, None;
    }

    method BeginStartup(plugins: seq<string>) returns (mode: StartupMode)
      modifies this
      ensures Abstract() == Begin(old(Abstract()), plugins)
      ensures admitted == Some(mode)
    {
      if admitted.Some? {
        mode := admitted.value;
      } else {
        mode := if failures >= SAFE_MODE_AFTER_FAILURES then SafeMode(failures) else Normal;
        failures := if failures == U32_MAX then U32_MAX else failures + 1;
        admitted := Some(mode);
      }
      RecordActivePlugins(plugins);
    }

    method RecordActivePlugins(plugins: seq<string>)
      modifies `active
      ensures active == plugins
    {
      active := plugins;
    }

    method MarkReady()
      modifies `failures, `admitted
      ensures Abstract() == Ready(old(Abstract()))
    {
      failures, admitted := 0, None;
    }

    method MarkCleanShutdown()
      modifies `active
      ensures active == []
    {
      active := [];
    }

    /** The text `save` stages and renames into place. */
    method SerializeJournal() returns (out: string)
      ensures out == Serialize(Abstract().record)
    {
      out := SerializeRecord(KEYS, Record(failures, active));
    }
  }

  method SerializeRecord(keys: Keys, record: Record) returns (out: string)
    ensures out == SerializeWith(keys, record)
  {
    var head := ("{" + Quoted(keys.failures) + ":") + Decimal(record.failures)
      + ("," + Quoted(keys.active) + ":" + "[");
    out := PushStrings(head, record.active);
    out := out + "]}";
    Spelled(keys, record, out);
  }

  /** The loop that writes the active plugins. */
  method PushStrings(head: string, items: seq<string>) returns (out: string)
    ensures out == head + JoinItems(Quoted, items)
  {
    out := head;
    for n := 0 to |items|
      invariant out == head + JoinItems(Quoted, items[..n])
    {
      ghost var joined := JoinItems(Quoted, items[..n]);
      JoinOneMore(Quoted, items, n);
      if n > 0 { out := out + ","; }
      out := WriteJsonString(out, items[n]);
      Appended(head, joined, if n > 0 then "," else "", Quoted(items[n]));
    }
    assert items[..|items|] == items;
  }

  lemma Appended(head: string, joined: string, separator: string, item: string)
    ensures head + joined + separator + item == head + (joined + separator + item)
    ensures separator == "" ==> head + joined + item == head + (joined + separator + item)
  {
    assert joined + "" == joined;
  }

  lemma Spelled(keys: Keys, record: Record, out: string)
    requires out == ("{" + Quoted(keys.failures) + ":") + Decimal(record.failures)
               + ("," + Quoted(keys.active) + ":" + "[")
                    + JoinItems(Quoted, record.active) + "]}"
    ensures out == SerializeWith(keys, record)
  {
    assert "]}" == "]" + "}";
  }

  /** `parse`, driving a cursor over the text. */
  method ParseRecord(keys: Keys, text: string) returns (r: Option<Record>)
    ensures r == ParseWith(keys, text)
  {
    var cursor := new Cursor(text);
    var fields := ParseObject(cursor, keys);
    if fields.None? { return None; }
    cursor.SkipWhitespace();
    if cursor.Rest() != "" || fields.value.failures.None? || fields.value.active.None? { return None; }
    r := Some(Record(fields.value.failures.value, fields.value.active.value));
  }

  method ParseObject(cursor: Cursor, keys: Keys) returns (r: Option<Fields>)
    requires cursor.Valid()
    modifies cursor
    ensures cursor.Valid() && (r.Some? <==> ReadObject(keys, old(cursor.Rest())).Got?)
    ensures r.Some? ==> ReadObject(keys, old(cursor.Rest())) == Got(r.value, cursor.Rest())
  {
    var ok := cursor.Consume('{');
    if !ok { return None; }
    ok := cursor.Consume('}');
    if ok { return Some(Fields(None, None)); }
    r := ParseFields(cursor, keys);
    if r.None? { return None; }
    ok := cursor.Consume('}');
    if !ok { return None; }
  }

  method ParseFields(cursor: Cursor, keys: Keys) returns (r: Option<Fields>)
    requires cursor.Valid()
    modifies cursor
    ensures cursor.Valid() && (r.Some? <==> ReadFields(keys, old(cursor.Rest()), Fields(None, None)).Got?)
    ensures r.Some? ==> ReadFields(keys, old(cursor.Rest()), Fields(None, None)) == Got(r.value, cursor.Rest())
  {
    var fields := Fields(None, None);
    var more := true;
    while more
      invariant cursor.Valid()
      invariant ReadFields(keys, old(cursor.Rest()), Fields(None, None)) ==
                  if more then ReadFields(keys, cursor.Rest(), fields) else Got(fields, cursor.Rest())
      decreases more, |cursor.Rest()|
    {
      var field := ParseField(cursor, keys, fields);
      if field.None? { return None; }
      fields := field.value;
      more := cursor.Consume(',');
    }
    r := Some(fields);
  }

  method ParseField(cursor: Cursor, keys: Keys, fields: Fields) returns (r: Option<Fields>)
    requires cursor.Valid()
    modifies cursor
    ensures cursor.Valid() && (r.Some? <==> ReadField(keys, old(cursor.Rest()), fields).Got?)
    ensures r.Some? ==> ReadField(keys, old(cursor.Rest()), fields) == Got(r.value, cursor.Rest())
  {
    var key := cursor.String();
    if key.None? { return None; }
    var ok := cursor.Consume(':');
    if !ok { return None; }
    if key.value == keys.failures && fields.failures.None? {
      var n := cursor.Number();
      if n.None? { return None; }
      r := Some(fields.(failures := Some(n.value)));
    } else if key.value == keys.active && fields.active.None? {
      var names := cursor.StringArray();
      if names.None? { return None; }
      r := Some(fields.(active := Some(names.value)));
    } else {
      return None;
    }
  }

  // ---------------------------------------------------------------- across processes

  /** What a process can do to its journal after loading it. */
  datatype Event = Began(plugins: seq<string>) | Readied | Noted(plugins: seq<string>) | Closed | Saved

  function Apply(s: State, e: Event): (r: State) {
    match e
    case Began(plugins) => Begin(s, plugins)
    case Readied => Ready(s)
    case Noted(plugins) => WithActive(s, plugins)
    case Closed => WithActive(s, [])
    case Saved => s
  }

  function ApplyAll(s: State, events: seq<Event>): (r: State) {
    if events == [] then s else Apply(ApplyAll(s, events[..|events| - 1]), events[|events| - 1])
  }

  /** The file one launch leaves: its last save, or what it found. A save is a
      rename, so the launch may die anywhere without tearing it. */
  function DiskAfter(keys: Keys, disk: Option<string>, events: seq<Event>): (r: Option<string>) {
    if events == [] then disk
    else if events[|events| - 1] == Saved then Some(SavedText(keys, disk, events))
    else DiskAfter(keys, disk, events[..|events| - 1])
  }

  function SavedText(keys: Keys, disk: Option<string>, events: seq<Event>): (r: string) {
    SerializeWith(keys, ApplyAll(State(LoadWith(keys, disk), None), events).record)
  }

  /** The file after a whole history of launches, oldest first. */
  function DiskAfterAll(keys: Keys, launches: seq<seq<Event>>): (r: Option<string>) {
    if launches == [] then None
    else DiskAfter(keys, DiskAfterAll(keys, launches[..|launches| - 1]), launches[|launches| - 1])
  }

  /** A save of these events stays within the size the loader accepts. */
  ghost predicate SaveFits(keys: Keys, disk: Option<string>, events: seq<Event>) {
    Utf8Length(SavedText(keys, disk, events)) <= MAX_BYTES
  }

  ghost predicate Fits(keys: Keys, disk: Option<string>, events: seq<Event>) {
    forall n | 0 < n <= |events| && events[n - 1] == Saved :: SaveFits(keys, disk, events[..n])
  }

  ghost predicate AllFit(keys: Keys, launches: seq<seq<Event>>) {
    forall n | 0 <= n < |launches| :: Fits(keys, DiskAfterAll(keys, launches[..n]), launches[n])
  }

  /** The events of a launch that reached disk. */
  function Committed(events: seq<Event>): (r: seq<Event>) {
    if events == [] || events[|events| - 1] == Saved then events else Committed(events[..|events| - 1])
  }

  /** The launch got ready. */
  ghost predicate GotReady(events: seq<Event>) {
    Readied in events
  }

  /** A startup began and did not get ready afterwards. */
  ghost predicate Underway(events: seq<Event>) {
    exists i | 0 <= i < |events| :: events[i].Began? && forall j | i < j < |events| :: events[j] != Readied
  }

  /** How many launches in a row, ending with the last, began and did not commit
      ready. A launch that committed neither is not part of the row. */
  ghost function FailureRun(launches: seq<seq<Event>>): (n: nat) {
    if launches == [] then 0
    else
      var committed := Committed(launches[|launches| - 1]);
      (if GotReady(committed) then 0 else FailureRun(launches[..|launches| - 1]))
      + (if Underway(committed) then 1 else 0)
  }

  /** The count a process holds, from the count it loaded. */
  ghost function CountAfter(loaded: nat, events: seq<Event>): (n: nat) {
    (if GotReady(events) then 0 else loaded) + (if Underway(events) then 1 else 0)
  }

  lemma {:induction false} OneProcess(start: Record, events: seq<Event>)
    ensures var s := ApplyAll(State(start, None), events);
            && (s.admitted.Some? <==> Underway(events))
            && s.record.failures == Saturating(CountAfter(start.failures, events))
            && (s.admitted.Some? ==> s.admitted.value == Verdict(if GotReady(events) then 0 else start.failures))
    decreases |events|
  {
    if events != [] {
      var init, last := events[..|events| - 1], events[|events| - 1];
      OneProcess(start, init);
      assert events == init + [last];
      UnderwayStep(init, last);
    }
  }

  lemma UnderwayStep(init: seq<Event>, last: Event)
    ensures Underway(init + [last]) <==> last.Began? || (last != Readied && Underway(init))
    ensures GotReady(init + [last]) <==> last == Readied || GotReady(init)
  {
    var events := init + [last];
    if last.Began? {
      assert events[|init|] == last;
    }
    if last != Readied && Underway(init) {
      var i :| 0 <= i < |init| && init[i].Began? && forall j | i < j < |init| :: init[j] != Readied;
      assert events[i].Began? && forall j | i < j < |events| :: events[j] != Readied;
    }
    if Underway(events) && !last.Began? {
      var i :| 0 <= i < |events| && events[i].Began? && forall j | i < j < |events| :: events[j] != Readied;
      assert init[i].Began? && forall j | i < j < |init| :: init[j] == events[j];
      assert events[|init|] == last;
    }
  }

  lemma LoadAfterSaveWith(keys: Keys, record: Record)
    requires Utf8Length(SerializeWith(keys, record)) <= MAX_BYTES
    ensures LoadWith(keys, Some(SerializeWith(keys, record))) == record
  {
    RoundTripWith(keys, record);
  }

  /** What the next process loads is what the last one saved. */
  lemma LoadAfterSave(record: Record)
    requires Utf8Length(Serialize(record)) <= MAX_BYTES
    ensures Load(Some(Serialize(record))) == record
  {
    LoadAfterSaveWith(KEYS, record);
  }

  lemma FitsPrefix(keys: Keys, disk: Option<string>, init: seq<Event>, last: Event)
    requires Fits(keys, disk, init + [last])
    ensures Fits(keys, disk, init)
  {
    var events := init + [last];
    forall n | 0 < n <= |init| && init[n - 1] == Saved ensures SaveFits(keys, disk, init[..n]) {
      assert init[..n] == events[..n] && events[n - 1] == Saved;
    }
  }

  lemma {:induction false} OneLaunch(keys: Keys, disk: Option<string>, events: seq<Event>)
    requires Fits(keys, disk, events)
    ensures LoadWith(keys, DiskAfter(keys, disk, events))
              == ApplyAll(State(LoadWith(keys, disk), None), Committed(events)).record
    decreases |events|
  {
    if events != [] {
      var init, last := events[..|events| - 1], events[|events| - 1];
      assert events == init + [last];
      if last == Saved {
        assert events[..|events|] == events;
        assert SaveFits(keys, disk, events);
        LoadAfterSaveWith(keys, ApplyAll(State(LoadWith(keys, disk), None), events).record);
      } else {
        FitsPrefix(keys, disk, init, last);
        OneLaunch(keys, disk, init);
      }
    }
  }

  lemma {:induction false} CountedWith(keys: Keys, launches: seq<seq<Event>>)
    requires AllFit(keys, launches)
    ensures LoadWith(keys, DiskAfterAll(keys, launches)).failures == Saturating(FailureRun(launches))
  {
    if launches != [] {
      var init, last := launches[..|launches| - 1], launches[|launches| - 1];
      forall n | 0 <= n < |init|
        ensures Fits(keys, DiskAfterAll(keys, init[..n]), init[n]) { assert init[..n] == launches[..n]; }
      CountedWith(keys, init);
      assert launches[..|init|] == init;
      var disk := DiskAfterAll(keys, init);
      OneLaunch(keys, disk, last);
      OneProcess(LoadWith(keys, disk), Committed(last));
    }
  }

  /** After any history of launches, the record on disk counts exactly the launches in
      a row that began and never committed ready. */
  lemma CrashLoopCounted(launches: seq<seq<Event>>)
    requires AllFit(KEYS, launches)
    ensures Load(DiskAfterAll(KEYS, launches)).failures == Saturating(FailureRun(launches))
  {
    CountedWith(KEYS, launches);
  }

  /** Beginning after `events` on a journal that loaded as `start`: safe mode exactly when
      the row of failures is at least three long, reporting its length, and the launch
      itself counted. */
  ghost predicate BeginsAs(start: Record, run: nat, events: seq<Event>, plugins: seq<string>) {
    var started := Begin(ApplyAll(State(start, None), events), plugins);
    && started.admitted == Some(if run >= 3 then SafeMode(Saturating(run)) else Normal)
    && started.record == Record(Saturating(run + 1), plugins)
  }

  lemma BeginAgain(start: Record, run: nat, events: seq<Event>, plugins: seq<string>)
    requires start.failures == Saturating(run) && !GotReady(events)
    ensures BeginsAs(start, run, events, plugins)
  {
    OneProcess(start, events);
  }

  /** The verdict of the next launch is told by the row of failures before it; calling
      `begin_startup` again before ready changes neither the verdict nor the count. */
  lemma NextVerdict(keys: Keys, launches: seq<seq<Event>>, events: seq<Event>, plugins: seq<string>)
    requires AllFit(keys, launches) && !GotReady(events)
    ensures BeginsAs(LoadWith(keys, DiskAfterAll(keys, launches)), FailureRun(launches), events, plugins)
  {
    var loaded, run := LoadWith(keys, DiskAfterAll(keys, launches)), FailureRun(launches);
    assert loaded.failures == Saturating(run) by { CountedWith(keys, launches); }
    BeginAgain(loaded, run, events, plugins);
  }

  /** A record cut short on disk is a first launch, not a guess. */
  lemma TornJournalIsFresh(keys: Keys, record: Record, cut: nat)
    requires cut < |SerializeWith(keys, record)|
    ensures LoadWith(keys, Some(SerializeWith(keys, record)[..cut])) == FRESH
  {
    TornWith(keys, record, cut);
  }
}
