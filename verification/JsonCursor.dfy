/** The mutable `Cursor` and the string writer of
    crates/crikey-app/src/startup_recovery.rs, proved against the readers and
    writers of `JsonText`. A cursor whose method failed is abandoned by its
    caller, so only a success fixes where it stands.
 */
module JsonCursor {
  import opened Integers
  import opened Text
  import opened JsonText

  /** `write_json_string`. */
  method WriteJsonString(out: string, value: string) returns (r: string)
    ensures r == out + Quoted(value)
  {
    var started := out + "\"";
    r := started;
    for n := 0 to |value|
      invariant r + EscapeAll(value[n..]) == started + EscapeAll(value)
    {
      EscapedOne(r, value, n);
      r := r + Escape(value[n]);
    }
    assert value[|value|..] == "" && r == started + EscapeAll(value);
    r := r + "\"";
    Enclosed(out, EscapeAll(value));
  }

  lemma EscapedOne(r: string, value: string, n: nat)
    requires n < |value|
    ensures r + Escape(value[n]) + EscapeAll(value[n + 1..]) == r + EscapeAll(value[n..])
  {
    assert value[n..][1..] == value[n + 1..];
  }

  lemma Enclosed(out: string, body: string)
    ensures out + "\"" + body + "\"" == out + ("\"" + body + "\"")
  {
  }

  function Prepend(value: string, r: Read<string>): (out: Read<string>) {
    if r.Failed? then Failed else Got(value + r.value, r.rest)
  }

  class Cursor {
    const text: string
    var at: nat

    ghost predicate Valid()
      reads this
    {
      at <= |text|
    }

    /** What is still to be read. */
    function Rest(): (r: string)
      requires Valid()
      reads this
    {
      text[at..]
    }

    constructor (text: string)
      ensures Valid() && Rest() == text
    {
      this.text, at := text, 0;
    }

    method SkipWhitespace()
      requires Valid()
      modifies this
      ensures Valid() && Rest() == SkipSpace(old(Rest()))
    {
      while at < |text| && IsSpace(text[at])
        invariant Valid() && SkipSpace(Rest()) == SkipSpace(old(Rest()))
      {
        assert Rest()[1..] == text[at + 1..];
        at := at + 1;
      }
    }

    /** Takes `c` if it is the next non-space character. */
    method Consume(c: char) returns (ok: bool)
      requires Valid()
      modifies this
      ensures Valid() && (ok <==> Punctuation(old(Rest()), c).Got?)
      ensures Rest() == if ok then Punctuation(old(Rest()), c).rest else SkipSpace(old(Rest()))
    {
      SkipWhitespace();
      ok := at < |text| && text[at] == c;
      if ok {
        assert Rest()[1..] == text[at + 1..];
        at := at + 1;
      }
    }

    method Null() returns (ok: bool)
      requires Valid()
      modifies this
      ensures Valid() && (ok <==> ReadNull(old(Rest())).Got?)
      ensures Rest() == if ok then ReadNull(old(Rest())).rest else SkipSpace(old(Rest()))
    {
      SkipWhitespace();
      ok := "null" <= text[at..];
      if ok {
        assert Rest()[4..] == text[at + 4..];
        at := at + 4;
      }
    }

    method NumberU64() returns (r: Option<u64>)
      requires Valid()
      modifies this
      ensures Valid() && (r.Some? <==> ReadU64(old(Rest())).Got?)
      ensures r.Some? ==> ReadU64(old(Rest())) == Got(r.value, Rest())
    {
      SkipWhitespace();
      var digits := text[at..];
      var end := DigitRun(digits);
      if end == 0 { return None; }
      at := at + end;
      assert digits[end..] == text[at..];
      assert forall i | 0 <= i < end :: IsDigit(digits[..end][i]);
      var value := DecimalValue(digits[..end]);
      r := if value > U64_MAX then None else Some(value);
    }

    method Number() returns (r: Option<u32>)
      requires Valid()
      modifies this
      ensures Valid() && (r.Some? <==> ReadU32(old(Rest())).Got?)
      ensures r.Some? ==> ReadU32(old(Rest())) == Got(r.value, Rest())
    {
      var wide := NumberU64();
      r := if wide.Some? && wide.value <= U32_MAX then Some(wide.value) else None;
    }

    method String() returns (r: Option<string>)
      requires Valid()
      modifies this
      ensures Valid() && (r.Some? <==> ReadString(old(Rest())).Got?)
      ensures r.Some? ==> ReadString(old(Rest())) == Got(r.value, Rest())
    {
      var open := Consume('"');
      if !open { return None; }
      ghost var body := Rest();
      var value, i := "", at;
      PrependNothing(ReadBody(body));
      while i < |text|
        invariant Valid() && i <= |text|
        invariant ReadBody(body) == Prepend(value, ReadBody(text[i..]))
        decreases |text| - i
      {
        var rest := text[i..];
        assert rest[1..] == text[i + 1..];
        if rest[0] == '"' {
          at := i + 1;
          assert value + "" == value;
          return Some(value);
        }
        var c := ReadCharacter(rest);
        if c.Failed? { return None; }
        StepForward(value, rest, c.value, c.rest);
        value := value + [c.value];
        i := CharacterEnd(text, i);
      }
      assert text[i..] == "";
      return None;
    }

    /** `string_array`. */
    method StringArray() returns (r: Option<seq<string>>)
      requires Valid()
      modifies this
      ensures Valid() && (r.Some? <==> ReadStrings(old(Rest())).Got?)
      ensures r.Some? ==> ReadStrings(old(Rest())) == Got(r.value, Rest())
    {
      var ok := Consume('[');
      if !ok { return None; }
      ok := Consume(']');
      if ok { return Some([]); }
      ghost var items := Rest();
      var values := [];
      var more := true;
      PrependNoItems(ReadItems(ReadString, items));
      while more
        invariant Valid()
        invariant more ==> ReadItems(ReadString, items) == PrependAll(values, ReadItems(ReadString, Rest()))
        invariant !more ==> ReadItems(ReadString, items) == Got(values, Rest())
        decreases more, |Rest()|
      {
        ghost var here := Rest();
        var value := String();
        if value.None? { return None; }
        more := Consume(',');
        ghost var was := values;
        values := values + [value.value];
        if more {
          ItemStep(ReadString, was, here, value.value, Rest());
        }
      }
      ok := Consume(']');
      if !ok { return None; }
      r := Some(values);
    }
  }

  function ReadStrings(s: string): (r: Read<seq<string>>)
    ensures r.Got? ==> |r.rest| < |s|
  {
    ReadArray(ReadString, s)
  }

  function PrependAll<T>(values: seq<T>, r: Read<seq<T>>): (out: Read<seq<T>>) {
    if r.Failed? then Failed else Got(values + r.value, r.rest)
  }

  lemma PrependNothing(r: Read<string>)
    ensures Prepend("", r) == r
  {
    if r.Got? { assert "" + r.value == r.value; }
  }

  lemma PrependNoItems<T>(r: Read<seq<T>>)
    ensures PrependAll([], r) == r
  {
    if r.Got? { assert [] + r.value == r.value; }
  }

  /** One item and a comma move the same reading along. */
  lemma ItemStep<T>(read: string -> Read<T>, values: seq<T>, here: string, value: T, next: string)
    requires Progresses(read) && read(here).Got? && read(here).value == value
    requires Punctuation(read(here).rest, ',') == Got((), next)
    ensures PrependAll(values, ReadItems(read, here)) == PrependAll(values + [value], ReadItems(read, next))
  {
    var more := ReadItems(read, next);
    if more.Got? {
      assert values + ([value] + more.value) == values + [value] + more.value;
    }
  }

  lemma StepForward(value: string, s: string, c: char, rest: string)
    requires s != "" && s[0] != '"' && ReadCharacter(s) == Got(c, rest)
    ensures Prepend(value, ReadBody(s)) == Prepend(value + [c], ReadBody(rest))
  {
    var tail := ReadBody(rest);
    if tail.Got? {
      assert value + ([c] + tail.value) == value + [c] + tail.value;
    }
  }

  /** Where the character read at `i` ends. */
  function CharacterEnd(text: string, i: nat): (j: nat)
    requires i < |text| && text[i] != '"' && ReadCharacter(text[i..]).Got?
    ensures i < j <= |text| && text[j..] == ReadCharacter(text[i..]).rest
  {
    if text[i] != '\\' then i + 1
    else if text[i + 1] == 'u' then
      assert text[i..][2..][4..] == text[i + 6..];
      i + 6
    else
      assert text[i..][2..] == text[i + 2..];
      i + 2
  }
}
