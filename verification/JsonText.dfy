/** The JSON subset of crates/crikey-app/src/startup_recovery.rs: its string and
    number writers, and what its strict cursor reads (strings per section 7 of
    RFC 8259).

    A reader is a function from the text still to be read to the value and the
    text left over. Texts are sequences of Unicode scalar values.
 */
module JsonText {
  import opened Integers
  import opened Text

  datatype Read<+T> = Failed | Got(value: T, rest: string)

  // ---------------------------------------------------------------- white space and punctuation

  predicate IsSpace(c: char) {
    c == ' ' || c == '\t' || c == '\n' || c == '\r'
  }

  ghost predicate AllSpace(s: string) {
    forall c | c in s :: IsSpace(c)
  }

  function SkipSpace(s: string): (r: string)
    ensures |r| <= |s|
    ensures r == "" || !IsSpace(r[0])
  {
    if s != "" && IsSpace(s[0]) then SkipSpace(s[1..]) else s
  }

  /** The next non-space character, when it is `c`. */
  function Punctuation(s: string, c: char): (r: Read<()>)
    ensures r.Got? ==> |r.rest| < |s|
  {
    var t := SkipSpace(s);
    if t != "" && t[0] == c then Got((), t[1..]) else Failed
  }

  /** The literal `null`. */
  function ReadNull(s: string): (r: Read<()>)
    ensures r.Got? ==> |r.rest| < |s|
  {
    var t := SkipSpace(s);
    if "null" <= t then Got((), t[4..]) else Failed
  }

  // ---------------------------------------------------------------- numbers

  predicate IsDigit(c: char) {
    '0' <= c <= '9'
  }

  function DigitRun(s: string): (n: nat)
    ensures n <= |s|
    ensures forall i | 0 <= i < n :: IsDigit(s[i])
    ensures n < |s| ==> !IsDigit(s[n])
  {
    if s == "" || !IsDigit(s[0]) then 0 else 1 + DigitRun(s[1..])
  }

  function DigitValue(c: char): (d: nat)
    requires IsDigit(c)
    ensures d < 10
  {
    c as int - '0' as int
  }

  function DecimalValue(s: string): (n: nat)
    requires forall c | c in s :: IsDigit(c)
  {
    if s == "" then 0
    else
      assert s[|s| - 1] in s;
      10 * DecimalValue(s[..|s| - 1]) + DigitValue(s[|s| - 1])
  }

  function Decimal(n: nat): (s: string)
    ensures s != "" && forall c | c in s :: IsDigit(c)
  {
    if n < 10 then [('0' as int + n) as char] else Decimal(n / 10) + [('0' as int + n % 10) as char]
  }

  /** `number_u64`: a digit run, refused when it exceeds 64 bits. */
  function ReadU64(s: string): (r: Read<u64>)
    ensures r.Got? ==> |r.rest| < |s|
  {
    var t := SkipSpace(s);
    var n := DigitRun(t);
    if n == 0 then Failed
    else
      var value := DecimalValue(t[..n]);
      if value > U64_MAX then Failed else Got(value, t[n..])
  }

  function ReadU32(s: string): (r: Read<u32>)
    ensures r.Got? ==> |r.rest| < |s|
  {
    var r := ReadU64(s);
    if r.Failed? || r.value > U32_MAX then Failed else Got(r.value, r.rest)
  }

  lemma {:induction false} DecimalRoundTrip(n: nat)
    ensures DecimalValue(Decimal(n)) == n
  {
    var s := Decimal(n);
    if n < 10 {
      assert s[..|s| - 1] == "";
    } else {
      DecimalRoundTrip(n / 10);
      assert s[..|s| - 1] == Decimal(n / 10);
    }
  }

  lemma DigitRunExact(digits: string, rest: string)
    requires forall c | c in digits :: IsDigit(c)
    requires rest == "" || !IsDigit(rest[0])
    ensures DigitRun(digits + rest) == |digits|
  {
    var s := digits + rest;
    assert forall i | 0 <= i < |digits| :: s[i] in digits;
    assert |digits| < |s| ==> s[|digits|] == rest[0];
  }

  /** Every count reads back, whatever follows it. */
  lemma NumberRoundTrip(n: u64, rest: string)
    requires rest == "" || !IsDigit(rest[0])
    ensures ReadU64(Decimal(n) + rest) == Got(n, rest)
    ensures n <= U32_MAX ==> ReadU32(Decimal(n) + rest) == Got(n, rest)
    ensures ReadNull(Decimal(n) + rest) == Failed
  {
    var s := Decimal(n) + rest;
    assert s[0] == Decimal(n)[0] && s[0] in Decimal(n);
    assert SkipSpace(s) == s;
    DigitRunExact(Decimal(n), rest);
    assert s[..|Decimal(n)|] == Decimal(n) && s[|Decimal(n)|..] == rest;
    DecimalRoundTrip(n);
    assert !("null" <= s) by { assert "null"[0] == 'n'; }
  }

  // ---------------------------------------------------------------- strings

  function HexDigit(n: nat): (c: char)
    requires n < 16
  {
    if n < 10 then ('0' as int + n) as char else ('a' as int + n - 10) as char
  }

  /** `to_digit(16)`: either letter case. */
  function HexValue(c: char): (r: Option<nat>)
    ensures r.Some? ==> r.value < 16
  {
    if '0' <= c <= '9' then Some(c as int - '0' as int)
    else if 'a' <= c <= 'f' then Some(c as int - 'a' as int + 10)
    else if 'A' <= c <= 'F' then Some(c as int - 'A' as int + 10)
    else None
  }

  /** How `write_json_string` spells one character. */
  function Escape(c: char): (s: string) {
    match c
    case '"' => "\\\""
    case '\\' => "\\\\"
    case '\n' => "\\n"
    case '\r' => "\\r"
    case '\t' => "\\t"
    case _ =>
      if c < ' ' then "\\u00" + [HexDigit(c as int / 16), HexDigit(c as int % 16)] else [c]
  }

  function EscapeAll(s: string): (r: string) {
    if s == "" then "" else Escape(s[0]) + EscapeAll(s[1..])
  }

  function Quoted(s: string): (r: string) {
    "\"" + EscapeAll(s) + "\""
  }

  /** The character a one-letter escape stands for. */
  function Unescape(c: char): (r: Option<char>) {
    match c
    case '"' => Some('"')
    case '\\' => Some('\\')
    case '/' => Some('/')
    case 'b' => Some('\U{8}')
    case 'f' => Some('\U{C}')
    case 'n' => Some('\n')
    case 'r' => Some('\r')
    case 't' => Some('\t')
    case _ => None
  }

  /** Four hexadecimal digits, when they name a scalar value and not a surrogate half. */
  function ReadHex4(s: string): (r: Read<char>)
    ensures r.Got? ==> |s| >= 4 && r.rest == s[4..]
  {
    if |s| < 4 then Failed
    else
      var a, b, c, d := HexValue(s[0]), HexValue(s[1]), HexValue(s[2]), HexValue(s[3]);
      if a.None? || b.None? || c.None? || d.None? then Failed
      else
        var code := ((a.value * 16 + b.value) * 16 + c.value) * 16 + d.value;
        if 0xD800 <= code < 0xE000 then Failed else Got(code as char, s[4..])
  }

  /** One character of a string body, escaped or raw; not the closing quote. */
  function ReadCharacter(s: string): (r: Read<char>)
    requires s != "" && s[0] != '"'
    ensures r.Got? ==> |r.rest| < |s|
  {
    if s[0] == '\\' then
      if |s| < 2 then Failed
      else if s[1] == 'u' then ReadHex4(s[2..])
      else
        var c := Unescape(s[1]);
        if c.None? then Failed else Got(c.value, s[2..])
    else if s[0] < ' ' then Failed
    else Got(s[0], s[1..])
  }

  /** The rest of a string after its opening quote. */
  function ReadBody(s: string): (r: Read<string>)
    ensures r.Got? ==> |r.rest| < |s|
    decreases |s|
  {
    if s == "" then Failed
    else if s[0] == '"' then Got("", s[1..])
    else
      var c := ReadCharacter(s);
      if c.Failed? then Failed
      else
        var tail := ReadBody(c.rest);
        if tail.Failed? then Failed else Got([c.value] + tail.value, tail.rest)
  }

  function ReadString(s: string): (r: Read<string>)
    ensures r.Got? ==> |r.rest| < |s|
  {
    var open := Punctuation(s, '"');
    if open.Failed? then Failed else ReadBody(open.rest)
  }

  /** One written character reads back, whatever follows it. */
  lemma CharacterRoundTrip(c: char, rest: string)
    ensures (Escape(c) + rest)[0] != '"' && ReadCharacter(Escape(c) + rest) == Got(c, rest)
  {
    var s := Escape(c) + rest;
    if c < ' ' && c != '\n' && c != '\r' && c != '\t' {
      var hi, lo := c as int / 16, c as int % 16;
      var digits := s[2..];
      assert digits == "00" + [HexDigit(hi), HexDigit(lo)] + rest;
      assert HexValue(HexDigit(hi)) == Some(hi) && HexValue(HexDigit(lo)) == Some(lo);
      assert HexValue('0') == Some(0);
      assert digits[0] == '0' && digits[1] == '0' && digits[2] == HexDigit(hi) && digits[3] == HexDigit(lo);
      assert digits[4..] == rest;
    } else {
      assert s[|Escape(c)|..] == rest;
    }
  }

  lemma {:induction false} BodyRoundTrip(value: string, rest: string)
    ensures ReadBody(EscapeAll(value) + "\"" + rest) == Got(value, rest)
  {
    var s := EscapeAll(value) + "\"" + rest;
    if value == "" {
      assert s == "\"" + rest;
    } else {
      var more := EscapeAll(value[1..]) + "\"" + rest;
      assert s == Escape(value[0]) + more;
      CharacterRoundTrip(value[0], more);
      BodyRoundTrip(value[1..], rest);
      assert value == [value[0]] + value[1..];
    }
  }

  /** No character needs an escape. */
  predicate Plain(s: string) {
    forall i | 0 <= i < |s| :: s[i] >= ' ' && s[i] != '"' && s[i] != '\\'
  }

  /** The text between two quotes, as a literal in the source has it. */
  function Bare(s: string): (r: string) {
    "\"" + s + "\""
  }

  lemma {:induction false} PlainQuoted(s: string)
    requires Plain(s)
    ensures EscapeAll(s) == s && Quoted(s) == Bare(s)
  {
    if s != "" {
      PlainQuoted(s[1..]);
      assert s == [s[0]] + s[1..];
    }
  }

  /** Every string of scalar values reads back, whatever follows it. */
  lemma StringRoundTrip(value: string, rest: string)
    ensures ReadString(Quoted(value) + rest) == Got(value, rest)
  {
    var s := Quoted(value) + rest;
    assert s[0] == '"' && s[1..] == EscapeAll(value) + "\"" + rest;
    BodyRoundTrip(value, rest);
  }

  // ---------------------------------------------------------------- keys and arrays

  /** An object key and its colon. */
  function ReadKey(s: string): (r: Read<string>)
    ensures r.Got? ==> |r.rest| < |s|
  {
    var key := ReadString(s);
    if key.Failed? then Failed
    else
      var colon := Punctuation(key.rest, ':');
      if colon.Failed? then Failed else Got(key.value, colon.rest)
  }

  lemma PunctuationHere(c: char, rest: string)
    requires !IsSpace(c)
    ensures Punctuation([c] + rest, c) == Got((), rest)
    ensures forall d | d != c :: Punctuation([c] + rest, d) == Failed
    ensures SkipSpace([c] + rest) == [c] + rest
  {
    assert ([c] + rest)[1..] == rest;
  }

  lemma KeyRoundTrip(key: string, rest: string)
    ensures ReadKey(Quoted(key) + ":" + rest) == Got(key, rest)
  {
    assert Quoted(key) + ":" + rest == Quoted(key) + ([':'] + rest);
    StringRoundTrip(key, [':'] + rest);
    PunctuationHere(':', rest);
  }

  ghost predicate Progresses<T>(read: string -> Read<T>) {
    forall s :: read(s).Got? ==> |read(s).rest| < |s|
  }

  /** One or more comma-separated items, up to the closing bracket. */
  function ReadItems<T>(read: string -> Read<T>, s: string): (r: Read<seq<T>>)
    requires Progresses(read)
    ensures r.Got? ==> |r.rest| < |s|
    decreases |s|
  {
    var item := read(s);
    if item.Failed? then Failed
    else
      var comma := Punctuation(item.rest, ',');
      if comma.Got? then
        var more := ReadItems(read, comma.rest);
        if more.Failed? then Failed else Got([item.value] + more.value, more.rest)
      else Got([item.value], SkipSpace(item.rest))
  }

  function ReadArray<T>(read: string -> Read<T>, s: string): (r: Read<seq<T>>)
    requires Progresses(read)
    ensures r.Got? ==> |r.rest| < |s|
  {
    var open := Punctuation(s, '[');
    if open.Failed? then Failed
    else
      var empty := Punctuation(open.rest, ']');
      if empty.Got? then Got([], empty.rest)
      else
        var items := ReadItems(read, SkipSpace(open.rest));
        if items.Failed? then Failed
        else
          var close := Punctuation(items.rest, ']');
          if close.Failed? then Failed else Got(items.value, close.rest)
  }

  function JoinItems<T>(write: T -> string, items: seq<T>): (r: string) {
    if items == [] then ""
    else write(items[0]) + (if |items| == 1 then "" else "," + JoinItems(write, items[1..]))
  }

  function WriteArray<T>(write: T -> string, items: seq<T>): (r: string) {
    "[" + JoinItems(write, items) + "]"
  }

  lemma JoinFirst<T>(write: T -> string, items: seq<T>, n: nat)
    requires 0 < n <= |items|
    ensures JoinItems(write, items[..n]) ==
            write(items[0]) + if n == 1 then "" else "," + JoinItems(write, items[1..][..n - 1])
  {
    assert items[..n][1..] == items[1..][..n - 1];
  }

  lemma {:induction false} JoinOneMore<T>(write: T -> string, items: seq<T>, n: nat)
    requires n < |items|
    ensures JoinItems(write, items[..n + 1])
              == JoinItems(write, items[..n]) + (if n > 0 then "," else "") + write(items[n])
    decreases n
  {
    if n == 0 {
      assert items[..1] == [items[0]];
    } else {
      JoinOneMore(write, items[1..], n - 1);
      JoinFirst(write, items, n);
      JoinFirst(write, items, n + 1);
    }
  }

  /** What an item writer and reader promise each other. */
  ghost predicate Inverse<T(!new)>(write: T -> string, read: string -> Read<T>, domain: T -> bool) {
    && Progresses(read)
    && (forall v, rest: string {:trigger read(write(v) + rest)} :: domain(v) ==> read(write(v) + rest) == Got(v, rest))
    && (forall v {:trigger write(v)} :: domain(v) ==> write(v) != "" && !IsSpace(write(v)[0]) && write(v)[0] != ']')
  }

  lemma {:induction false} ItemsRoundTrip<T(!new)>(write: T -> string, read: string -> Read<T>, domain: T -> bool,
                                                   items: seq<T>, rest: string)
    requires Inverse(write, read, domain) && items != [] && forall v | v in items :: domain(v)
    ensures ReadItems(read, JoinItems(write, items) + "]" + rest) == Got(items, "]" + rest)
    decreases |items|
  {
    var s := JoinItems(write, items) + "]" + rest;
    var first := items[0];
    assert first in items;
    if |items| == 1 {
      assert s == write(first) + ("]" + rest);
      assert read(write(first) + ("]" + rest)) == Got(first, "]" + rest);
      PunctuationHere(']', rest);
      assert "]" + rest == [']'] + rest;
      assert items == [first];
    } else {
      var more := JoinItems(write, items[1..]) + "]" + rest;
      assert s == write(first) + ([','] + more);
      assert read(write(first) + ([','] + more)) == Got(first, [','] + more);
      PunctuationHere(',', more);
      ItemsRoundTrip(write, read, domain, items[1..], rest);
      assert items == [first] + items[1..];
    }
  }

  /** Arrays of any length read back, whatever follows. */
  lemma ArrayRoundTrip<T(!new)>(write: T -> string, read: string -> Read<T>, domain: T -> bool, items: seq<T>,
                                rest: string)
    requires Inverse(write, read, domain) && forall v | v in items :: domain(v)
    ensures ReadArray(read, WriteArray(write, items) + rest) == Got(items, rest)
  {
    var inner := JoinItems(write, items) + "]" + rest;
    assert WriteArray(write, items) + rest == ['['] + inner;
    PunctuationHere('[', inner);
    if items == [] {
      assert inner == [']'] + rest;
      PunctuationHere(']', rest);
    } else {
      assert items[0] in items;
      var w := write(items[0]);
      assert inner[0] == w[0];
      assert SkipSpace(inner) == inner;
      ItemsRoundTrip(write, read, domain, items, rest);
      PunctuationHere(']', rest);
      assert "]" + rest == [']'] + rest;
    }
  }

  // ---------------------------------------------------------------- nesting

  datatype Mode = Outside | InString | Escaped

  /** Bracket depth and string mode after some text. */
  datatype Nesting = Nesting(depth: int, mode: Mode)

  function Advance(n: Nesting, c: char): (r: Nesting) {
    match n.mode
    case Outside =>
      if c == '"' then n.(mode := InString)
      else if c == '{' || c == '[' then n.(depth := n.depth + 1)
      else if c == '}' || c == ']' then n.(depth := n.depth - 1)
      else n
    case InString =>
      if c == '"' then n.(mode := Outside) else if c == '\\' then n.(mode := Escaped) else n
    case Escaped => n.(mode := InString)
  }

  function Scan(n: Nesting, s: string): (r: Nesting)
    decreases |s|
  {
    if s == "" then n else Scan(Advance(n, s[0]), s[1..])
  }

  /** Scanning `s` never closes more than it opened. */
  predicate Stays(n: Nesting, s: string, floor: int)
    decreases |s|
  {
    floor <= n.depth && (s == "" || Stays(Advance(n, s[0]), s[1..], floor))
  }

  lemma {:induction false} ScanConcat(n: Nesting, a: string, b: string)
    ensures Scan(n, a + b) == Scan(Scan(n, a), b)
    decreases |a|
  {
    if a == "" {
      assert a + b == b;
    } else {
      assert (a + b)[1..] == a[1..] + b;
      ScanConcat(Advance(n, a[0]), a[1..], b);
    }
  }

  lemma {:induction false} StaysConcat(n: Nesting, a: string, b: string, floor: int)
    ensures Stays(n, a + b, floor) <==> Stays(n, a, floor) && Stays(Scan(n, a), b, floor)
    decreases |a|
  {
    if a == "" {
      assert a + b == b;
      if b != "" { assert Stays(n, b, floor) ==> floor <= n.depth; }
    } else {
      assert (a + b)[1..] == a[1..] + b;
      StaysConcat(Advance(n, a[0]), a[1..], b, floor);
    }
  }

  lemma {:induction false} ScanShift(n: Nesting, s: string, k: int, floor: int)
    ensures Scan(n.(depth := n.depth + k), s) == Scan(n, s).(depth := Scan(n, s).depth + k)
    ensures Stays(n.(depth := n.depth + k), s, floor + k) <==> Stays(n, s, floor)
    decreases |s|
  {
    if s != "" {
      assert Advance(n.(depth := n.depth + k), s[0]) == Advance(n, s[0]).(depth := Advance(n, s[0]).depth + k);
      ScanShift(Advance(n, s[0]), s[1..], k, floor);
    }
  }

  const TOP: Nesting := Nesting(0, Outside)

  /** Complete values and separators: every bracket closed, every string ended. */
  predicate Balanced(s: string) {
    Scan(TOP, s) == TOP && Stays(TOP, s, 0)
  }

  lemma BalancedConcat(a: string, b: string)
    requires Balanced(a) && Balanced(b)
    ensures Balanced(a + b)
  {
    ScanConcat(TOP, a, b);
    StaysConcat(TOP, a, b, 0);
  }

  lemma BalancedBracket(open: char, a: string, close: char)
    requires Balanced(a) && (open == '{' || open == '[') && (close == '}' || close == ']')
    ensures Balanced([open] + a + [close])
  {
    var inner := Nesting(1, Outside);
    assert Advance(TOP, open) == inner && Advance(inner, close) == TOP;
    assert TOP.(depth := TOP.depth + 1) == inner;
    ScanShift(TOP, a, 1, -1);
    ScanShift(TOP, a, 1, 0);
    var s := [open] + a + [close];
    assert s == [open] + (a + [close]) && s[1..] == a + [close];
    ScanConcat(inner, a, [close]);
    StaysConcat(inner, a, [close], 0);
    StaysWeaken(inner, a, 1, 0);
    assert [close][1..] == "";
  }

  lemma {:induction false} StaysWeaken(n: Nesting, s: string, high: int, low: int)
    requires Stays(n, s, high) && low <= high
    ensures Stays(n, s, low)
    decreases |s|
  {
    if s != "" { StaysWeaken(Advance(n, s[0]), s[1..], high, low); }
  }

  /** A character that neither opens, closes nor quotes. */
  predicate Neutral(c: char) {
    c != '"' && c != '{' && c != '[' && c != '}' && c != ']'
  }

  lemma {:induction false} NeutralBalanced(s: string)
    requires forall c | c in s :: Neutral(c)
    ensures Balanced(s)
  {
    if s != "" {
      assert s[0] in s;
      NeutralBalanced(s[1..]);
    }
  }

  /** What a reader took from `s` when it left `rest`. */
  ghost predicate Takes(s: string, rest: string) {
    |rest| <= |s| && s[|s| - |rest|..] == rest && Balanced(s[..|s| - |rest|])
  }

  lemma TakesNothing(s: string)
    ensures Takes(s, s)
  {
    assert s[0..] == s && s[..0] == "";
  }

  lemma TakesThen(s: string, mid: string, rest: string)
    requires Takes(s, mid) && Takes(mid, rest)
    ensures Takes(s, rest)
  {
    var a, b := s[..|s| - |mid|], mid[..|mid| - |rest|];
    assert s == a + mid && mid == b + rest;
    assert s == (a + b) + rest;
    assert s[..|s| - |rest|] == a + b;
    BalancedConcat(a, b);
  }

  lemma TakesPrefix(taken: string, rest: string)
    requires Balanced(taken)
    ensures Takes(taken + rest, rest)
  {
    var s := taken + rest;
    assert s[..|s| - |rest|] == taken && s[|s| - |rest|..] == rest;
  }

  lemma SpaceBalanced(space: string)
    requires AllSpace(space)
    ensures Balanced(space)
  {
    assert forall c | c in space :: Neutral(c);
    NeutralBalanced(space);
  }

  lemma {:induction false} SpaceSplit(s: string) returns (space: string)
    ensures AllSpace(space) && s == space + SkipSpace(s)
  {
    space := "";
    if s != "" && IsSpace(s[0]) {
      var more := SpaceSplit(s[1..]);
      space := [s[0]] + more;
      assert s == [s[0]] + s[1..];
    }
  }

  lemma SkipSpaceTakes(s: string) returns (space: string)
    ensures AllSpace(space) && s == space + SkipSpace(s) && Takes(s, SkipSpace(s))
  {
    space := SpaceSplit(s);
    SpaceBalanced(space);
    TakesPrefix(space, SkipSpace(s));
  }

  lemma NeutralPunctuationTakes(s: string, c: char)
    requires Neutral(c) && Punctuation(s, c).Got?
    ensures Takes(s, Punctuation(s, c).rest)
  {
    var space := SkipSpaceTakes(s);
    var t := SkipSpace(s);
    NeutralBalanced([c]);
    assert t == [c] + t[1..];
    TakesPrefix([c], t[1..]);
    TakesThen(s, t, t[1..]);
  }

  lemma NumberTakes(s: string)
    requires ReadU64(s).Got?
    ensures Takes(s, ReadU64(s).rest)
  {
    var space := SkipSpaceTakes(s);
    var t := SkipSpace(s);
    var n := DigitRun(t);
    NeutralBalanced(t[..n]);
    assert t == t[..n] + t[n..];
    TakesPrefix(t[..n], t[n..]);
    TakesThen(s, t, t[n..]);
  }

  lemma NullTakes(s: string)
    requires ReadNull(s).Got?
    ensures Takes(s, ReadNull(s).rest)
  {
    var space := SkipSpaceTakes(s);
    var t := SkipSpace(s);
    NeutralBalanced("null");
    assert t == "null" + t[4..];
    TakesPrefix("null", t[4..]);
    TakesThen(s, t, t[4..]);
  }

  const QUOTING: Nesting := Nesting(0, InString)

  /** A character that keeps a string body going. */
  predicate Unremarkable(c: char) {
    c != '"' && c != '\\'
  }

  lemma {:induction false} PlainInString(s: string)
    requires forall c | c in s :: Unremarkable(c)
    ensures Scan(QUOTING, s) == QUOTING && Stays(QUOTING, s, 0)
  {
    if s != "" {
      assert s[0] in s;
      PlainInString(s[1..]);
    }
  }

  /** One character of a body leaves the scan inside the string. */
  lemma CharacterScans(s: string)
    requires s != "" && s[0] != '"' && ReadCharacter(s).Got?
    ensures var n := |s| - |ReadCharacter(s).rest|;
            s[n..] == ReadCharacter(s).rest && Scan(QUOTING, s[..n]) == QUOTING && Stays(QUOTING, s[..n], 0)
  {
    var n := |s| - |ReadCharacter(s).rest|;
    var u := s[..n];
    if s[0] == '\\' {
      assert u[1..][1..] == u[2..];
      if s[1] == 'u' {
        assert u[2..] == s[2..][..4];
        var h := u[2..];
        assert h == [h[0], h[1], h[2], h[3]];
        PlainInString(u[2..]);
      } else {
        assert u[2..] == "";
      }
      assert Scan(QUOTING, u) == Scan(Nesting(0, Escaped), u[1..]) == Scan(QUOTING, u[1..][1..]);
      assert Stays(QUOTING, u, 0) == Stays(Nesting(0, Escaped), u[1..], 0) == Stays(QUOTING, u[1..][1..], 0);
    } else {
      assert u == [s[0]];
      PlainInString(u);
    }
  }

  lemma {:induction false} BodyScans(s: string)
    requires ReadBody(s).Got?
    ensures var n := |s| - |ReadBody(s).rest|;
            s[n..] == ReadBody(s).rest && Scan(QUOTING, s[..n]) == TOP && Stays(QUOTING, s[..n], 0)
    decreases |s|
  {
    var n := |s| - |ReadBody(s).rest|;
    if s[0] == '"' {
      assert s[..n] == ['"'];
    } else {
      CharacterScans(s);
      var t := ReadCharacter(s).rest;
      var k := |s| - |t|;
      BodyScans(t);
      assert s[..n] == s[..k] + t[..n - k];
      ScanConcat(QUOTING, s[..k], t[..n - k]);
      StaysConcat(QUOTING, s[..k], t[..n - k], 0);
      assert s[n..] == t[n - k..];
    }
  }

  lemma LiteralTakes(t: string, body: string, rest: string)
    requires t == ['"'] + body && |rest| <= |body| && body[|body| - |rest|..] == rest
    requires Scan(QUOTING, body[..|body| - |rest|]) == TOP && Stays(QUOTING, body[..|body| - |rest|], 0)
    ensures Takes(t, rest)
  {
    var taken := body[..|body| - |rest|];
    var literal := ['"'] + taken;
    assert literal[1..] == taken;
    assert Balanced(literal);
    assert t == literal + rest;
    TakesPrefix(literal, rest);
  }

  lemma StringTakes(s: string)
    requires ReadString(s).Got?
    ensures Takes(s, ReadString(s).rest)
  {
    var space := SkipSpaceTakes(s);
    QuotedTakes(SkipSpace(s));
    TakesThen(s, SkipSpace(s), ReadString(s).rest);
  }

  lemma QuotedTakes(t: string)
    requires t != "" && t[0] == '"' && ReadBody(t[1..]).Got?
    ensures Takes(t, ReadBody(t[1..]).rest)
  {
    BodyScans(t[1..]);
    assert t == ['"'] + t[1..];
    LiteralTakes(t, t[1..], ReadBody(t[1..]).rest);
  }

  lemma EnclosedTakes(t: string, open: char, inner: string, u: string, close: char, rest: string)
    requires (open == '{' || open == '[') && (close == '}' || close == ']')
    requires t == [open] + inner && Takes(inner, u) && u == [close] + rest
    ensures Takes(t, rest)
  {
    var contents := inner[..|inner| - |u|];
    BalancedBracket(open, contents, close);
    assert inner == contents + u;
    assert t == ([open] + contents + [close]) + rest;
    TakesPrefix([open] + contents + [close], rest);
  }

  lemma PunctuationSplit(s: string, c: char)
    requires Punctuation(s, c).Got?
    ensures Takes(s, SkipSpace(s)) && SkipSpace(s) == [c] + Punctuation(s, c).rest
  {
    var space := SkipSpaceTakes(s);
  }

  /** An opening bracket, balanced contents and a closing bracket are balanced. */
  lemma BracketTakes(s: string, open: char, inner: string, last: string, close: char, rest: string)
    requires (open == '{' || open == '[') && (close == '}' || close == ']')
    requires Punctuation(s, open) == Got((), inner) && Takes(inner, last) && Punctuation(last, close) == Got((), rest)
    ensures Takes(s, rest)
  {
    PunctuationSplit(s, open);
    PunctuationSplit(last, close);
    EnclosedWithin(s, SkipSpace(s), open, inner, last, SkipSpace(last), close, rest);
  }

  lemma EnclosedWithin(s: string, t: string, open: char, inner: string, last: string, u: string, close: char,
                       rest: string)
    requires (open == '{' || open == '[') && (close == '}' || close == ']')
    requires Takes(s, t) && t == [open] + inner && Takes(inner, last) && Takes(last, u) && u == [close] + rest
    ensures Takes(s, rest)
  {
    TakesThen(inner, last, u);
    EnclosedTakes(t, open, inner, u, close, rest);
    TakesThen(s, t, rest);
  }

  lemma KeyTakes(s: string)
    requires ReadKey(s).Got?
    ensures Takes(s, ReadKey(s).rest)
  {
    var mid := ReadString(s).rest;
    StringTakes(s);
    NeutralPunctuationTakes(mid, ':');
    TakesThen(s, mid, ReadKey(s).rest);
  }

  ghost predicate ReaderTakes<T>(read: string -> Read<T>) {
    Progresses(read) && forall s :: read(s).Got? ==> Takes(s, read(s).rest)
  }

  lemma {:induction false} ItemsTake<T>(read: string -> Read<T>, s: string)
    requires ReaderTakes(read) && ReadItems(read, s).Got?
    ensures Takes(s, ReadItems(read, s).rest)
    decreases |s|
  {
    var item := read(s);
    var comma := Punctuation(item.rest, ',');
    if comma.Got? {
      NeutralPunctuationTakes(item.rest, ',');
      ItemsTake(read, comma.rest);
      TakesThen(item.rest, comma.rest, ReadItems(read, comma.rest).rest);
      TakesThen(s, item.rest, ReadItems(read, comma.rest).rest);
    } else {
      var space := SkipSpaceTakes(item.rest);
      TakesThen(s, item.rest, SkipSpace(item.rest));
    }
  }

  lemma ArrayTakes<T>(read: string -> Read<T>, s: string)
    requires ReaderTakes(read) && ReadArray(read, s).Got?
    ensures Takes(s, ReadArray(read, s).rest)
  {
    var open := Punctuation(s, '[');
    var rest := ReadArray(read, s).rest;
    if Punctuation(open.rest, ']').Got? {
      TakesNothing(open.rest);
      BracketTakes(s, '[', open.rest, open.rest, ']', rest);
    } else {
      var space := SkipSpaceTakes(open.rest);
      var items := ReadItems(read, SkipSpace(open.rest));
      ItemsTake(read, SkipSpace(open.rest));
      TakesThen(open.rest, SkipSpace(open.rest), items.rest);
      BracketTakes(s, '[', open.rest, items.rest, ']', rest);
    }
  }

  // ---------------------------------------------------------------- whole documents

  /** One braced object with only white space around it. */
  ghost predicate Document(s: string, lead: string, body: string, trail: string) {
    && s == lead + "{" + body + "}" + trail
    && AllSpace(lead) && AllSpace(trail) && Balanced(body)
  }

  lemma DocumentFrom(s: string, inner: string, last: string, rest: string) returns (lead: string, body: string)
    requires Punctuation(s, '{') == Got((), inner) && Takes(inner, last) && Punctuation(last, '}') == Got((), rest)
    requires SkipSpace(rest) == ""
    ensures Document(s, lead, body, rest)
  {
    PunctuationSplit(s, '{');
    PunctuationSplit(last, '}');
    lead := SkipSpaceTakes(s);
    body := BodyOf(s, lead, inner, last, SkipSpace(last), rest);
    BlankIsSpace(rest);
  }

  lemma BlankIsSpace(s: string)
    requires SkipSpace(s) == ""
    ensures AllSpace(s)
  {
    var space := SkipSpaceTakes(s);
    assert space + "" == space;
  }

  lemma BodyOf(s: string, lead: string, inner: string, last: string, close: string, trail: string)
    returns (body: string)
    requires s == lead + (['{'] + inner) && Takes(inner, last) && Takes(last, close) && close == ['}'] + trail
    ensures Balanced(body) && s == lead + "{" + body + "}" + trail
  {
    TakesThen(inner, last, close);
    body := inner[..|inner| - |close|];
    Assembled(s, lead, inner, body, close, trail);
  }

  lemma Assembled(s: string, lead: string, inner: string, body: string, close: string, trail: string)
    requires s == lead + ("{" + inner) && |close| <= |inner| && close == "}" + trail
    requires body == inner[..|inner| - |close|] && close == inner[|inner| - |close|..]
    ensures s == lead + "{" + body + "}" + trail
  {
    assert inner == body + ("}" + trail);
  }

  /** A balanced text cannot go on past a brace that closes more than it opened. */
  lemma ClosedCannotExtend(a: string, b: string)
    requires Balanced(a) && Balanced(b)
    ensures !(a + "}" <= b)
  {
    if a + "}" <= b {
      var tail := b[|a| + 1..];
      assert b == (a + "}") + tail;
      StaysConcat(TOP, a + "}", tail, 0);
      StaysConcat(TOP, a, "}", 0);
      DeepBrace();
    }
  }

  lemma DeepBrace()
    ensures !Stays(TOP, "}", 0)
  {
    assert Advance(TOP, '}') == Nesting(-1, Outside);
  }

  lemma {:induction false} SkipSpaceExact(lead: string, rest: string)
    requires AllSpace(lead) && rest != "" && !IsSpace(rest[0])
    ensures SkipSpace(lead + rest) == rest
  {
    if lead == "" {
      assert lead + rest == rest;
    } else {
      assert lead == [lead[0]] + lead[1..];
      assert (lead + rest)[1..] == lead[1..] + rest;
      SkipSpaceExact(lead[1..], rest);
    }
  }

  lemma {:induction false} SkipSpacePrefix(p: string, s: string)
    requires p <= s && SkipSpace(p) != ""
    ensures SkipSpace(p) <= SkipSpace(s) && |p| - |SkipSpace(p)| == |s| - |SkipSpace(s)|
  {
    if IsSpace(p[0]) { SkipSpacePrefix(p[1..], s[1..]); }
  }

  lemma ShorterBodyEnds(c1: string, c2: string, b1: string, b2: string, t1: string, t2: string)
    requires c1 == b1 + "}" + t1 && c2 == b2 + "}" + t2 && c1 <= c2
    ensures |b1| < |b2| ==> b1 + "}" <= b2
    ensures |b2| < |b1| ==> b2 + "}" <= b1
    ensures |b1| == |b2| ==> b1 == b2 && t1 <= t2
  {
    assert c1 == c2[..|c1|];
    if |b1| < |b2| {
      assert (b1 + "}") == c1[..|b1| + 1] == c2[..|b1| + 1] == b2[..|b1| + 1];
    } else if |b2| < |b1| {
      assert (b2 + "}") == c2[..|b2| + 1] == c1[..|b2| + 1] == b1[..|b2| + 1];
    } else {
      assert b1 == c1[..|b1|] && b2 == c2[..|b2|];
      assert t1 == c1[|b1| + 1..] && t2 == c2[|b2| + 1..];
    }
  }

  /** Two documents, one a prefix of the other, differ only in trailing white space. */
  lemma DocumentsPrefixFree(p: string, s: string, l1: string, b1: string, t1: string, l2: string, b2: string,
                            t2: string)
    requires Document(p, l1, b1, t1) && Document(s, l2, b2, t2) && p <= s
    ensures AllSpace(s[|p|..])
  {
    var r1, r2 := "{" + b1 + "}" + t1, "{" + b2 + "}" + t2;
    assert p == l1 + r1 && s == l2 + r2;
    SkipSpaceExact(l1, r1);
    SkipSpaceExact(l2, r2);
    SkipSpacePrefix(p, s);
    var c1, c2 := b1 + "}" + t1, b2 + "}" + t2;
    assert r1 == "{" + c1 && r2 == "{" + c2;
    assert c1 == r1[1..] && c2 == r2[1..];
    assert c1 <= c2;
    ClosedCannotExtend(b1, b2);
    ClosedCannotExtend(b2, b1);
    ShorterBodyEnds(c1, c2, b1, b2, t1, t2);
    assert s == (l2 + "{" + b2 + "}") + t2;
    assert s[|p|..] == t2[|t1|..];
    assert forall c | c in t2[|t1|..] :: c in t2;
  }

  lemma EndsInBrace(text: string, cut: nat)
    requires cut < |text| && text[|text| - 1] == '}'
    ensures !AllSpace(text[cut..])
  {
    assert text[cut..][|text| - 1 - cut] == '}';
    assert '}' in text[cut..];
  }
}
