/** The log capture of sdk/python/_crikey_modern_worker.py: what a plugin writes, in
    chunks of any size, becomes byte-bounded lines. Texts are surrogate free, so every
    character has a UTF-8 encoding.
 */
module LogCaptures {
  import opened Text
  import JsonText

  const MAX_LOG_LINES: nat := 512
  const MAX_LOG_LINE_BYTES: nat := 4096
  const TRUNCATION_MARKER: string := " \U{2026}[log line truncated]"

  // ---------------------------------------------------------------- the whole text at once

  /** The lines a newline ended. */
  function Finished(text: string): (lines: seq<string>) {
    if text == "" then []
    else if text[|text| - 1] == '\n' then Finished(text[..|text| - 1]) + [Tail(text[..|text| - 1])]
    else Finished(text[..|text| - 1])
  }

  /** What follows the last newline. */
  function Tail(text: string): (s: string) {
    if text == "" || text[|text| - 1] == '\n' then "" else Tail(text[..|text| - 1]) + [text[|text| - 1]]
  }

  /** Finished lines, and a trailing fragment as its own line. */
  function Logical(text: string): (lines: seq<string>) {
    Finished(text) + if Tail(text) == "" then [] else [Tail(text)]
  }

  /** The longest prefix of whole characters within `room` bytes. */
  function Clip(s: string, room: nat): (r: string) {
    if s == "" || CharBytes(s[0]) > room then "" else [s[0]] + Clip(s[1..], room - CharBytes(s[0]))
  }

  function Bounded(line: string): (r: string) {
    var kept := Clip(line, MAX_LOG_LINE_BYTES);
    if kept == line then kept else kept + TRUNCATION_MARKER
  }

  function BoundedAll(lines: seq<string>): (r: seq<string>)
    ensures |r| == |lines| && forall i | 0 <= i < |lines| :: r[i] == Bounded(lines[i])
  {
    seq(|lines|, i requires 0 <= i < |lines| => Bounded(lines[i]))
  }

  function DroppedNotice(n: nat): (s: string) {
    "[warn][crikey] " + JsonText.Decimal(n) + " further log line(s) dropped at the 512 line per-request cap"
  }

  /** What `take` reports for a text, however it was written. */
  function Report(text: string): (r: seq<string>) {
    Summarized(Logical(text))
  }

  function Summarized(logical: seq<string>): (r: seq<string>) {
    var lines := BoundedAll(logical);
    if |lines| <= MAX_LOG_LINES then lines
    else lines[..MAX_LOG_LINES] + [DroppedNotice(|lines| - MAX_LOG_LINES)]
  }

  function Joined(lines: seq<string>): (s: string) {
    if lines == [] then "" else Joined(lines[..|lines| - 1]) + lines[|lines| - 1] + "\n"
  }

  /** Lines and tail are the text again, and no line holds a newline. */
  lemma {:induction false} SplitIsExact(text: string)
    ensures Joined(Finished(text)) + Tail(text) == text
    ensures forall i | 0 <= i < |Finished(text)| :: '\n' !in Finished(text)[i]
    ensures '\n' !in Tail(text)
  {
    if text != "" {
      var init := text[..|text| - 1];
      SplitIsExact(init);
      assert text == init + [text[|text| - 1]];
      if text[|text| - 1] == '\n' {
        assert Finished(text)[..|Finished(init)|] == Finished(init);
        assert Joined(Finished(text)) == Joined(Finished(init)) + Tail(init) + "\n";
      }
    }
  }

  /** The clipped text is a prefix, fits, and cannot be lengthened. */
  lemma {:induction false} ClipIsLongest(s: string, room: nat)
    ensures Clip(s, room) <= s && Utf8Length(Clip(s, room)) <= room
    ensures Clip(s, room) != s ==> Utf8Length(s[..|Clip(s, room)| + 1]) > room
  {
    if s != "" {
      if CharBytes(s[0]) > room {
        assert s[..1][0] == s[0] && s[..1][1..] == "";
      } else {
        ClipIsLongest(s[1..], room - CharBytes(s[0]));
        var c := Clip(s, room);
        assert c[1..] == Clip(s[1..], room - CharBytes(s[0]));
        assert s == [s[0]] + s[1..];
        if c != s { assert s[..|c| + 1][1..] == s[1..][..|c|]; }
      }
    }
  }

  // ---------------------------------------------------------------- clipping in pieces

  lemma {:induction false} ClipWhole(s: string, room: nat)
    requires Utf8Length(s) <= room
    ensures Clip(s, room) == s
  {
    if s != "" { ClipWhole(s[1..], room - CharBytes(s[0])); }
  }

  /** Once a prefix fits, the rest is clipped to what it leaves. */
  lemma {:induction false} ClipAfter(a: string, b: string, room: nat)
    requires Utf8Length(a) <= room
    ensures Clip(a + b, room) == a + Clip(b, room - Utf8Length(a))
  {
    if a == "" {
      assert a + b == b;
    } else {
      ClipAfter(a[1..], b, room - CharBytes(a[0]));
      assert (a + b)[0] == a[0] && (a + b)[1..] == a[1..] + b;
      var rest := Clip(b, room - Utf8Length(a));
      assert [a[0]] + (a[1..] + rest) == a + rest;
    }
  }

  /** What was cut stays cut, whatever follows. */
  lemma {:induction false} ClipStays(a: string, b: string, room: nat)
    requires Clip(a, room) != a
    ensures Clip(a + b, room) == Clip(a, room)
  {
    assert a != "";
    assert (a + b)[0] == a[0];
    if CharBytes(a[0]) <= room {
      assert (a + b)[1..] == a[1..] + b;
      ClipStays(a[1..], b, room - CharBytes(a[0]));
    }
  }

  /** Looking at no more characters than bytes of room loses nothing. */
  lemma {:induction false} ClipOfCandidate(s: string, room: nat)
    ensures |s| > room ==> Clip(s, room) == Clip(s[..room], room)
  {
    if |s| > room && room > 0 && CharBytes(s[0]) <= room {
      var less := room - CharBytes(s[0]);
      ClipOfCandidate(s[1..], less);
      ClipOfCandidate(s[..room][1..], less);
      assert s[..room][1..] == s[1..][..room - 1];
      assert s[1..][..room - 1][..less] == s[1..][..less];
    }
  }

  // ---------------------------------------------------------------- the capture

  function Concat(parts: seq<string>): (s: string) {
    if parts == [] then "" else Concat(parts[..|parts| - 1]) + parts[|parts| - 1]
  }

  function Capped(lines: seq<string>): (r: seq<string>) {
    if |lines| <= MAX_LOG_LINES then lines else lines[..MAX_LOG_LINES]
  }

  lemma TailOne(text: string, c: char)
    requires c != '\n'
    ensures Tail(text + [c]) == Tail(text) + [c] && Finished(text + [c]) == Finished(text)
  {
    assert (text + [c])[..|text|] == text;
  }

  lemma {:induction false} TailGrows(text: string, fragment: string)
    requires '\n' !in fragment
    ensures Tail(text + fragment) == Tail(text) + fragment && Finished(text + fragment) == Finished(text)
    decreases |fragment|
  {
    if fragment == "" {
      assert text + fragment == text;
    } else {
      var n := |fragment| - 1;
      var init, c := fragment[..n], fragment[n];
      assert c in fragment && fragment == init + [c];
      TailGrows(text, init);
      TailOne(text + init, c);
      assert text + init + [c] == text + fragment;
    }
  }

  lemma NewlineFinishes(text: string)
    ensures Finished(text + "\n") == Finished(text) + [Tail(text)] && Tail(text + "\n") == ""
  {
    assert (text + "\n")[..|text|] == text;
  }

  lemma BoundedMore(lines: seq<string>, line: string)
    ensures BoundedAll(lines + [line]) == BoundedAll(lines) + [Bounded(line)]
  {
  }

  lemma Consecutive(text: string, chunk: string, i: nat, j: nat)
    requires i <= j <= |chunk|
    ensures text + chunk[..i] + chunk[i..j] == text + chunk[..j]
  {
    assert chunk[..i] + chunk[i..j] == chunk[..j];
  }

  lemma ConcatMore(parts: seq<string>, part: string)
    ensures Concat(parts + [part]) == Concat(parts) + part
  {
    assert (parts + [part])[..|parts|] == parts;
  }

  lemma CutStaysCut(tail: string, fragment: string)
    requires Clip(tail, MAX_LOG_LINE_BYTES) != tail
    ensures Clip(tail + fragment, MAX_LOG_LINE_BYTES) == Clip(tail, MAX_LOG_LINE_BYTES) != tail + fragment
    ensures tail + fragment != ""
  {
    ClipStays(tail, fragment, MAX_LOG_LINE_BYTES);
    ClipIsLongest(tail, MAX_LOG_LINE_BYTES);
  }

  lemma FullStaysFull(tail: string, fragment: string)
    requires Utf8Length(tail) == MAX_LOG_LINE_BYTES && fragment != ""
    ensures Clip(tail + fragment, MAX_LOG_LINE_BYTES) == tail != tail + fragment
  {
    ClipAfter(tail, fragment, MAX_LOG_LINE_BYTES);
    assert Clip(fragment, 0) == "" && tail + "" == tail;
  }

  /** What of `fragment` fits after `tail` makes the longest prefix of both. */
  lemma Fitted(tail: string, fragment: string, part: string, cap: nat)
    requires Utf8Length(tail) <= cap && part == Clip(fragment, cap - Utf8Length(tail))
    ensures Clip(tail + fragment, cap) == tail + part
    ensures Utf8Length(tail + part) == Utf8Length(tail) + Utf8Length(part) <= cap
    ensures tail + part == tail + fragment <==> part == fragment
  {
    ClipAfter(tail, fragment, cap);
    FittedSize(tail, fragment, part, cap);
    SameAfter(tail, part, fragment);
  }

  lemma FittedSize(tail: string, fragment: string, part: string, cap: nat)
    requires Utf8Length(tail) <= cap && part == Clip(fragment, cap - Utf8Length(tail))
    ensures Utf8Length(tail + part) == Utf8Length(tail) + Utf8Length(part) <= cap
  {
    ClipIsLongest(fragment, cap - Utf8Length(tail));
    Utf8LengthConcat(tail, part);
  }

  lemma SameAfter(tail: string, part: string, fragment: string)
    ensures tail + part == tail + fragment <==> part == fragment
  {
    assert (tail + part)[|tail|..] == part && (tail + fragment)[|tail|..] == fragment;
  }

  lemma NoRoomForAll(fragment: string, candidate: string, room: nat)
    requires candidate <= fragment && Utf8Length(candidate) > room
    ensures Clip(candidate, room) != fragment
  {
    ClipIsLongest(candidate, room);
  }

  class LogCapture {
    var lines: seq<string>
    var partial: seq<string>
    var partialBytes: nat
    var truncated: bool
    var dropped: nat

    /** Everything captured since the record began. */
    ghost var text: string

    /** The open line holds the longest prefix that fits, and knows whether that is all. */
    ghost predicate OpenLine()
      reads `partial, `partialBytes, `truncated, `text
    {
      var tail := Tail(text);
      && Concat(partial) == Clip(tail, MAX_LOG_LINE_BYTES)
      && partialBytes == Utf8Length(Concat(partial)) <= MAX_LOG_LINE_BYTES
      && (truncated <==> Clip(tail, MAX_LOG_LINE_BYTES) != tail)
      && (partial == [] <==> tail == "")
    }

    ghost predicate ClosedLines()
      reads `lines, `dropped, `text
    {
      var done := BoundedAll(Finished(text));
      lines == Capped(done) && dropped == if |done| <= MAX_LOG_LINES then 0 else |done| - MAX_LOG_LINES
    }

    ghost predicate Valid()
      reads this
    {
      OpenLine() && ClosedLines()
    }

    constructor ()
      ensures Valid() && text == ""
    {
      lines, partial, partialBytes, truncated, dropped, text := [], [], 0, false, 0, "";
    }

    /** Appends what of `fragment` fits. */
    method Append(part: string, cut: bool, ghost before: string, ghost fragment: string)
      requires fragment != "" && text == before + fragment && Tail(text) == Tail(before) + fragment
      requires Concat(partial) == Tail(before) && partialBytes == Utf8Length(Tail(before)) < MAX_LOG_LINE_BYTES
      requires part == Clip(fragment, MAX_LOG_LINE_BYTES - partialBytes) && (cut <==> part != fragment) && !truncated
      modifies `partial, `partialBytes, `truncated
      ensures OpenLine()
    {
      Fitted(Tail(before), fragment, part, MAX_LOG_LINE_BYTES);
      ConcatMore(partial, part);
      truncated := cut;
      partial, partialBytes := partial + [part], partialBytes + Utf8Length(part);
    }

    method Extend(fragment: string)
      requires Valid() && '\n' !in fragment
      modifies `partial, `partialBytes, `truncated, `text
      ensures Valid() && text == old(text) + fragment
    {
      ghost var tail := Tail(text);
      TailGrows(text, fragment);
      text := text + fragment;
      if fragment == "" {
        assert tail + fragment == tail;
        return;
      }
      if truncated {
        CutStaysCut(tail, fragment);
        return;
      }
      Fill(fragment, old(text));
    }

    /** Adds to a line not yet cut. */
    method Fill(fragment: string, ghost before: string)
      requires fragment != "" && text == before + fragment && Tail(text) == Tail(before) + fragment
      requires Concat(partial) == Tail(before) && partialBytes == Utf8Length(Tail(before)) <= MAX_LOG_LINE_BYTES
      requires !truncated && (partial == [] <==> Tail(before) == "")
      modifies `partial, `partialBytes, `truncated
      ensures OpenLine()
    {
      var room := MAX_LOG_LINE_BYTES - partialBytes;
      if room <= 0 {
        FullStaysFull(Tail(before), fragment);
        truncated := true;
        return;
      }
      var candidate := if |fragment| <= room then fragment else fragment[..room];
      ClipOfCandidate(fragment, room);
      if Utf8Length(candidate) <= room {
        ClipWhole(candidate, room);
        Append(candidate, |candidate| < |fragment|, before, fragment);
      } else {
        NoRoomForAll(fragment, candidate, room);
        Append(Clip(candidate, room), true, before, fragment);
      }
    }

    /** Ends the open line; `ended` is what then counts as written. */
    method Commit(ghost ended: string)
      requires Valid() && Finished(ended) == Finished(text) + [Tail(text)] && Tail(ended) == ""
      modifies this
      ensures Valid() && text == ended
    {
      var line := Concat(partial);
      if truncated { line := line + TRUNCATION_MARKER; }
      assert line == Bounded(Tail(text));
      BoundedMore(Finished(text), Tail(text));
      partial, partialBytes, truncated := [], 0, false;
      text := ended;
      if |lines| < MAX_LOG_LINES {
        lines := lines + [line];
      } else {
        dropped := dropped + 1;
      }
    }

    /** `write`, while capture is active. */
    method Write(chunk: string)
      requires Valid()
      modifies this
      ensures Valid() && text == old(text) + chunk
    {
      var start := 0;
      while true
        invariant start <= |chunk| && Valid() && text == old(text) + chunk[..start]
        decreases |chunk| - start
      {
        var newline := FindNewline(chunk, start);
        Extend(chunk[start..newline]);
        Consecutive(old(text), chunk, start, newline);
        if newline == |chunk| {
          assert chunk[..newline] == chunk;
          break;
        }
        EndLine();
        Consecutive(old(text), chunk, newline, newline + 1);
        assert chunk[newline..newline + 1] == "\n";
        start := newline + 1;
      }
    }

    method EndLine()
      requires Valid()
      modifies this
      ensures Valid() && text == old(text) + "\n"
    {
      NewlineFinishes(text);
      Commit(text + "\n");
    }

    /** `reset`: a fresh record. */
    method Reset()
      modifies this
      ensures Valid() && text == ""
    {
      lines, partial, partialBytes, truncated, dropped, text := [], [], 0, false, 0, "";
    }

    /** `take`: the report of everything written since the record began, and a fresh one. */
    method Take() returns (r: seq<string>)
      requires Valid()
      modifies this
      ensures r == Report(old(text)) && Valid() && text == ""
    {
      if partial != [] { FinishTail(); }
      r := Summary();
      StartOver();
    }

    /** A trailing fragment becomes its own line. */
    method FinishTail()
      requires Valid() && Tail(text) != ""
      modifies this
      ensures Valid() && Finished(text) == Logical(old(text)) && Tail(text) == ""
    {
      NewlineFinishes(text);
      EndLine();
    }

    method Summary() returns (r: seq<string>)
      requires ClosedLines() && Tail(text) == ""
      ensures r == Summarized(Finished(text))
    {
      r := lines;
      if dropped != 0 { r := r + [DroppedNotice(dropped)]; }
    }

    method StartOver()
      requires OpenLine() && Tail(text) == ""
      modifies `lines, `dropped, `text
      ensures Valid() && text == ""
    {
      lines, dropped, text := [], 0, "";
    }
  }

  /** `text.find("\n", start)`, with the end of the text for a miss. */
  function FindNewline(s: string, start: nat): (i: nat)
    requires start <= |s|
    ensures start <= i <= |s| && '\n' !in s[start..i] && (i < |s| ==> s[i] == '\n')
    decreases |s| - start
  {
    if start == |s| || s[start] == '\n' then start
    else
      var i := FindNewline(s, start + 1);
      assert s[start..i] == [s[start]] + s[start + 1..i];
      i
  }

  /** Whatever the chunks, the report is that of the text they make. */
  method Captured(chunks: seq<string>) returns (r: seq<string>)
    ensures r == Report(Concat(chunks))
  {
    var capture := new LogCapture();
    for n := 0 to |chunks|
      invariant capture.Valid() && capture.text == Concat(chunks[..n])
      invariant fresh(capture)
    {
      capture.Write(chunks[n]);
      assert chunks[..n + 1] == chunks[..n] + [chunks[n]];
      ConcatMore(chunks[..n], chunks[n]);
    }
    assert chunks[..|chunks|] == chunks;
    r := capture.Take();
  }

  /** A reported line is its logical line when that fits; otherwise it is the longest
      whole-character prefix that fits, marked. */
  lemma ReportedLine(text: string, i: nat) returns (k: nat)
    requires i < |Logical(text)| && i < MAX_LOG_LINES
    ensures i < |Report(text)| && k <= |Logical(text)[i]|
    ensures var line := Logical(text)[i];
            && Utf8Length(line[..k]) <= MAX_LOG_LINE_BYTES
            && (Utf8Length(line) <= MAX_LOG_LINE_BYTES ==> k == |line| && Report(text)[i] == line)
            && (Utf8Length(line) > MAX_LOG_LINE_BYTES ==>
                  k < |line| && Utf8Length(line[..k + 1]) > MAX_LOG_LINE_BYTES
                    && Report(text)[i] == line[..k] + TRUNCATION_MARKER)
  {
    var line := Logical(text)[i];
    var kept := Clip(line, MAX_LOG_LINE_BYTES);
    k := |kept|;
    ClipIsLongest(line, MAX_LOG_LINE_BYTES);
    if Utf8Length(line) <= MAX_LOG_LINE_BYTES { ClipWhole(line, MAX_LOG_LINE_BYTES); }
    assert line[..k] == kept;
  }
}
