/** The text file the download queue is kept in: a line a record, tab-separated, with escapes for free text. */
module QueueFile {
  import opened Bytes
  import opened Wrappers
  import opened Decimal
  import opened Extensions

  const TAB: byte := 0x09
  const NEWLINE: byte := 0x0a
  const BACKSLASH: byte := 0x5c
  const LETTER_T: byte := 0x74
  const LETTER_N: byte := 0x6e
  const MINUS: byte := 0x2d
  const PLUS: byte := 0x2b

  /** A record as the file knows it; `state` is the number of the state. */
  datatype Row = Row(
    id: Text, url: Text, referrer: Text, suggested: Option<Text>, privateSession: bool, state: int,
    segmentLimit: u64, resumable: bool, scheduledStart: Option<int>)

  // Escapes.

  function EscapeByte(b: byte): Text {
    if b == BACKSLASH then [BACKSLASH, BACKSLASH]
    else if b == TAB then [BACKSLASH, LETTER_T]
    else if b == NEWLINE then [BACKSLASH, LETTER_N]
    else [b]
  }

  function Escape(s: Text): Text {
    if s == [] then [] else Escape(s[..|s| - 1]) + EscapeByte(s[|s| - 1])
  }

  method EscapeText(s: Text) returns (out: Text)
    ensures out == Escape(s)
  {
    out := [];
    var i := 0;
    while i < |s|
      invariant 0 <= i <= |s| && out == Escape(s[..i])
    {
      assert s[..i + 1][..i] == s[..i];
      if s[i] == BACKSLASH {
        out := out + [BACKSLASH, BACKSLASH];
      } else if s[i] == TAB {
        out := out + [BACKSLASH, LETTER_T];
      } else if s[i] == NEWLINE {
        out := out + [BACKSLASH, LETTER_N];
      } else {
        out := out + [s[i]];
      }
      i := i + 1;
    }
    assert s[..i] == s;
  }

  function Meant(b: byte): byte {
    if b == LETTER_T then TAB else if b == LETTER_N then NEWLINE else b
  }

  /** The output so far and whether the next byte is escaped. */
  function UnescapeState(s: Text): (Text, bool) {
    if s == [] then ([], false) else UnescapeNext(UnescapeState(s[..|s| - 1]), s[|s| - 1])
  }

  function UnescapeNext(state: (Text, bool), b: byte): (Text, bool) {
    if state.1 then (state.0 + [Meant(b)], false)
    else if b == BACKSLASH then (state.0, true)
    else (state.0 + [b], false)
  }

  function Unescape(s: Text): Text {
    UnescapeState(s).0 + if UnescapeState(s).1 then [BACKSLASH] else []
  }

  method UnescapeText(s: Text) returns (out: Text)
    ensures out == Unescape(s)
  {
    out := [];
    var escapeNext := false;
    var i := 0;
    while i < |s|
      invariant 0 <= i <= |s| && (out, escapeNext) == UnescapeState(s[..i])
    {
      assert s[..i + 1][..i] == s[..i];
      if !escapeNext && s[i] == BACKSLASH {
        escapeNext := true;
      } else if escapeNext {
        out := out + [Meant(s[i])];
        escapeNext := false;
      } else {
        out := out + [s[i]];
      }
      i := i + 1;
    }
    assert s[..i] == s;
    if escapeNext {
      out := out + [BACKSLASH];
    }
  }

  /** The fields so far, the field in progress, and whether the next byte is escaped. */
  function SplitState(s: Text): (seq<Text>, Text, bool) {
    if s == [] then ([], [], false)
    else
      var (fields, current, escaped) := SplitState(s[..|s| - 1]);
      var b := s[|s| - 1];
      if !escaped && b == BACKSLASH then (fields, current + [b], true)
      else if !escaped && b == TAB then (fields + [current], [], false)
      else (fields, current + [b], false)
  }

  function Split(line: Text): seq<Text> {
    SplitState(line).0 + [SplitState(line).1]
  }

  method SplitLine(line: Text) returns (fields: seq<Text>)
    ensures fields == Split(line)
  {
    fields := [];
    var current: Text := [];
    var escapeNext := false;
    var i := 0;
    while i < |line|
      invariant 0 <= i <= |line| && (fields, current, escapeNext) == SplitState(line[..i])
    {
      assert line[..i + 1][..i] == line[..i];
      if !escapeNext && line[i] == BACKSLASH {
        escapeNext := true;
        current := current + [line[i]];
      } else if !escapeNext && line[i] == TAB {
        fields := fields + [current];
        current := [];
      } else {
        current := current + [line[i]];
        escapeNext := false;
      }
      i := i + 1;
    }
    assert line[..i] == line;
    fields := fields + [current];
  }

  // Numbers, as the standard conversions read them: leading spaces, a sign, then digits up to the first that is none.

  function SkipSpaces(s: Text): Text {
    if s != [] && IsSpace(s[0]) then SkipSpaces(s[1..]) else s
  }

  function DigitRun(s: Text): (k: nat)
    ensures k <= |s| && AllDigits(s[..k])
  {
    if s == [] || !IsDigit(s[0]) then 0
    else
      var k := 1 + DigitRun(s[1..]);
      assert s[..k] == [s[0]] + s[1..][..k - 1];
      k
  }

  function Signed(s: Text): (bool, Text) {
    var t := SkipSpaces(s);
    if t != [] && t[0] == MINUS then (true, t[1..])
    else if t != [] && t[0] == PLUS then (false, t[1..])
    else (false, t)
  }

  /** The sign and size of the number at the front, if there is one. */
  function Leading(s: Text): Option<(bool, nat)> {
    var (negative, digits) := Signed(s);
    var k := DigitRun(digits);
    if k == 0 then None else Some((negative, Value(digits[..k])))
  }

  function ReadSigned(s: Text, limit: int): Option<int> {
    var n := Leading(s);
    if n.None? then None
    else
      var v: int := if n.value.0 then 0 - n.value.1 else n.value.1;
      if -limit <= v < limit then Some(v) else None
  }

  /** The unsigned conversion takes a minus sign and wraps. */
  function ReadUnsigned(s: Text): Option<u64> {
    var n := Leading(s);
    if n.None? || n.value.1 >= U64_LIMIT then None
    else Some(if n.value.0 then (U64_LIMIT - n.value.1) % U64_LIMIT else n.value.1)
  }

  const INT_LIMIT := 0x8000_0000
  const LONG_LIMIT := 0x8000_0000_0000_0000

  function PrintSigned(n: int): Text {
    if n < 0 then [MINUS] + Print(-n) else Print(n)
  }

  // Rows.

  function Bit(b: bool): Text {
    if b then [0x31] else [0x30]
  }

  function Fields(r: Row): seq<Text> {
    [Escape(r.id), Escape(r.url), Escape(r.referrer), Escape(if r.suggested.Some? then r.suggested.value else []),
     Bit(r.privateSession), PrintSigned(r.state), Print(r.segmentLimit), Bit(r.resumable),
     if r.scheduledStart.Some? then PrintSigned(r.scheduledStart.value) else []]
  }

  function Joined(fields: seq<Text>): Text
    requires fields != []
  {
    if |fields| == 1 then fields[0] else Joined(fields[..|fields| - 1]) + [TAB] + fields[|fields| - 1]
  }

  function Saved(rows: seq<Row>): Text {
    if rows == [] then [] else Saved(rows[..|rows| - 1]) + Joined(Fields(rows[|rows| - 1])) + [NEWLINE]
  }

  method Save(rows: seq<Row>) returns (content: Text)
    ensures content == Saved(rows)
  {
    hide Escape, Print, Joined, PrintSigned;
    content := [];
    var i := 0;
    while i < |rows|
      invariant 0 <= i <= |rows| && content == Saved(rows[..i])
    {
      assert rows[..i + 1][..i] == rows[..i];
      var r := rows[i];
      var id := EscapeText(r.id);
      var url := EscapeText(r.url);
      var referrer := EscapeText(r.referrer);
      var name := EscapeText(if r.suggested.Some? then r.suggested.value else []);
      var start := if r.scheduledStart.Some? then PrintSigned(r.scheduledStart.value) else [];
      var line := Line([id, url, referrer, name, Bit(r.privateSession), PrintSigned(r.state), Print(r.segmentLimit), Bit(r.resumable), start]);
      content := content + line;
      content := content + [NEWLINE];
      i := i + 1;
    }
    assert rows[..i] == rows;
  }

  method Line(fields: seq<Text>) returns (line: Text)
    requires fields != []
    ensures line == Joined(fields)
  {
    line := fields[0];
    var i := 1;
    assert fields[..1] == [fields[0]];
    while i < |fields|
      invariant 1 <= i <= |fields| && line == Joined(fields[..i])
    {
      assert fields[..i + 1][..i] == fields[..i];
      line := line + [TAB] + fields[i];
      i := i + 1;
    }
    assert fields[..i] == fields;
  }

  /** The record a line stands for, or none when it is passed over. */
  function RowOf(fields: seq<Text>): Option<Row> {
    if |fields| != 8 && |fields| != 9 then None
    else
      var name := Unescape(fields[3]);
      var state, limit := ReadSigned(fields[5], INT_LIMIT), ReadUnsigned(fields[6]);
      var start := if |fields| == 9 && fields[8] != [] then ReadSigned(fields[8], LONG_LIMIT) else None;
      if state.None? || limit.None? || (|fields| == 9 && fields[8] != [] && start.None?) then None
      else if Unescape(fields[0]) == [] || Unescape(fields[1]) == [] then None
      else
        Some(Row(Unescape(fields[0]), Unescape(fields[1]), Unescape(fields[2]), if name == [] then None else Some(name),
                 fields[4] == Bit(true), state.value, limit.value, fields[7] == Bit(true), start))
  }

  /** The lines of a file: what ends at a newline, and what is left after the last one. */
  function Lines(content: Text): seq<Text> {
    var (lines, current) := LinesState(content);
    if current == [] then lines else lines + [current]
  }

  function LinesState(content: Text): (seq<Text>, Text) {
    if content == [] then ([], [])
    else
      var (lines, current) := LinesState(content[..|content| - 1]);
      var b := content[|content| - 1];
      if b == NEWLINE then (lines + [current], []) else (lines, current + [b])
  }

  function Loaded(lines: seq<Text>): seq<Row> {
    if lines == [] then []
    else
      var row := RowOf(Split(lines[|lines| - 1]));
      Loaded(lines[..|lines| - 1]) + if row.Some? then [row.value] else []
  }

  method Load(content: Text) returns (rows: seq<Row>)
    ensures rows == Loaded(Lines(content))
  {
    hide RowOf, Split;
    rows := [];
    var lines := ReadLines(content);
    var i := 0;
    while i < |lines|
      invariant 0 <= i <= |lines| && rows == Loaded(lines[..i])
    {
      assert lines[..i + 1][..i] == lines[..i];
      var fields := SplitLine(lines[i]);
      var row := ReadRow(fields);
      if row.Some? {
        rows := rows + [row.value];
      }
      i := i + 1;
    }
    assert lines[..i] == lines;
  }

  method ReadRow(fields: seq<Text>) returns (row: Option<Row>)
    ensures row == RowOf(fields)
  {
    hide Unescape, ReadSigned, ReadUnsigned;
    if |fields| != 8 && |fields| != 9 {
      return None;
    }
    var id := UnescapeText(fields[0]);
    var url := UnescapeText(fields[1]);
    var referrer := UnescapeText(fields[2]);
    var name := UnescapeText(fields[3]);
    var state, limit := ReadSigned(fields[5], INT_LIMIT), ReadUnsigned(fields[6]);
    if state.None? || limit.None? {
      return None;
    }
    var start: Option<int> := None;
    if |fields| == 9 && fields[8] != [] {
      start := ReadSigned(fields[8], LONG_LIMIT);
      if start.None? {
        return None;
      }
    }
    if id == [] || url == [] {
      return None;
    }
    return Some(Row(id, url, referrer, if name == [] then None else Some(name), fields[4] == Bit(true), state.value, limit.value,
                    fields[7] == Bit(true), start));
  }

  method ReadLines(content: Text) returns (lines: seq<Text>)
    ensures lines == Lines(content)
  {
    lines := [];
    var current: Text := [];
    var i := 0;
    while i < |content|
      invariant 0 <= i <= |content| && (lines, current) == LinesState(content[..i])
    {
      assert content[..i + 1][..i] == content[..i];
      if content[i] == NEWLINE {
        lines, current := lines + [current], [];
      } else {
        current := current + [content[i]];
      }
      i := i + 1;
    }
    assert content[..i] == content;
    if current != [] {
      lines := lines + [current];
    }
  }

  // The round trip.

  lemma UnescapeOne(p: Text, b: byte)
    ensures UnescapeState(p + [b]) == UnescapeNext(UnescapeState(p), b)
  {
    assert (p + [b])[..|p|] == p;
  }

  lemma UnescapeOneEscape(p: Text, b: byte)
    requires !UnescapeState(p).1
    ensures UnescapeState(p + EscapeByte(b)) == (UnescapeState(p).0 + [b], false)
  {
    hide UnescapeState;
    if |EscapeByte(b)| == 2 {
      UnescapePair(p, EscapeByte(b)[0], EscapeByte(b)[1]);
      assert EscapeByte(b) == [EscapeByte(b)[0], EscapeByte(b)[1]];
    } else {
      UnescapeOne(p, b);
      assert EscapeByte(b) == [b];
    }
  }

  lemma UnescapePair(p: Text, x: byte, y: byte)
    ensures UnescapeState(p + [x, y]) == UnescapeNext(UnescapeNext(UnescapeState(p), x), y)
  {
    hide UnescapeState;
    UnescapeOne(p, x);
    UnescapeOne(p + [x], y);
    assert p + [x, y] == p + [x] + [y];
  }

  lemma {:induction false} UnescapeEscape(a: Text, s: Text)
    requires !UnescapeState(a).1
    ensures UnescapeState(a + Escape(s)) == (UnescapeState(a).0 + s, false)
  {
    hide UnescapeState, EscapeByte;
    if s == [] {
      assert a + Escape(s) == a;
      assert UnescapeState(a).0 + s == UnescapeState(a).0;
    } else {
      var rest, b := s[..|s| - 1], s[|s| - 1];
      UnescapeEscape(a, rest);
      UnescapeOneEscape(a + Escape(rest), b);
      assert a + Escape(s) == a + Escape(rest) + EscapeByte(b);
      assert UnescapeState(a).0 + s == UnescapeState(a).0 + rest + [b];
    }
  }

  /** Escaping loses nothing, whatever the bytes. */
  lemma EscapeRoundTrip(s: Text)
    ensures Unescape(Escape(s)) == s
  {
    hide Escape, EscapeByte, UnescapeNext;
    UnescapeEscape([], s);
    assert [] + Escape(s) == Escape(s);
  }

  lemma SplitOne(p: Text, b: byte)
    ensures SplitState(p + [b]) ==
              var (fields, current, escaped) := SplitState(p);
              if !escaped && b == BACKSLASH then (fields, current + [b], true)
              else if !escaped && b == TAB then (fields + [current], [], false)
              else (fields, current + [b], false)
  {
    assert (p + [b])[..|p|] == p;
  }

  lemma SplitOneEscape(p: Text, b: byte)
    requires !SplitState(p).2
    ensures SplitState(p + EscapeByte(b)) == (SplitState(p).0, SplitState(p).1 + EscapeByte(b), false)
  {
    var e := EscapeByte(b);
    SplitOne(p, e[0]);
    if |e| == 2 {
      SplitOne(p + [e[0]], e[1]);
      assert p + e == p + [e[0]] + [e[1]];
      assert SplitState(p).1 + e == SplitState(p).1 + [e[0]] + [e[1]];
    } else {
      assert p + e == p + [e[0]];
    }
  }

  lemma {:induction false} SplitEscape(a: Text, s: Text)
    requires !SplitState(a).2
    ensures SplitState(a + Escape(s)) == (SplitState(a).0, SplitState(a).1 + Escape(s), false)
  {
    hide SplitState, EscapeByte;
    if s == [] {
      assert a + Escape(s) == a;
      assert SplitState(a).1 + Escape(s) == SplitState(a).1;
    } else {
      var rest, b := s[..|s| - 1], s[|s| - 1];
      SplitEscape(a, rest);
      SplitOneEscape(a + Escape(rest), b);
      assert a + Escape(s) == a + Escape(rest) + EscapeByte(b);
      assert SplitState(a).1 + Escape(s) == SplitState(a).1 + Escape(rest) + EscapeByte(b);
    }
  }

  /** Text with no tab, newline or backslash. */
  predicate Plain(s: Text) {
    forall i | 0 <= i < |s| :: s[i] != TAB && s[i] != NEWLINE && s[i] != BACKSLASH
  }

  lemma {:induction false} PlainIsEscaped(s: Text)
    requires Plain(s)
    ensures Escape(s) == s
  {
    if s != [] {
      PlainIsEscaped(s[..|s| - 1]);
      assert s == s[..|s| - 1] + [s[|s| - 1]];
    }
  }

  lemma {:induction false} EscapeHasNoBreak(s: Text)
    ensures NEWLINE !in Escape(s) && (Escape(s) == [] <==> s == [])
  {
    if s != [] {
      EscapeHasNoBreak(s[..|s| - 1]);
    }
  }

  /** Every field of a row is some text escaped. */
  ghost predicate Escaped(field: Text) {
    exists s: Text :: Escape(s) == field
  }

  lemma SplitAfterTab(front: Text, s: Text)
    requires !SplitState(front).2
    ensures SplitState(front + [TAB] + Escape(s)) == (SplitState(front).0 + [SplitState(front).1], Escape(s), false)
  {
    hide SplitState, Escape;
    SplitOne(front, TAB);
    SplitEscape(front + [TAB], s);
    assert [] + Escape(s) == Escape(s);
  }

  lemma SplitFirst(s: Text)
    ensures SplitState(Escape(s)) == ([], Escape(s), false)
  {
    hide Escape;
    assert SplitState([]) == ([], [], false);
    SplitEscape([], s);
    assert [] + Escape(s) == Escape(s);
  }

  lemma {:induction false} SplitJoined(fields: seq<Text>)
    requires fields != [] && forall i | 0 <= i < |fields| :: Escaped(fields[i])
    ensures SplitState(Joined(fields)) == (fields[..|fields| - 1], fields[|fields| - 1], false)
    ensures NEWLINE !in Joined(fields)
  {
    hide SplitState, Escape;
    var last := |fields| - 1;
    assert Escaped(fields[last]);
    var s: Text :| Escape(s) == fields[last];
    EscapeHasNoBreak(s);
    if last == 0 {
      SplitFirst(s);
      assert fields[..0] == [];
    } else {
      SplitJoined(fields[..last]);
      SplitAfterTab(Joined(fields[..last]), s);
      assert fields[..last] == fields[..last][..last - 1] + [fields[..last][last - 1]];
    }
  }

  lemma {:induction false} PrintIsPlain(n: nat)
    ensures Plain(Print(n)) && DigitRun(Print(n)) == |Print(n)|
  {
    AllDigitsRun(Print(n));
  }

  lemma {:induction false} AllDigitsRun(s: Text)
    requires AllDigits(s)
    ensures DigitRun(s) == |s|
  {
    if s != [] {
      AllDigitsRun(s[1..]);
    }
  }

  lemma LeadingOfPrint(n: int)
    ensures Leading(PrintSigned(n)) == Some((n < 0, if n < 0 then -n else n)) && Plain(PrintSigned(n)) && PrintSigned(n) != []
  {
    var m: nat := if n < 0 then -n else n;
    PrintIsPlain(m);
    PrintedValue(m);
    var digits := Print(m);
    assert digits[..|digits|] == digits;
    if n < 0 {
      assert PrintSigned(n)[1..] == digits;
    }
  }

  /** What the conversions read back is what was printed. */
  lemma NumberRoundTrip(n: int, limit: int)
    ensures -limit <= n < limit ==> ReadSigned(PrintSigned(n), limit) == Some(n)
    ensures 0 <= n < U64_LIMIT ==> ReadUnsigned(PrintSigned(n)) == Some(n)
  {
    LeadingOfPrint(n);
    hide Leading, PrintSigned;
  }

  /** Records whose numbers fit the types they are kept in. */
  predicate Fits(r: Row) {
    && -INT_LIMIT <= r.state < INT_LIMIT
    && (r.scheduledStart.Some? ==> -LONG_LIMIT <= r.scheduledStart.value < LONG_LIMIT)
  }

  /** A record as it comes back: an empty suggested name becomes absent. */
  function Normal(r: Row): Row {
    if r.suggested == Some([]) then r.(suggested := None) else r
  }

  lemma FieldEscaped(r: Row, i: nat)
    requires i < 9
    ensures Escaped(Fields(r)[i])
  {
    hide Escape, PrintSigned, Plain;
    if i == 4 || i == 7 {
      BitIsPlain(r.privateSession);
      BitIsPlain(r.resumable);
      PlainIsEscaped(Fields(r)[i]);
    } else if i == 5 {
      LeadingOfPrint(r.state);
      PlainIsEscaped(Fields(r)[i]);
    } else if i == 6 {
      PrintIsPlain(r.segmentLimit);
      PlainIsEscaped(Fields(r)[i]);
    } else if i == 8 && r.scheduledStart.Some? {
      LeadingOfPrint(r.scheduledStart.value);
      PlainIsEscaped(Fields(r)[i]);
    } else if i == 8 {
      NothingIsPlain();
      PlainIsEscaped(Fields(r)[i]);
    }
  }

  lemma BitIsPlain(b: bool)
    ensures Plain(Bit(b))
  {
  }

  lemma NothingIsPlain()
    ensures Plain([])
  {
  }

  lemma FieldsEscaped(r: Row)
    ensures forall i | 0 <= i < |Fields(r)| :: Escaped(Fields(r)[i])
  {
    hide Escaped, Fields;
    FieldsCount(r);
    forall i | 0 <= i < 9
      ensures Escaped(Fields(r)[i])
    {
      FieldEscaped(r, i);
    }
  }

  lemma RowRoundTrip(r: Row)
    requires Fits(r)
    ensures RowOf(Fields(r)) == if r.id == [] || r.url == [] then None else Some(Normal(r))
  {
    hide Escape, Unescape, ReadSigned, ReadUnsigned, Print;
    EscapeRoundTrip(r.id);
    EscapeRoundTrip(r.url);
    EscapeRoundTrip(r.referrer);
    EscapeRoundTrip(if r.suggested.Some? then r.suggested.value else []);
    NumberRoundTrip(r.state, INT_LIMIT);
    NumberRoundTrip(r.segmentLimit, INT_LIMIT);
    var start := if r.scheduledStart.Some? then r.scheduledStart.value else 0;
    NumberRoundTrip(start, LONG_LIMIT);
    LeadingOfPrint(start);
  }

  lemma {:induction false} LinesOfText(content: Text, line: Text)
    requires NEWLINE !in line && LinesState(content).1 == []
    ensures LinesState(content + line) == (LinesState(content).0, line)
  {
    if line == [] {
      assert content + line == content;
    } else {
      var rest := line[..|line| - 1];
      LinesOfText(content, rest);
      assert (content + line)[..|content + line| - 1] == content + rest;
      assert line == rest + [line[|line| - 1]];
    }
  }

  function SavedLines(rows: seq<Row>): seq<Text> {
    if rows == [] then [] else SavedLines(rows[..|rows| - 1]) + [Joined(Fields(rows[|rows| - 1]))]
  }

  lemma {:induction false} LinesOfSaved(rows: seq<Row>)
    ensures LinesState(Saved(rows)) == (SavedLines(rows), [])
  {
    hide Fields, Joined;
    if rows != [] {
      var before, r := Saved(rows[..|rows| - 1]), rows[|rows| - 1];
      LinesOfSaved(rows[..|rows| - 1]);
      FieldsEscaped(r);
      FieldsCount(r);
      SplitJoined(Fields(r));
      LinesOfText(before, Joined(Fields(r)));
      assert Saved(rows)[..|Saved(rows)| - 1] == before + Joined(Fields(r));
    }
  }

  lemma FieldsCount(r: Row)
    ensures |Fields(r)| == 9
  {
  }

  /** What comes back of a list of records: all of them with a name and a source, in order. */
  function Returned(rows: seq<Row>): seq<Row> {
    if rows == [] then []
    else
      var r := rows[|rows| - 1];
      Returned(rows[..|rows| - 1]) + if r.id == [] || r.url == [] then [] else [Normal(r)]
  }

  lemma {:induction false} LoadedLines(rows: seq<Row>)
    requires forall r | r in rows :: Fits(r)
    ensures Loaded(SavedLines(rows)) == Returned(rows)
  {
    hide Fields, Joined, RowOf, Normal, Fits;
    if rows != [] {
      var r := rows[|rows| - 1];
      LoadedLines(rows[..|rows| - 1]);
      assert r in rows;
      FieldsEscaped(r);
      FieldsCount(r);
      SplitJoined(Fields(r));
      assert Fields(r) == Fields(r)[..8] + [Fields(r)[8]];
      RowRoundTrip(r);
      assert SavedLines(rows)[..|SavedLines(rows)| - 1] == SavedLines(rows[..|rows| - 1]);
    }
  }

  /** Loading what was saved returns the records, whatever bytes are in their texts, up to an empty suggested
      file name becoming absent and records without a name or a source being passed over. */
  lemma QueueRoundTrip(rows: seq<Row>)
    requires forall r | r in rows :: Fits(r)
    ensures Loaded(Lines(Saved(rows))) == Returned(rows)
    ensures (forall r | r in rows :: r.id != [] && r.url != []) ==>
              |Returned(rows)| == |rows| && forall i | 0 <= i < |rows| :: Returned(rows)[i] == Normal(rows[i])
  {
    hide Saved, SavedLines, Loaded, Returned, Normal, Fits;
    LinesOfSaved(rows);
    LoadedLines(rows);
    if forall r | r in rows :: r.id != [] && r.url != [] {
      ReturnedAll(rows);
    }
  }

  lemma {:induction false} ReturnedAll(rows: seq<Row>)
    requires forall r | r in rows :: r.id != [] && r.url != []
    ensures |Returned(rows)| == |rows| && forall i | 0 <= i < |rows| :: Returned(rows)[i] == Normal(rows[i])
  {
    hide Normal;
    if rows != [] {
      ReturnedAll(rows[..|rows| - 1]);
      assert rows[|rows| - 1] in rows;
    }
  }
}
