/** The queue file in its own characters: escapes, numbers, the fields of a line, and a line as it is written. */
module QueueTerms {
  import opened Bytes
  import opened Wrappers
  import opened Decimal
  import opened Extensions
  import opened QueueFile

  // Escapes.

  /** A backslash, a tab and a newline are written behind a backslash; every other byte is written as it is. */
  lemma EscapeExactly(s: Text, b: byte)
    ensures Escape([]) == []
    ensures Escape(s + [b]) == Escape(s) + (if b == 0x5c then [0x5c, 0x5c] else if b == 0x09 then [0x5c, 0x74] else if b == 0x0a then [0x5c, 0x6e] else [b])
  {
    assert (s + [b])[..|s + [b]| - 1] == s;
  }

  /** Reading goes on from where no backslash is open. */
  lemma {:induction false} ReadOn(a: Text, s: Text)
    requires !UnescapeState(a).1
    ensures UnescapeState(a + s) == (UnescapeState(a).0 + UnescapeState(s).0, UnescapeState(s).1)
  {
    hide Meant;
    if s == [] {
      assert a + s == a;
      assert UnescapeState(a).0 + [] == UnescapeState(a).0;
    } else {
      var front, b := s[..|s| - 1], s[|s| - 1];
      ReadOn(a, front);
      assert a + s == (a + front) + [b];
      UnescapeOne(a + front, b);
      NextAfter(UnescapeState(a).0, UnescapeState(front), b);
    }
  }

  lemma NextAfter(before: Text, state: (Text, bool), b: byte)
    ensures UnescapeNext((before + state.0, state.1), b) == (before + UnescapeNext(state, b).0, UnescapeNext(state, b).1)
  {
    hide Meant;
    assert before + (state.0 + [Meant(b)]) == before + state.0 + [Meant(b)];
    assert before + (state.0 + [b]) == before + state.0 + [b];
  }

  lemma ReadFrom(a: Text, s: Text)
    requires !UnescapeState(a).1
    ensures Unescape(a + s) == UnescapeState(a).0 + Unescape(s)
  {
    ReadOn(a, s);
    hide UnescapeState;
  }

  lemma NothingRead()
    ensures UnescapeState([]) == ([], false) && Unescape([]) == [] && Unescape([0x5c]) == [0x5c]
  {
    hide UnescapeState;
    UnescapeOne([], 0x5c);
    assert [] + [0x5c] == [0x5c];
    FirstState();
  }

  lemma FirstState()
    ensures UnescapeState([]) == ([], false)
  {
  }

  /** Left to right, a backslash stands for a tab before a t, for a newline before an n, and otherwise for nothing, so that the
      byte behind it is itself; at the end it is a backslash. */
  lemma UnescapeExactly(s: Text, b: byte)
    ensures Unescape([]) == [] && Unescape([0x5c]) == [0x5c]
    ensures b != 0x5c ==> Unescape([b] + s) == [b] + Unescape(s)
    ensures Unescape([0x5c, b] + s) == [if b == 0x74 then 0x09 else if b == 0x6e then 0x0a else b] + Unescape(s)
  {
    hide UnescapeState, Unescape;
    NothingRead();
    FirstState();
    UnescapeOne([], b);
    UnescapePair([], 0x5c, b);
    assert [] + [b] == [b] && [] + [0x5c, b] == [0x5c, b];
    if b != 0x5c {
      ReadFrom([b], s);
    }
    ReadFrom([0x5c, b], s);
  }

  // Numbers.

  ghost predicate Blank(s: Text) {
    forall i | 0 <= i < |s| :: s[i] == 0x20 || 0x09 <= s[i] <= 0x0d
  }

  predicate StartsBlank(s: Text) {
    s != [] && (s[0] == 0x20 || 0x09 <= s[0] <= 0x0d)
  }

  /** A sign: none, a plus, or a minus. */
  predicate IsSign(s: Text) {
    s == [] || s == [0x2b] || s == [0x2d]
  }

  predicate StartsWithDigit(s: Text) {
    s != [] && 0x30 <= s[0] <= 0x39
  }

  lemma {:induction false} BlankSkipped(s: Text, rest: Text)
    requires Blank(s) && !StartsBlank(rest)
    ensures SkipSpaces(s + rest) == rest
  {
    if s == [] {
      assert s + rest == rest;
    } else {
      assert (s + rest)[1..] == s[1..] + rest;
      BlankSkipped(s[1..], rest);
    }
  }

  lemma {:induction false} RunStops(digits: Text, rest: Text)
    requires AllDigits(digits) && !StartsWithDigit(rest)
    ensures DigitRun(digits + rest) == |digits|
  {
    if digits == [] {
      assert digits + rest == rest;
    } else {
      assert (digits + rest)[1..] == digits[1..] + rest;
      RunStops(digits[1..], rest);
    }
  }

  lemma LeadingIs(spaces: Text, sign: Text, digits: Text, rest: Text)
    requires Blank(spaces) && IsSign(sign) && AllDigits(digits) && digits != [] && !StartsWithDigit(rest)
    ensures Leading(spaces + (sign + (digits + rest))) == Some((sign == [0x2d], Value(digits)))
  {
    var tail := sign + (digits + rest);
    BlankSkipped(spaces, tail);
    RunStops(digits, rest);
    assert (digits + rest)[..|digits|] == digits;
    if sign == [] {
      assert tail == digits + rest;
    } else {
      assert tail[1..] == digits + rest;
    }
  }

  /** A number is read behind blanks and a sign, as far as its digits go; it must fit its type, where a negative one is taken
      round by the unsigned reader. */
  lemma NumbersExactly(spaces: Text, sign: Text, digits: Text, rest: Text, limit: int)
    requires Blank(spaces) && IsSign(sign) && AllDigits(digits) && digits != [] && !StartsWithDigit(rest)
    ensures var s, n := spaces + (sign + (digits + rest)), Value(digits);
      var v := if sign == [0x2d] then 0 - n else n;
      && ReadSigned(s, limit) == (if -limit <= v < limit then Some(v) else None)
      && ReadUnsigned(s) == if n < 0x1_0000_0000_0000_0000 then Some(v % 0x1_0000_0000_0000_0000) else None
  {
    hide Value, Leading;
    LeadingIs(spaces, sign, digits, rest);
    if Value(digits) < U64_LIMIT {
      Around(Value(digits));
    }
  }

  lemma Around(n: nat)
    requires n < U64_LIMIT
    ensures (0 - n) % 0x1_0000_0000_0000_0000 == (U64_LIMIT - n) % U64_LIMIT
  {
  }

  /** Without a digit there is no number. */
  lemma NoNumber(spaces: Text, sign: Text, rest: Text, limit: int)
    requires Blank(spaces) && IsSign(sign) && !StartsWithDigit(rest)
    requires sign == [] ==> !StartsBlank(rest) && (rest == [] || (rest[0] != 0x2b && rest[0] != 0x2d))
    ensures ReadSigned(spaces + (sign + rest), limit) == None && ReadUnsigned(spaces + (sign + rest)) == None
  {
    var tail := sign + rest;
    BlankSkipped(spaces, tail);
    if sign == [] {
      assert tail == rest;
    } else {
      assert tail[1..] == rest;
    }
  }

  // Lines.

  /** Which fields make a record: eight or nine of them, with an id and a source, a state and a limit that can be read, and a
      start that can be read if there is one. */
  lemma RowExactly(fields: seq<Text>)
    ensures var r := RowOf(fields);
      if |fields| != 8 && |fields| != 9 then r == None
      else
        var state, limit := ReadSigned(fields[5], 0x8000_0000), ReadUnsigned(fields[6]);
        var starts := |fields| == 9 && fields[8] != [];
        var start := if starts then ReadSigned(fields[8], 0x8000_0000_0000_0000) else None;
        && (r.Some? <==> state.Some? && limit.Some? && (starts ==> start.Some?) && Unescape(fields[0]) != [] && Unescape(fields[1]) != [])
        && (r.Some? ==>
              && r.value.id == Unescape(fields[0]) && r.value.url == Unescape(fields[1]) && r.value.referrer == Unescape(fields[2])
              && r.value.suggested == (if Unescape(fields[3]) == [] then None else Some(Unescape(fields[3])))
              && (r.value.privateSession <==> fields[4] == Ascii("1")) && r.value.state == state.value
              && r.value.segmentLimit == limit.value && (r.value.resumable <==> fields[7] == Ascii("1")) && r.value.scheduledStart == start)
  {
    hide Unescape, ReadSigned, ReadUnsigned;
    if |fields| == 8 || |fields| == 9 {
      BitIsOne(fields[4]);
      BitIsOne(fields[7]);
    }
  }

  lemma BitIsOne(field: Text)
    ensures field == Bit(true) <==> field == Ascii("1")
  {
  }

  lemma {:induction false} PlainStays(s: Text)
    requires Plain(s)
    ensures Escape(s) == s
  {
    if s != [] {
      PlainStays(s[..|s| - 1]);
    }
  }

  lemma {:induction false} JoinedIs(a: Text, fields: seq<Text>)
    requires fields != []
    ensures Joined([a] + fields) == a + [0x09] + Joined(fields)
  {
    if |fields| == 1 {
      assert ([a] + fields)[..1] == [a];
    } else {
      JoinedIs(a, fields[..|fields| - 1]);
      assert ([a] + fields)[..|fields|] == [a] + fields[..|fields| - 1];
    }
  }

  lemma TabbedName()
    ensures Escape(Ascii("a\tb")) == Ascii("a\\tb") && Escape([]) == []
  {
    EscapeExactly([], 0x61);
    EscapeExactly([0x61], 0x09);
    EscapeExactly([0x61, 0x09], 0x62);
    hide Escape;
    assert Ascii("a\tb") == [0x61, 0x09] + [0x62] && [0x61, 0x09] == [0x61] + [0x09];
    var first: Text := [];
    assert [0x61] == first + [0x61];
  }

  lemma PrintedNumbers()
    ensures PrintSigned(-3) == Ascii("-3") && Print(16) == Ascii("16") && PrintSigned(1700) == Ascii("1700")
  {
    assert Print(17) == [0x31, 0x37];
    assert Print(170) == [0x31, 0x37, 0x30];
  }

  function SampleRow(): Row {
    Row(Ascii("download-1"), Ascii("https://e.org/a"), [], Some(Ascii("a\tb")), true, -3, 16, false, Some(1700))
  }

  lemma Bits()
    ensures Bit(true) == Ascii("1") && Bit(false) == Ascii("0")
  {
  }

  lemma PlainTexts()
    ensures Escape(Ascii("download-1")) == Ascii("download-1") && Escape(Ascii("https://e.org/a")) == Ascii("https://e.org/a")
  {
    hide Escape;
    PlainStays(Ascii("download-1"));
    PlainStays(Ascii("https://e.org/a"));
  }

  lemma SampleFields()
    ensures Fields(SampleRow()) == [Ascii("download-1"), Ascii("https://e.org/a"), [], Ascii("a\\tb"), Ascii("1"), Ascii("-3"), Ascii("16"), Ascii("0"), Ascii("1700")]
  {
    hide Escape, PrintSigned, Print, Bit, Ascii;
    PlainTexts();
    TabbedName();
    Bits();
    PrintedNumbers();
  }

  lemma OneJoined(a: Text)
    ensures Joined([a]) == a
  {
  }

  lemma NineJoined(a: Text, b: Text, c: Text, d: Text, e: Text, f: Text, g: Text, h: Text, i: Text)
    ensures Joined([a, b, c, d, e, f, g, h, i])
            == a + [0x09] + (b + [0x09] + (c + [0x09] + (d + [0x09] + (e + [0x09] + (f + [0x09] + (g + [0x09] + (h + [0x09] + i)))))))
  {
    hide Joined;
    OneJoined(i);
    JoinedIs(h, [i]);
    JoinedIs(g, [h, i]);
    JoinedIs(f, [g, h, i]);
    JoinedIs(e, [f, g, h, i]);
    JoinedIs(d, [e, f, g, h, i]);
    JoinedIs(c, [d, e, f, g, h, i]);
    JoinedIs(b, [c, d, e, f, g, h, i]);
    JoinedIs(a, [b, c, d, e, f, g, h, i]);
    assert [h] + [i] == [h, i] && [g] + [h, i] == [g, h, i] && [f] + [g, h, i] == [f, g, h, i];
    assert [e] + [f, g, h, i] == [e, f, g, h, i] && [d] + [e, f, g, h, i] == [d, e, f, g, h, i];
    assert [c] + [d, e, f, g, h, i] == [c, d, e, f, g, h, i] && [b] + [c, d, e, f, g, h, i] == [b, c, d, e, f, g, h, i];
    assert [a] + [b, c, d, e, f, g, h, i] == [a, b, c, d, e, f, g, h, i];
  }

  /** A line as it is written: nine fields between tabs, and a newline. */
  lemma LineExactly()
    ensures Saved([SampleRow()])
            == Ascii("download-1") + [0x09] + (Ascii("https://e.org/a") + [0x09] + ([] + [0x09] + (Ascii("a\\tb") + [0x09]
               + (Ascii("1") + [0x09] + (Ascii("-3") + [0x09] + (Ascii("16") + [0x09] + (Ascii("0") + [0x09] + Ascii("1700"))))))))
               + [0x0a]
  {
    hide Fields, SampleRow, Joined, Ascii;
    SampleFields();
    NineJoined(Ascii("download-1"), Ascii("https://e.org/a"), [], Ascii("a\\tb"), Ascii("1"), Ascii("-3"), Ascii("16"), Ascii("0"), Ascii("1700"));
    var rows: seq<Row> := [SampleRow()];
    assert rows[..0] == [];
  }
}
