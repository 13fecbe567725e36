// Parsing what the writer prints.
module HttpRoundTrip {
  import opened Common
  import opened HttpParser
  import opened HttpWriter
  import opened HttpBatch

  // ---------- one printed line ----------

  predicate NoLineEnds(s: string) {
    forall i :: 0 <= i < |s| ==> s[i] != '\r' && s[i] != '\n'
  }

  predicate PlainLine(s: string) {
    s != "" && NoLineEnds(s) && !IsBlank(s[0])
  }

  predicate AtLineStart(p: Parser) {
    !p.ready && p.buf == ""
  }

  // The parser after the first byte of a line that is no continuation.
  function Opened(p: Parser): (o: Parser)
    ensures o.count == p.count && o.limit == p.limit && o.ready == p.ready
  {
    if p.lineNum > 0 then
      p.(fields := ParseLine(p.fields, p.kind, p.lineNum, p.curLine), curLine := "")
    else p
  }

  // ... and after the whole line and its line end.
  function NextLine(p: Parser, line: string): Parser {
    Opened(p).(count := p.count + |line| + 2, lineNum := p.lineNum + 1, buf := "",
               curLine := Opened(p).curLine + line)
  }

  lemma {:induction false} ConsumeLetters(p: Parser, s: string, rest: string)
    requires !p.ready && p.buf != "" && NoLineEnds(s) && p.count + |s| < p.limit
    ensures Consume(p, s + rest) == Consume(p.(count := p.count + |s|, buf := p.buf + s), rest)
    decreases s
  {
    if s == "" {
      assert s + rest == rest && p.buf + s == p.buf;
    } else {
      assert (s + rest)[1..] == s[1..] + rest;
      ConsumeLetters(Feed(p, s[0]), s[1..], rest);
      assert (p.buf + [s[0]]) + s[1..] == p.buf + s;
    }
  }

  lemma {:induction false} ConsumeByte(p: Parser, c: char, rest: string)
    requires !p.ready && !AtLimit(p)
    ensures Consume(p, [c] + rest) == Consume(Feed(p, c), rest)
  {
    assert ([c] + rest)[1..] == rest;
  }

  lemma {:induction false} ConsumeLine(p: Parser, line: string, rest: string)
    requires AtLineStart(p) && PlainLine(line) && p.count + |line| + 2 < p.limit
    ensures Consume(p, line + "\r\n" + rest) == Consume(NextLine(p, line), rest)
  {
    assert line + "\r\n" + rest == line + ("\r\n" + rest);
    ConsumeText(p, line, "\r\n" + rest);
    ConsumeLineEnd(p, line, rest);
  }

  // The parser after the letters of a line, before its end.
  function MidLine(p: Parser, line: string): Parser
    requires AtLineStart(p) && PlainLine(line) && p.count + |line| < p.limit
  {
    Opened(p).(count := p.count + |line|, buf := line)
  }

  lemma FeedFirst(p: Parser, c: char)
    requires AtLineStart(p) && !AtLimit(p) && !IsBlank(c) && c != '\r' && c != '\n'
    ensures Feed(p, c) == Opened(p).(count := p.count + 1, buf := [c])
  {
  }

  lemma {:induction false} ConsumeFirst(p: Parser, c: char, rest: string, bytes: string)
    requires AtLineStart(p) && !AtLimit(p) && !IsBlank(c) && c != '\r' && c != '\n' && bytes == [c] + rest
    ensures Consume(p, bytes) == Consume(Opened(p).(count := p.count + 1, buf := [c]), rest)
  {
    ConsumeByte(p, c, rest);
    FeedFirst(p, c);
  }

  // The rest of the letters, whatever the first one did to the fields.
  lemma {:induction false} ConsumeTail(o: Parser, line: string, tail: string, rest: string)
    requires line != "" && rest == line[1..] + tail
    requires !o.ready && NoLineEnds(line) && o.count + |line| < o.limit
    ensures Consume(o.(count := o.count + 1, buf := [line[0]]), rest)
         == Consume(o.(count := o.count + |line|, buf := line), tail)
  {
    ConsumeLetters(o.(count := o.count + 1, buf := [line[0]]), line[1..], tail);
    assert [line[0]] + line[1..] == line;
  }

  lemma {:induction false} ConsumeText(p: Parser, line: string, tail: string)
    requires AtLineStart(p) && PlainLine(line) && p.count + |line| < p.limit
    ensures Consume(p, line + tail) == Consume(MidLine(p, line), tail)
  {
    var rest := line[1..] + tail;
    assert line + tail == [line[0]] + rest;
    ConsumeFirst(p, line[0], rest, line + tail);
    ConsumeTail(Opened(p), line, tail, rest);
  }

  lemma {:induction false} ConsumeLineEnd(p: Parser, line: string, rest: string)
    requires AtLineStart(p) && PlainLine(line) && p.count + |line| + 2 < p.limit
    ensures Consume(MidLine(p, line), "\r\n" + rest) == Consume(NextLine(p, line), rest)
  {
    var p2 := MidLine(p, line);
    assert "\r\n" + rest == ['\r'] + (['\n'] + rest);
    ConsumeByte(p2, '\r', ['\n'] + rest);
    var p3 := Feed(p2, '\r');
    ConsumeByte(p3, '\n', rest);
    assert Feed(p3, '\n') == NextLine(p, line);
  }

  // The parser after the empty line.
  function Ended(p: Parser): Parser {
    p.(count := p.count + 2, lineNum := p.lineNum + 1, ready := true)
  }

  lemma {:induction false} ConsumeEnd(p: Parser, rest: string)
    requires AtLineStart(p) && p.count + 2 < p.limit
    ensures Consume(p, "\r\n" + rest) == (Ended(p), rest)
  {
    assert "\r\n" + rest == ['\r'] + (['\n'] + rest);
    ConsumeByte(p, '\r', ['\n'] + rest);
    ConsumeByte(Feed(p, '\r'), '\n', rest);
  }

  // ---------- all printed lines ----------

  predicate GoodHeader(h: Header) {
    NoSpace(h.0) && NoLineEnds(h.1)
  }

  predicate GoodHeaders(hs: seq<Header>) {
    forall i :: 0 <= i < |hs| ==> GoodHeader(hs[i])
  }

  lemma HeaderLineIsPlain(h: Header)
    requires GoodHeader(h)
    ensures PlainLine(HeaderLine(h))
  {
    var s := HeaderLine(h);
    forall i | 0 <= i < |s|
      ensures s[i] != '\r' && s[i] != '\n'
    {
      if i < |h.0| { assert s[i] == h.0[i]; }
    }
    assert h.0 != "" ==> s[0] == h.0[0];
  }

  function AfterHeaders(p: Parser, hs: seq<Header>): Parser
    decreases hs
  {
    if hs == [] then p else AfterHeaders(NextLine(p, HeaderLine(hs[0])), hs[1..])
  }

  lemma {:induction false} ConsumeHeaders(p: Parser, hs: seq<Header>, rest: string)
    requires AtLineStart(p) && GoodHeaders(hs) && p.count + |PrintHeaders(hs)| < p.limit
    ensures Consume(p, PrintHeaders(hs) + rest) == Consume(AfterHeaders(p, hs), rest)
    ensures AtLineStart(AfterHeaders(p, hs))
    ensures AfterHeaders(p, hs).count == p.count + |PrintHeaders(hs)| && AfterHeaders(p, hs).limit == p.limit
    decreases hs
  {
    if hs == [] {
      assert PrintHeaders(hs) + rest == rest;
    } else {
      var line, more := HeaderLine(hs[0]), PrintHeaders(hs[1..]);
      HeaderLineIsPlain(hs[0]);
      assert PrintHeaders(hs) + rest == line + "\r\n" + (more + rest);
      ConsumeLine(p, line, more + rest);
      ConsumeHeaders(NextLine(p, line), hs[1..], rest);
    }
  }

  lemma {:induction false} ConsumePrinted(kind: Kind, limit: int, line: string, hs: seq<Header>, rest: string)
    requires PlainLine(line) && GoodHeaders(hs) && |Print(line, hs)| < limit
    ensures Consume(Fresh(kind, limit), Print(line, hs) + rest)
            == (Ended(AfterHeaders(NextLine(Fresh(kind, limit), line), hs)), rest)
  {
    var p := Fresh(kind, limit);
    var end := "\r\n" + rest;
    assert Print(line, hs) + rest == line + "\r\n" + (PrintHeaders(hs) + end);
    ConsumeLine(p, line, PrintHeaders(hs) + end);
    ConsumeHeaders(NextLine(p, line), hs, end);
    ConsumeEnd(AfterHeaders(NextLine(p, line), hs), rest);
  }

  // ---------- extraction of what was printed ----------

  lemma {:induction false} WordAtFront(w: string, rest: string)
    requires NoSpace(w) && (rest == "" || IsSpace(rest[0]))
    ensures WordLength(w + rest) == |w|
  {
    if w == "" {
      assert w + rest == rest;
    } else {
      assert (w + rest)[1..] == w[1..] + rest;
      WordAtFront(w[1..], rest);
    }
  }

  lemma ReadPlainWord(w: string, rest: string)
    requires w != "" && NoSpace(w) && (rest == "" || IsSpace(rest[0]))
    ensures ReadWord(Stream(w + rest, true)) == (Some(w), Stream(rest, rest != ""))
    ensures ReadWord(Stream(" " + (w + rest), true)) == (Some(w), Stream(rest, rest != ""))
  {
    var s := w + rest;
    assert s[0] == w[0] && SkipSpaces(s) == s;
    assert (" " + s)[1..] == s;
    WordAtFront(w, rest);
    assert s[..|w|] == w && s[|w|..] == rest;
  }

  lemma {:induction false} LineIsAll(s: string)
    requires NoLineEnds(s)
    ensures UpToNewline(s) == s
  {
    if s != "" {
      LineIsAll(s[1..]);
    }
  }

  lemma HeaderRoundTrip(f: Fields, h: Header)
    requires GoodHeader(h)
    ensures ParseHeader(f, HeaderLine(h)) ==
            if h.0 in f.headers then f else f.(headers := f.headers[h.0 := h.1])
  {
    var key, value := h.0 + ":", " " + h.1;
    assert HeaderLine(h) == key + value;
    ReadPlainWord(key, value);
    LineIsAll(value);
    assert key[..|key| - 1] == h.0 && value[1..] == h.1;
  }

  predicate Word(w: string) {
    w != "" && NoSpace(w)
  }

  lemma ThreeWords(f: Fields, a: string, b: string, c: string)
    requires Word(a) && Word(b) && Word(c)
    ensures ParseRequestLine(f, a + " " + b + " " + c) == f.(verb := a, action := b, version := c)
  {
    var s2 := " " + (c + "");
    var s1 := " " + (b + s2);
    assert a + " " + b + " " + c == a + s1;
    ReadPlainWord(a, s1);
    ReadPlainWord(b, s2);
    ReadPlainWord(c, "");
  }

  lemma PrintedWords(m: HTTPMethod, v: HTTPVersion)
    ensures Word(MethodToString(m)) && Word(VersionToString(v))
  {
  }

  lemma RequestLineRoundTrip(f: Fields, m: HTTPMethod, query: string, v: HTTPVersion)
    requires query != "" && NoSpace(query)
    ensures ParseRequestLine(f, RequestLine(m, query, v))
            == f.(verb := MethodToString(m), action := query, version := VersionToString(v))
  {
    PrintedWords(m, v);
    ThreeWords(f, MethodToString(m), query, VersionToString(v));
  }

  lemma {:induction false} DecimalRoundTrip(n: nat)
    ensures DecimalValue(Decimal(n)) == n
  {
    if n >= 10 {
      DecimalRoundTrip(n / 10);
      var s := Decimal(n);
      assert s[..|s| - 1] == Decimal(n / 10);
    }
  }

  lemma {:induction false} DigitsAtFront(d: string, rest: string)
    requires AllDigits(d)
    requires rest != "" && !IsDigit(rest[0])
    ensures DigitRun(d + rest) == |d|
  {
    if d == "" {
      assert d + rest == rest;
    } else {
      assert (d + rest)[1..] == d[1..] + rest;
      DigitsAtFront(d[1..], rest);
    }
  }

  lemma ScanDigits(s: string, d: string, tail: string)
    requires d != "" && AllDigits(d) && Unsigned(s) == d + tail
    requires tail != "" && !IsDigit(tail[0])
    ensures ScanInt(s) == (Some(Signed(s, DecimalValue(d))), tail)
  {
    DigitsAtFront(d, tail);
    assert (d + tail)[..|d|] == d && (d + tail)[|d|..] == tail;
  }

  lemma SignOf(d: string, tail: string, magnitude: int)
    requires d != "" && AllDigits(d)
    ensures Unsigned(d + tail) == d + tail && Signed(d + tail, magnitude) == magnitude
    ensures Unsigned("-" + d + tail) == d + tail && Signed("-" + d + tail, magnitude) == -magnitude
  {
    assert (d + tail)[0] == d[0];
    var s := "-" + d + tail;
    assert s[0] == '-' && s[1..] == d + tail;
  }

  lemma SkipOne(s: string)
    requires s != "" && !IsSpace(s[0])
    ensures SkipSpaces(" " + s) == s
  {
    assert (" " + s)[1..] == s;
  }

  lemma ScanPrintedInt(n: int, tail: string)
    requires tail != "" && !IsDigit(tail[0])
    ensures ScanInt(IntToString(n) + tail) == (Some(n), tail)
    ensures !IsSpace((IntToString(n) + tail)[0])
  {
    var m: nat := if n < 0 then -n else n;
    DecimalRoundTrip(m);
    ScanNumber(n, Decimal(m), IntToString(n), tail);
  }

  lemma ScanNumber(n: int, d: string, number: string, tail: string)
    requires tail != "" && !IsDigit(tail[0])
    requires d != "" && AllDigits(d) && DecimalValue(d) == (if n < 0 then -n else n)
    requires number == if n < 0 then "-" + d else d
    ensures ScanInt(number + tail) == (Some(n), tail)
    ensures !IsSpace((number + tail)[0])
  {
    SignOf(d, tail, DecimalValue(d));
    ScanDigits(number + tail, d, tail);
  }

  lemma ReadPrintedInt(n: int, rest: string)
    requires INT_MIN <= n <= INT_MAX
    ensures ReadInt(Stream(" " + (IntToString(n) + (" " + rest)), true)) == (Some(n), Stream(" " + rest, true))
  {
    ScanPrintedInt(n, " " + rest);
    SkipOne(IntToString(n) + (" " + rest));
  }

  lemma WordIntRest(f: Fields, w: string, n: int, number: string, rest: string)
    requires Word(w) && NoLineEnds(rest)
    requires ReadInt(Stream(" " + (number + (" " + rest)), true)) == (Some(n), Stream(" " + rest, true))
    ensures ParseStatusLine(f, w + " " + number + " " + rest) == f.(version := w, code := n, status := " " + rest)
  {
    var tail := " " + rest;
    var s1 := " " + (number + tail);
    assert w + " " + number + " " + rest == w + s1;
    ReadPlainWord(w, s1);
    LineIsAll(tail);
    assert ReadLine(Stream(tail, true)) == Some(tail);
  }

  lemma StatusLineRoundTrip(f: Fields, v: HTTPVersion, code: int, status: string)
    requires INT_MIN <= code <= INT_MAX && NoLineEnds(status)
    ensures ParseStatusLine(f, StatusLine(v, code, status))
            == f.(version := VersionToString(v), code := code, status := " " + status)
  {
    PrintedWords(GET, v);
    ReadPrintedInt(code, status);
    WordIntRest(f, VersionToString(v), code, IntToString(code), status);
  }

  // ---------- the headers that arrive ----------

  function AddHeaders(f: Fields, hs: seq<Header>): Fields
    decreases hs
  {
    if hs == [] then f
    else
      var h := hs[0];
      AddHeaders(if h.0 in f.headers then f else f.(headers := f.headers[h.0 := h.1]), hs[1..])
  }

  lemma {:induction false} AfterHeadersFields(p: Parser, h: Header, hs: seq<Header>)
    requires p.lineNum > 1 && p.curLine == HeaderLine(h) && GoodHeader(h) && GoodHeaders(hs)
    ensures AfterHeaders(p, hs).fields == AddHeaders(p.fields, DropLast([h] + hs))
    decreases hs
  {
    if hs == [] {
      assert DropLast([h]) == [] && [h] + hs == [h];
    } else {
      HeaderRoundTrip(p.fields, h);
      var q := NextLine(p, HeaderLine(hs[0]));
      assert q.curLine == HeaderLine(hs[0]);
      AfterHeadersFields(q, hs[0], hs[1..]);
      assert [hs[0]] + hs[1..] == hs;
      assert DropLast([h] + hs)[1..] == DropLast(hs) && DropLast([h] + hs)[0] == h;
    }
  }

  predicate KeysDiffer(hs: seq<Header>) {
    forall i, j :: 0 <= i < j < |hs| ==> hs[i].0 != hs[j].0
  }

  lemma {:induction false} AddAppend(f: Fields, hs: seq<Header>, h: Header)
    ensures AddHeaders(f, hs + [h]) == AddHeaders(AddHeaders(f, hs), [h])
    decreases hs
  {
    if hs == [] {
      assert hs + [h] == [h];
    } else {
      assert (hs + [h])[1..] == hs[1..] + [h];
      var k := hs[0];
      AddAppend(if k.0 in f.headers then f else f.(headers := f.headers[k.0 := k.1]), hs[1..], h);
    }
  }

  lemma {:induction false} ToMapKeys(hs: seq<Header>, k: string)
    ensures k in ToMap(hs) <==> exists i :: 0 <= i < |hs| && hs[i].0 == k
  {
    if hs != [] {
      var init := hs[..|hs| - 1];
      ToMapKeys(init, k);
      if k in ToMap(init) {
        var i :| 0 <= i < |init| && init[i].0 == k;
        assert hs[i].0 == k;
      }
      if i :| 0 <= i < |hs| && hs[i].0 == k && i < |init| {
        assert init[i].0 == k;
      }
    }
  }

  lemma {:induction false} AddHeadersIsMap(f: Fields, hs: seq<Header>)
    requires f.headers == map[] && KeysDiffer(hs)
    ensures AddHeaders(f, hs) == f.(headers := ToMap(hs))
    decreases hs
  {
    if hs != [] {
      var init, h := hs[..|hs| - 1], hs[|hs| - 1];
      assert hs == init + [h];
      AddHeadersIsMap(f, init);
      AddAppend(f, init, h);
      ToMapKeys(init, h.0);
      assert [h][1..] == [];
    }
  }

  lemma AscendingDiffer(hs: seq<Header>)
    requires KeysAscend(hs)
    ensures KeysDiffer(hs) && KeysDiffer(DropLast(hs))
    ensures hs != [] ==> hs[|hs| - 1].0 !in ToMap(DropLast(hs))
  {
    forall i, j | 0 <= i < j < |hs|
      ensures hs[i].0 != hs[j].0
    {
      LessIsStrict(hs[i].0, hs[j].0);
    }
    if hs != [] {
      ToMapKeys(DropLast(hs), hs[|hs| - 1].0);
    }
  }

  // ---------- the round trip, as the code does it ----------

  lemma PrintedFields(kind: Kind, limit: int, line: string, hs: seq<Header>, rest: string)
    requires PlainLine(line) && GoodHeaders(hs) && KeysAscend(hs) && |Print(line, hs)| < limit
    requires ParseLine(NoFields, kind, 1, line).headers == map[]
    ensures var (q, left) := Consume(Fresh(kind, limit), Print(line, hs) + rest);
            && q.ready && left == rest
            && q.fields == if hs == [] then NoFields
                           else ParseLine(NoFields, kind, 1, line).(headers := ToMap(DropLast(hs)))
  {
    ConsumePrinted(kind, limit, line, hs, rest);
    AscendingDiffer(hs);
    if hs != [] {
      var p := NextLine(Fresh(kind, limit), line);
      assert p.curLine == line;
      var q := NextLine(p, HeaderLine(hs[0]));
      assert q.curLine == HeaderLine(hs[0]);
      AfterHeadersFields(q, hs[0], hs[1..]);
      assert [hs[0]] + hs[1..] == hs;
      AddHeadersIsMap(q.fields, DropLast(hs));
    }
  }

  lemma RequestLineIsPlain(m: HTTPMethod, query: string, v: HTTPVersion)
    requires NoLineEnds(query)
    ensures PlainLine(RequestLine(m, query, v))
  {
    assert NoLineEnds(MethodToString(m)) && NoLineEnds(VersionToString(v));
  }

  // A printed request comes back with its method, query and version, and with
  // every header except the one with the greatest key.
  lemma RequestRoundTrip(m: HTTPMethod, query: string, v: HTTPVersion, hs: seq<Header>, limit: int, rest: string)
    requires query != "" && NoSpace(query) && hs != [] && GoodHeaders(hs) && KeysAscend(hs)
    requires |Print(RequestLine(m, query, v), hs)| < limit
    ensures var (q, left) := Consume(Fresh(REQUEST, limit), Print(RequestLine(m, query, v), hs) + rest);
            && q.ready && left == rest
            && q.fields == Fields(MethodToString(m), query, VersionToString(v), "", 0, ToMap(DropLast(hs)))
            && hs[|hs| - 1].0 !in q.fields.headers
  {
    RequestLineIsPlain(m, query, v);
    RequestLineRoundTrip(NoFields, m, query, v);
    PrintedFields(REQUEST, limit, RequestLine(m, query, v), hs, rest);
    AscendingDiffer(hs);
  }

  lemma StatusLineIsPlain(v: HTTPVersion, code: int, status: string)
    requires NoLineEnds(status)
    ensures PlainLine(StatusLine(v, code, status))
  {
    assert NoLineEnds(VersionToString(v)) && NoLineEnds(IntToString(code));
  }

  // A printed response comes back with its version and code, and with a blank
  // before the status.
  lemma ResponseRoundTrip(v: HTTPVersion, code: int, status: string, hs: seq<Header>, limit: int, rest: string)
    requires INT_MIN <= code <= INT_MAX && NoLineEnds(status)
    requires hs != [] && GoodHeaders(hs) && KeysAscend(hs)
    requires |Print(StatusLine(v, code, status), hs)| < limit
    ensures var (q, left) := Consume(Fresh(RESPONSE, limit), Print(StatusLine(v, code, status), hs) + rest);
            && q.ready && left == rest
            && q.fields == Fields("", "", VersionToString(v), " " + status, code, ToMap(DropLast(hs)))
            && hs[|hs| - 1].0 !in q.fields.headers
  {
    StatusLineIsPlain(v, code, status);
    StatusLineRoundTrip(NoFields, v, code, status);
    PrintedFields(RESPONSE, limit, StatusLine(v, code, status), hs, rest);
    AscendingDiffer(hs);
  }

  // Without headers the first line itself is the line that is never applied.
  lemma NoHeadersNothingParsed(m: HTTPMethod, query: string, v: HTTPVersion, limit: int, rest: string)
    requires query != "" && NoSpace(query) && |Print(RequestLine(m, query, v), [])| < limit
    ensures var (q, left) := Consume(Fresh(REQUEST, limit), Print(RequestLine(m, query, v), []) + rest);
            q.ready && left == rest && q.fields == NoFields
  {
    RequestLineIsPlain(m, query, v);
    RequestLineRoundTrip(NoFields, m, query, v);
    PrintedFields(REQUEST, limit, RequestLine(m, query, v), [], rest);
  }

  // ---------- exactly which queries come back ----------

  lemma ReadWordHasNoSpace(st: Stream)
    ensures ReadWord(st).0.Some? ==> NoSpace(ReadWord(st).0.value) && ReadWord(st).0.value != ""
  {
  }

  lemma {:induction false} ActionHasNoSpace(p: Parser, bytes: string)
    requires NoSpace(p.fields.action)
    ensures NoSpace(Consume(p, bytes).0.fields.action)
    decreases bytes
  {
    if !p.ready && bytes != "" {
      var f := ParseLine(p.fields, p.kind, p.lineNum, p.curLine);
      assert NoSpace(f.action) by {
        var s1 := ReadWord(Stream(p.curLine, true)).1;
        ReadWordHasNoSpace(s1);
      }
      if !AtLimit(p) {
        ActionHasNoSpace(Feed(p, bytes[0]), bytes[1..]);
      }
    }
  }

  lemma TwoWords(f: Fields, a: string, c: string)
    requires Word(a) && Word(c)
    ensures ParseRequestLine(f, a + " " + "" + " " + c).action == c
    ensures ParseRequestLine(f, a + " " + "" + " " + c).headers == f.headers
  {
    var s1 := " " + (c + "");
    assert a + " " + "" + " " + c == a + (" " + s1);
    ReadPlainWord(a, " " + s1);
    ReadPlainWord(c, "");
    assert (" " + s1)[1..] == s1;
    assert SkipSpaces(" " + s1) == SkipSpaces(s1);
  }

  lemma EmptyQueryIsSkipped(f: Fields, m: HTTPMethod, v: HTTPVersion)
    ensures ParseRequestLine(f, RequestLine(m, "", v)).action == VersionToString(v)
    ensures ParseRequestLine(f, RequestLine(m, "", v)).headers == f.headers
  {
    PrintedWords(m, v);
    TwoWords(f, MethodToString(m), VersionToString(v));
  }

  // The query comes back just when it is not empty and has no white space.
  lemma QueryComesBackIff(m: HTTPMethod, query: string, v: HTTPVersion, hs: seq<Header>, limit: int)
    requires hs != [] && GoodHeaders(hs) && KeysAscend(hs)
    requires |Print(RequestLine(m, query, v), hs)| < limit
    ensures Consume(Fresh(REQUEST, limit), Print(RequestLine(m, query, v), hs)).0.fields.action == query
            <==> query != "" && NoSpace(query)
  {
    var text := Print(RequestLine(m, query, v), hs);
    assert text + "" == text;
    ActionHasNoSpace(Fresh(REQUEST, limit), text);
    if query == "" {
      RequestLineIsPlain(m, query, v);
      EmptyQueryIsSkipped(NoFields, m, v);
      PrintedFields(REQUEST, limit, RequestLine(m, query, v), hs, "");
    } else if NoSpace(query) {
      RequestRoundTrip(m, query, v, hs, limit, "");
    }
  }
}
