// Which headers survive printing and parsing.
module HttpHeaders {
  import opened HttpParser
  import opened HttpWriter
  import opened HttpBatch
  import opened HttpRoundTrip

  // A header map the parser can produce.
  predicate GoodMap(headers: map<string, string>) {
    forall k | k in headers :: GoodHeader((k, headers[k]))
  }

  predicate GoodParser(p: Parser) {
    NoLineEnds(p.buf) && NoLineEnds(p.curLine) && GoodMap(p.fields.headers)
  }

  lemma {:induction false} SkipIsSuffix(s: string)
    ensures exists i :: 0 <= i <= |s| && SkipSpaces(s) == s[i..]
  {
    if s != "" && IsSpace(s[0]) {
      SkipIsSuffix(s[1..]);
      var i :| 0 <= i <= |s[1..]| && SkipSpaces(s[1..]) == s[1..][i..];
      assert s[1..][i..] == s[i + 1..];
    } else {
      assert SkipSpaces(s) == s[0..];
    }
  }

  lemma {:induction false} UpToNewlineIsPrefix(s: string)
    ensures UpToNewline(s) <= s
  {
    if s != "" && s[0] != '\n' {
      UpToNewlineIsPrefix(s[1..]);
    }
  }

  // The value read after the first word is a piece of the line.
  lemma ValueHasNoLineEnds(line: string)
    requires NoLineEnds(line)
    ensures NoLineEnds(OrOld(ReadLine(ReadWord(Stream(line, true)).1), ""))
  {
    SkipIsSuffix(line);
    UpToNewlineIsPrefix(ReadWord(Stream(line, true)).1.rest);
  }

  lemma ParsedHeaderIsGood(f: Fields, line: string)
    requires GoodMap(f.headers) && NoLineEnds(line)
    ensures GoodMap(ParseHeader(f, line).headers)
  {
    var (word, s1) := ReadWord(Stream(line, true));
    var key, value := OrOld(word, ""), OrOld(ReadLine(s1), "");
    ReadWordHasNoSpace(Stream(line, true));
    ValueHasNoLineEnds(line);
    if key != "" && value != "" {
      assert GoodHeader((key[..|key| - 1], value[1..]));
    }
  }

  lemma {:induction false} FeedKeepsGood(p: Parser, c: char)
    requires GoodParser(p)
    ensures GoodParser(Feed(p, c))
  {
    ParsedHeaderIsGood(p.fields, p.curLine);
  }

  // Whatever bytes it gets, the parser has names without white space and
  // values without line ends only.
  lemma {:induction false} ParsedHeadersAreGood(p: Parser, bytes: string)
    requires GoodParser(p)
    ensures GoodMap(Consume(p, bytes).0.fields.headers)
    decreases bytes
  {
    if !p.ready && bytes != "" {
      FeedKeepsGood(p, bytes[0]);
      if !AtLimit(p) {
        ParsedHeadersAreGood(Feed(p, bytes[0]), bytes[1..]);
      }
    }
  }

  lemma {:induction false} ToMapHas(hs: seq<Header>, i: nat)
    requires KeysDiffer(hs) && i < |hs|
    ensures hs[i].0 in ToMap(hs) && ToMap(hs)[hs[i].0] == hs[i].1
  {
    if i < |hs| - 1 {
      ToMapHas(hs[..|hs| - 1], i);
    }
  }

  // Among headers that do, one that is not the greatest comes back just when
  // its name has no white space and its value no line end.
  lemma {:induction false} HeaderComesBackIff(
    m: HTTPMethod, query: string, v: HTTPVersion, hs: seq<Header>, i: nat, limit: int)
    requires query != "" && NoSpace(query) && KeysAscend(hs) && i + 1 < |hs|
    requires forall j :: 0 <= j < |hs| && j != i ==> GoodHeader(hs[j])
    requires |Print(RequestLine(m, query, v), hs)| < limit
    ensures var parsed := Consume(Fresh(REQUEST, limit), Print(RequestLine(m, query, v), hs)).0.fields.headers;
            hs[i].0 in parsed && parsed[hs[i].0] == hs[i].1 <==> GoodHeader(hs[i])
  {
    var bytes := Print(RequestLine(m, query, v), hs);
    ParsedHeadersAreGood(Fresh(REQUEST, limit), bytes);
    if GoodHeader(hs[i]) {
      RequestRoundTrip(m, query, v, hs, limit, "");
      assert bytes + "" == bytes;
      AscendingDiffer(hs);
      ToMapHas(DropLast(hs), i);
    }
  }
}
