// A repaired parser: the empty line that ends a head parses the pending line
// first.  The code does not do that; this shows that nothing else is missing.
module HttpRepaired {
  import opened HttpParser
  import opened HttpWriter
  import opened HttpRoundTrip

  function Flushed(p: Parser): Fields {
    if p.lineNum > 0 then ParseLine(p.fields, p.kind, p.lineNum, p.curLine) else p.fields
  }

  function RepairedFeed(p: Parser, c: char): Parser {
    var q := Feed(p, c);
    if q.ready && !p.ready then q.(fields := Flushed(p)) else q
  }

  function RepairedConsume(p: Parser, bytes: string): (Parser, string)
    decreases bytes
  {
    if p.ready || bytes == "" then (p, bytes)
    else if AtLimit(p) then (RepairedFeed(p, bytes[0]), bytes[1..])
    else RepairedConsume(RepairedFeed(p, bytes[0]), bytes[1..])
  }

  // What the repair changes of a parser that has seen the empty line.
  function Repaired(q: Parser): Parser {
    if q.ready then q.(fields := Flushed(q.(lineNum := q.lineNum - 1))) else q
  }

  // For all bytes: the code lacks exactly the parse of the last logical line.
  lemma {:induction false} RepairAddsLastLine(p: Parser, bytes: string)
    requires !p.ready
    ensures RepairedConsume(p, bytes) == (Repaired(Consume(p, bytes).0), Consume(p, bytes).1)
    decreases bytes
  {
    if bytes != "" && !AtLimit(p) {
      var q := Feed(p, bytes[0]);
      if !q.ready {
        RepairAddsLastLine(q, bytes[1..]);
      } else {
        assert RepairedFeed(p, bytes[0]) == Repaired(q);
      }
    }
  }

  lemma {:induction false} FlushedHeaders(p: Parser, h: Header, hs: seq<Header>)
    requires p.lineNum > 1 && p.curLine == HeaderLine(h) && GoodHeader(h) && GoodHeaders(hs)
    ensures Flushed(AfterHeaders(p, hs)) == AddHeaders(p.fields, [h] + hs)
    decreases hs
  {
    HeaderRoundTrip(p.fields, h);
    if hs == [] {
      assert [h] + hs == [h] && [h][1..] == [];
    } else {
      var q := NextLine(p, HeaderLine(hs[0]));
      FlushedHeaders(q, hs[0], hs[1..]);
      assert [hs[0]] + hs[1..] == hs;
      assert ([h] + hs)[1..] == hs && ([h] + hs)[0] == h;
    }
  }

  lemma FlushedPrinted(kind: Kind, line: string, hs: seq<Header>, limit: int)
    requires PlainLine(line) && GoodHeaders(hs) && KeysAscend(hs)
    requires ParseLine(NoFields, kind, 1, line).headers == map[]
    ensures Flushed(AfterHeaders(NextLine(Fresh(kind, limit), line), hs))
            == ParseLine(NoFields, kind, 1, line).(headers := ToMap(hs))
  {
    AscendingDiffer(hs);
    var p := NextLine(Fresh(kind, limit), line);
    assert p.curLine == line && p.lineNum == 1;
    if hs != [] {
      var q := NextLine(p, HeaderLine(hs[0]));
      assert q.curLine == HeaderLine(hs[0]) && q.lineNum == 2;
      FlushedHeaders(q, hs[0], hs[1..]);
      assert [hs[0]] + hs[1..] == hs;
      AddHeadersIsMap(q.fields, hs);
    }
  }

  // With the repair everything printed comes back, and no header is needed.
  lemma RepairedRoundTrip(m: HTTPMethod, query: string, v: HTTPVersion, hs: seq<Header>, limit: int, rest: string)
    requires query != "" && NoSpace(query) && GoodHeaders(hs) && KeysAscend(hs)
    requires |Print(RequestLine(m, query, v), hs)| < limit
    ensures var (q, left) := RepairedConsume(Fresh(REQUEST, limit), Print(RequestLine(m, query, v), hs) + rest);
            && q.ready && left == rest
            && q.fields == Fields(MethodToString(m), query, VersionToString(v), "", 0, ToMap(hs))
  {
    var line := RequestLine(m, query, v);
    RequestLineIsPlain(m, query, v);
    RequestLineRoundTrip(NoFields, m, query, v);
    ConsumePrinted(REQUEST, limit, line, hs, rest);
    RepairAddsLastLine(Fresh(REQUEST, limit), Print(line, hs) + rest);
    FlushedPrinted(REQUEST, line, hs, limit);
  }
}
