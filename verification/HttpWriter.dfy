// HTTPHeadersWriter: the serializer.  std::map is the sequence of its entries
// in key order, which is the order getData prints them in.
module HttpWriter {
  import opened Common
  import opened HttpParser
  import Data

  datatype HTTPMethod = InvalidMethod | GET | POST | HEAD | PUT | DELETE
  datatype HTTPVersion = InvalidVersion | HTTP_1_0 | HTTP_1_1

  function MethodToString(m: HTTPMethod): string {
    match m
    case GET => "GET"
    case POST => "POST"
    case PUT => "PUT"
    case DELETE => "DELETE"
    case HEAD => "HEAD"
    case InvalidMethod => "UNKNOWN"
  }

  function VersionToString(v: HTTPVersion): string {
    match v
    case HTTP_1_0 => "HTTP/1.0"
    case HTTP_1_1 => "HTTP/1.1"
    case InvalidVersion => "HTTP/INVALID"
  }

  // ss << code
  function Digit(d: nat): char
    requires d < 10
  {
    ('0' as int + d) as char
  }

  function Decimal(n: nat): (s: string)
    ensures s != ""
    ensures AllDigits(s)
  {
    if n < 10 then [Digit(n)] else Decimal(n / 10) + [Digit(n % 10)]
  }

  function IntToString(n: int): string {
    if n < 0 then "-" + Decimal(-n) else Decimal(n)
  }

  // ---------- std::map<std::string, std::string> ----------

  type Header = (string, string)

  // operator< on strings
  predicate Less(a: string, b: string) {
    b != "" && (a == "" || a[0] < b[0] || (a[0] == b[0] && Less(a[1..], b[1..])))
  }

  predicate KeysAscend(hs: seq<Header>) {
    forall i, j :: 0 <= i < j < |hs| ==> Less(hs[i].0, hs[j].0)
  }

  // map::insert keeps the value of a key that is there already.
  function InsertHeader(hs: seq<Header>, h: Header): seq<Header> {
    if hs == [] || Less(h.0, hs[0].0) then [h] + hs
    else if h.0 == hs[0].0 then hs
    else [hs[0]] + InsertHeader(hs[1..], h)
  }

  // The order without recursion: a is a proper prefix of b, or smaller at the
  // first place where they differ.
  predicate Precedes(a: string, b: string) {
    exists n: nat :: n <= |a| && n <= |b| && a[..n] == b[..n] &&
                     ((n == |a| && n < |b|) || (n < |a| && n < |b| && a[n] < b[n]))
  }

  lemma {:induction false} LessIsPrecedes(a: string, b: string)
    ensures Less(a, b) <==> Precedes(a, b)
    decreases a
  {
    if a != "" && b != "" && a[0] == b[0] {
      LessIsPrecedes(a[1..], b[1..]);
      SameFirst(a, b);
    } else if Less(a, b) {
      assert a[..0] == b[..0];
    }
  }

  lemma {:induction false} SameFirst(a: string, b: string)
    requires a != "" && b != "" && a[0] == b[0]
    ensures Precedes(a, b) <==> Precedes(a[1..], b[1..])
  {
    if Precedes(a, b) {
      var n: nat :| n <= |a| && n <= |b| && a[..n] == b[..n] &&
                    ((n == |a| && n < |b|) || (n < |a| && n < |b| && a[n] < b[n]));
      assert n > 0 && a[1..][..n - 1] == a[..n][1..] && b[1..][..n - 1] == b[..n][1..];
    }
    if Precedes(a[1..], b[1..]) {
      var x, y := a[1..], b[1..];
      var n: nat :| n <= |x| && n <= |y| && x[..n] == y[..n] &&
                    ((n == |x| && n < |y|) || (n < |x| && n < |y| && x[n] < y[n]));
      assert a[..n + 1] == [a[0]] + x[..n] && b[..n + 1] == [b[0]] + y[..n];
    }
  }

  lemma {:induction false} LessIsStrict(a: string, b: string)
    ensures !(Less(a, b) && Less(b, a))
    ensures a == b ==> !Less(a, b)
    ensures a != b ==> Less(a, b) || Less(b, a)
    decreases a
  {
    if a != "" && b != "" {
      LessIsStrict(a[1..], b[1..]);
      assert a == [a[0]] + a[1..] && b == [b[0]] + b[1..];
    }
  }

  lemma {:induction false} LessIsTransitive(a: string, b: string, c: string)
    requires Less(a, b) && Less(b, c)
    ensures Less(a, c)
    decreases a
  {
    if a != "" && a[0] == b[0] == c[0] {
      LessIsTransitive(a[1..], b[1..], c[1..]);
    }
  }

  ghost predicate HasKey(hs: seq<Header>, k: string) {
    exists v :: (k, v) in hs
  }

  lemma {:induction false} InsertHeaderMembers(hs: seq<Header>, h: Header, e: Header)
    requires KeysAscend(hs)
    ensures e in InsertHeader(hs, h) <==> e in hs || (e == h && !HasKey(hs, h.0))
  {
    if hs == [] {
    } else if Less(h.0, hs[0].0) {
      forall i | 0 <= i < |hs|
        ensures hs[i].0 != h.0
      {
        LessIsStrict(h.0, hs[0].0);
        LessIsStrict(h.0, hs[i].0);
        if i > 0 { LessIsTransitive(h.0, hs[0].0, hs[i].0); }
      }
    } else if h.0 == hs[0].0 {
      assert hs[0] in hs && hs[0] == (h.0, hs[0].1);
    } else {
      InsertHeaderMembers(hs[1..], h, e);
      assert HasKey(hs, h.0) <==> HasKey(hs[1..], h.0) by {
        assert forall v :: (h.0, v) in hs <==> (h.0, v) in hs[1..];
      }
    }
  }

  lemma {:induction false} InsertKeepsAscending(hs: seq<Header>, h: Header)
    requires KeysAscend(hs)
    ensures KeysAscend(InsertHeader(hs, h))
  {
    if hs != [] {
      var r := InsertHeader(hs, h);
      if Less(h.0, hs[0].0) {
        forall j | 0 < j < |r|
          ensures Less(h.0, r[j].0)
        {
          if j > 1 { LessIsTransitive(h.0, hs[0].0, hs[j - 1].0); }
        }
      } else if h.0 != hs[0].0 {
        var t := InsertHeader(hs[1..], h);
        InsertKeepsAscending(hs[1..], h);
        LessIsStrict(h.0, hs[0].0);
        forall j | 0 <= j < |t|
          ensures Less(hs[0].0, t[j].0)
        {
          InsertHeaderMembers(hs[1..], h, t[j]);
          if t[j] in hs[1..] {
            var i :| 0 <= i < |hs[1..]| && hs[1..][i] == t[j];
            assert hs[i + 1] == t[j];
          }
        }
      }
    }
  }

  function ToMap(hs: seq<Header>): map<string, string> {
    if hs == [] then map[] else ToMap(hs[..|hs| - 1])[hs[|hs| - 1].0 := hs[|hs| - 1].1]
  }

  // ---------- what is printed ----------

  function RequestLine(m: HTTPMethod, query: string, v: HTTPVersion): string {
    MethodToString(m) + " " + query + " " + VersionToString(v)
  }

  function StatusLine(v: HTTPVersion, code: int, status: string): string {
    VersionToString(v) + " " + IntToString(code) + " " + status
  }

  function HeaderLine(h: Header): string {
    h.0 + ": " + h.1
  }

  function PrintHeaders(hs: seq<Header>): string {
    if hs == [] then "" else HeaderLine(hs[0]) + "\r\n" + PrintHeaders(hs[1..])
  }

  // getData(); `line` is the first line without its line end
  function Print(line: string, hs: seq<Header>): string {
    line + "\r\n" + PrintHeaders(hs) + "\r\n"
  }

  lemma {:induction false} PrintAppend(hs: seq<Header>, h: Header)
    ensures PrintHeaders(hs + [h]) == PrintHeaders(hs) + HeaderLine(h) + "\r\n"
  {
    if hs == [] {
      assert hs + [h] == [h] && PrintHeaders([h][1..]) == "";
      assert HeaderLine(h) + "\r\n" + "" == "" + HeaderLine(h) + "\r\n";
    } else {
      assert (hs + [h])[1..] == hs[1..] + [h];
      PrintAppend(hs[1..], h);
      var first, rest := HeaderLine(hs[0]) + "\r\n", PrintHeaders(hs[1..]);
      assert first + (rest + HeaderLine(h) + "\r\n") == (first + rest) + HeaderLine(h) + "\r\n";
    }
  }

  // ---------- the bytes, letter by letter ----------

  // A request with two headers, in whichever order they were added.
  lemma {:induction false} PrintedRequest(query: string, name1: string, value1: string, name2: string, value2: string)
    requires Precedes(name1, name2)
    ensures var (h1, h2) := ((name1, value1), (name2, value2));
            var text := "POST " + query + " HTTP/1.1\r\n"
                        + (name1 + ": " + value1 + "\r\n" + (name2 + ": " + value2 + "\r\n")) + "\r\n";
            && Print(RequestLine(POST, query, HTTP_1_1), InsertHeader(InsertHeader([], h1), h2)) == text
            && Print(RequestLine(POST, query, HTTP_1_1), InsertHeader(InsertHeader([], h2), h1)) == text
  {
    var h1, h2 := (name1, value1), (name2, value2);
    LessIsPrecedes(name1, name2);
    LessIsStrict(name1, name2);
    TwoHeaders(h1, h2);
    TwoLines(h1, h2);
    assert "POST" + " " == "POST " && " " + "HTTP/1.1" == " HTTP/1.1" && " HTTP/1.1" + "\r\n" == " HTTP/1.1\r\n";
    ThreeParts("POST " + query, " ", "HTTP/1.1");
    ThreeParts("POST " + query, " HTTP/1.1", "\r\n");
  }

  lemma {:induction false} TwoHeaders(h1: Header, h2: Header)
    requires Less(h1.0, h2.0) && !Less(h2.0, h1.0) && h1.0 != h2.0
    ensures InsertHeader(InsertHeader([], h1), h2) == [h1, h2]
    ensures InsertHeader(InsertHeader([], h2), h1) == [h1, h2]
  {
    assert [h1][1..] == [] && [h1] + [h2] == [h1, h2];
    assert InsertHeader([], h1) == [h1] && InsertHeader([], h2) == [h2];
    assert InsertHeader([h1], h2) == [h1] + InsertHeader([], h2);
  }

  lemma {:induction false} TwoLines(h1: Header, h2: Header)
    ensures PrintHeaders([h1, h2])
            == h1.0 + ": " + h1.1 + "\r\n" + (h2.0 + ": " + h2.1 + "\r\n")
  {
    assert [h1, h2][1..] == [h2] && [h2][1..] == [];
    assert PrintHeaders([h2]) == HeaderLine(h2) + "\r\n";
  }

  // The words of all methods and versions, and two codes.
  lemma PrintedWordsAre(query: string, status: string)
    ensures RequestLine(GET, query, HTTP_1_0) == "GET" + " " + query + " " + "HTTP/1.0"
    ensures RequestLine(HEAD, query, HTTP_1_1) == "HEAD" + " " + query + " " + "HTTP/1.1"
    ensures RequestLine(PUT, query, HTTP_1_1) == "PUT" + " " + query + " " + "HTTP/1.1"
    ensures RequestLine(DELETE, query, HTTP_1_1) == "DELETE" + " " + query + " " + "HTTP/1.1"
    ensures RequestLine(InvalidMethod, query, InvalidVersion) == "UNKNOWN" + " " + query + " " + "HTTP/INVALID"
    ensures StatusLine(HTTP_1_1, 404, status) == "HTTP/1.1" + " " + "404" + " " + status
    ensures StatusLine(HTTP_1_0, -7, status) == "HTTP/1.0" + " " + "-7" + " " + status
  {
    TwoCodes();
  }

  lemma TwoCodes()
    ensures IntToString(404) == "404" && IntToString(-7) == "-7"
  {
    assert Decimal(4) == "4" && Decimal(40) == "4" + "0" && Decimal(404) == "40" + "4";
    assert Decimal(7) == "7";
  }

  class HTTPHeadersWriter {
    var first_line: string
    var headers: seq<Header>

    ghost predicate Valid()
      reads this
    {
      KeysAscend(headers)
    }

    constructor ()
      ensures Valid() && first_line == "" && headers == []
    {
      first_line, headers := "", [];
    }

    method AddHeader(name: string, value: string)
      requires Valid()
      modifies this`headers
      ensures Valid() && headers == InsertHeader(old(headers), (name, value))
    {
      InsertKeepsAscending(headers, (name, value));
      headers := InsertHeader(headers, (name, value));
    }

    method SetResponse(version: HTTPVersion, code: int, status: string)
      modifies this`first_line
      ensures first_line == StatusLine(version, code, status) + "\r\n"
    {
      first_line := VersionToString(version) + " " + IntToString(code) + " " + status + "\r\n";
    }

    method SetRequest(m: HTTPMethod, query: string, version: HTTPVersion)
      modifies this`first_line
      ensures first_line == RequestLine(m, query, version) + "\r\n"
    {
      first_line := MethodToString(m) + " " + query + " " + VersionToString(version) + "\r\n";
    }

    // None stands for the exception.
    method GetData() returns (r: Option<Data.Data>)
      modifies this
      ensures r.None? <==> old(first_line) == ""
      ensures r.None? ==> first_line == old(first_line) && headers == old(headers)
      ensures r.Some? ==>
                && first_line == "" && headers == [] && fresh(r.value) && r.value.Valid()
                && r.value.View() == old(first_line) + PrintHeaders(old(headers)) + "\r\n"
    {
      if first_line == "" {
        return None;
      }
      var ss := first_line;
      var i := 0;
      while i < |headers|
        invariant 0 <= i <= |headers|
        invariant first_line == old(first_line) && headers == old(headers)
        invariant ss == first_line + PrintHeaders(headers[..i])
      {
        PrintAppend(headers[..i], headers[i]);
        assert headers[..i + 1] == headers[..i] + [headers[i]];
        ss := ss + headers[i].0 + ": " + headers[i].1 + "\r\n";
        assert ss == first_line + (PrintHeaders(headers[..i]) + HeaderLine(headers[i]) + "\r\n");
        i := i + 1;
      }
      assert headers[..i] == headers;
      ss := ss + "\r\n";
      first_line, headers := "", [];
      var d := new Data.Data.FromBytes(ss);
      r := Some(d);
    }
  }
}
