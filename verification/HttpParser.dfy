// HTTPHeadersParser: the incremental parser on values, one byte at a time,
// and the class that runs it.  A char stands for a byte; no rule depends on
// the range of chars.
module HttpParser {
  import opened Common
  import Data

  // ---------- std::stringstream extraction, classic locale ----------

  predicate IsSpace(c: char) {
    c == ' ' || c == '\t' || c == '\n' || c == '\r' || c as int == 11 || c as int == 12
  }

  predicate NoSpace(s: string) {
    forall i :: 0 <= i < |s| ==> !IsSpace(s[i])
  }

  // What is left to read, and whether the stream is still good(): reaching the
  // end while extracting makes every later extraction fail.
  datatype Stream = Stream(rest: string, good: bool)

  function SkipSpaces(s: string): (r: string)
    ensures r == "" || !IsSpace(r[0])
    ensures |r| <= |s|
  {
    if s == "" || !IsSpace(s[0]) then s else SkipSpaces(s[1..])
  }

  // Length of the leading run without white space.
  function WordLength(s: string): (n: nat)
    ensures n <= |s| && NoSpace(s[..n])
    ensures n < |s| ==> IsSpace(s[n])
  {
    if s == "" || IsSpace(s[0]) then 0 else 1 + WordLength(s[1..])
  }

  predicate IsDigit(c: char) {
    '0' <= c <= '9'
  }

  predicate AllDigits(s: string) {
    forall i :: 0 <= i < |s| ==> IsDigit(s[i])
  }

  function DigitRun(s: string): (n: nat)
    ensures n <= |s|
    ensures AllDigits(s[..n])
    ensures n < |s| ==> !IsDigit(s[n])
  {
    if s == "" || !IsDigit(s[0]) then 0 else 1 + DigitRun(s[1..])
  }

  // ss >> word; None leaves the variable as it was.
  function ReadWord(st: Stream): (Option<string>, Stream) {
    var s := SkipSpaces(st.rest);
    if !st.good || s == "" then (None, Stream("", false))
    else
      var n := WordLength(s);
      (Some(s[..n]), Stream(s[n..], n < |s|))
  }

  // std::getline(ss, line, '\n')
  function ReadLine(st: Stream): Option<string> {
    if !st.good || st.rest == "" then None else Some(UpToNewline(st.rest))
  }

  function UpToNewline(s: string): string {
    if s == "" || s[0] == '\n' then "" else [s[0]] + UpToNewline(s[1..])
  }

  function DecimalValue(s: string): int
    requires AllDigits(s)
  {
    if s == "" then 0
    else DecimalValue(s[..|s| - 1]) * 10 + (s[|s| - 1] as int - '0' as int)
  }

  const INT_MAX := 0x7fff_ffff
  const INT_MIN := -0x8000_0000

  function Clamped(n: int): int {
    if n > INT_MAX then INT_MAX else if n < INT_MIN then INT_MIN else n
  }

  // What follows an optional sign, and what the sign does to the number.
  function Unsigned(s: string): string {
    if s != "" && (s[0] == '-' || s[0] == '+') then s[1..] else s
  }

  function Signed(s: string, magnitude: int): int {
    if s != "" && s[0] == '-' then -magnitude else magnitude
  }

  // The signed number at the front of s, and the rest.
  function ScanInt(s: string): (Option<int>, string) {
    var digits := Unsigned(s);
    var n := DigitRun(digits);
    if n == 0 then (None, digits) else (Some(Signed(s, DecimalValue(digits[..n]))), digits[n..])
  }

  // ss >> code for a 32-bit int: a value out of range is clamped and fails the
  // stream, no digits at all leave the variable as it was and fail it too.
  function ReadInt(st: Stream): (Option<int>, Stream) {
    if !st.good then (None, Stream("", false))
    else
      var (value, rest) := ScanInt(SkipSpaces(st.rest));
      if value.None? then (None, Stream(rest, false))
      else (Some(Clamped(value.value)), Stream(rest, rest != "" && Clamped(value.value) == value.value))
  }

  // ---------- parseLine ----------

  datatype Kind = REQUEST | RESPONSE

  datatype Fields = Fields(
    verb: string,      // method
    action: string,
    version: string,
    status: string,
    code: int,
    headers: map<string, string>)

  const NoFields := Fields("", "", "", "", 0, map[])

  function OrOld<T>(o: Option<T>, old_: T): T {
    if o.Some? then o.value else old_
  }

  function ParseRequestLine(f: Fields, line: string): Fields {
    var (verb, s1) := ReadWord(Stream(line, true));
    var (action, s2) := ReadWord(s1);
    var (version, _) := ReadWord(s2);
    f.(verb := OrOld(verb, f.verb), action := OrOld(action, f.action), version := OrOld(version, f.version))
  }

  function ParseStatusLine(f: Fields, line: string): Fields {
    var (version, s1) := ReadWord(Stream(line, true));
    var (code, s2) := ReadInt(s1);
    var status := ReadLine(s2);
    f.(version := OrOld(version, f.version), code := OrOld(code, f.code), status := OrOld(status, f.status))
  }

  // The key loses its last character, the value its first; the first value of
  // a repeated key stays.
  function ParseHeader(f: Fields, line: string): Fields {
    var (word, s1) := ReadWord(Stream(line, true));
    var key := OrOld(word, "");
    var value := OrOld(ReadLine(s1), "");
    if key == "" || value == "" || key[..|key| - 1] in f.headers then f
    else f.(headers := f.headers[key[..|key| - 1] := value[1..]])
  }

  // lineNum counts physical lines, so a folded first line is taken for a
  // header.
  function ParseLine(f: Fields, kind: Kind, lineNum: int, line: string): Fields {
    if lineNum != 1 then ParseHeader(f, line)
    else if kind == REQUEST then ParseRequestLine(f, line)
    else ParseStatusLine(f, line)
  }

  // ---------- write, on values ----------

  datatype Parser = Parser(
    kind: Kind, limit: int, count: int, ready: bool, lineNum: int, buf: string, curLine: string, fields: Fields)

  function Fresh(kind: Kind, limit: int): Parser {
    Parser(kind, limit, 0, false, 0, "", "", NoFields)
  }

  predicate IsBlank(c: char) {
    c == ' ' || c == '\t'
  }

  // The next byte makes ++count reach the limit.
  predicate AtLimit(p: Parser) {
    p.count + 1 >= p.limit
  }

  // One pass of the loop in write.
  function Feed(p: Parser, c: char): Parser {
    var q := p.(count := p.count + 1);
    if AtLimit(p) || c == '\r' then q
    else if c == '\n' then
      if p.buf == "" then q.(lineNum := p.lineNum + 1, ready := true)
      else q.(lineNum := p.lineNum + 1, curLine := p.curLine + p.buf, buf := "")
    else if p.buf == "" && !IsBlank(c) && p.lineNum > 0 then
      q.(fields := ParseLine(p.fields, p.kind, p.lineNum, p.curLine), curLine := "", buf := [c])
    else q.(buf := p.buf + [c])
  }

  // write(data): the parser afterwards and the bytes left unread.
  function Consume(p: Parser, bytes: string): (Parser, string)
    decreases bytes
  {
    if p.ready || bytes == "" then (p, bytes)
    else if AtLimit(p) then (Feed(p, bytes[0]), bytes[1..])
    else Consume(Feed(p, bytes[0]), bytes[1..])
  }

  class HTTPHeadersParser {
    const kind: Kind
    const limit: int
    var count: int
    var ready: bool
    var lineNum: int
    var buf: string
    var curLine: string
    var verb: string
    var action: string
    var version: string
    var status: string
    var code: int
    var headers: map<string, string>

    function Model(): Parser
      reads this
    {
      Parser(kind, limit, count, ready, lineNum, buf, curLine,
             Fields(verb, action, version, status, code, headers))
    }

    constructor (kind: Kind, limit: int := 4 * 1024)
      ensures Model() == Fresh(kind, limit)
    {
      this.kind, this.limit := kind, limit;
      count, ready, lineNum, buf, curLine := 0, false, 0, "", "";
      verb, action, version, status, code, headers := "", "", "", "", 0, map[];
    }

    method ParseLineNow(line: string)
      modifies this
      ensures Model() == old(Model()).(fields := ParseLine(old(Model()).fields, kind, old(lineNum), line))
    {
      var f := ParseLine(Fields(verb, action, version, status, code, headers), kind, lineNum, line);
      verb, action, version, status, code, headers := f.verb, f.action, f.version, f.status, f.code, f.headers;
    }

    // One pass of the loop in write, after getByte; true means return.
    method Accept(c: char) returns (stop: bool)
      requires !ready
      modifies this
      ensures Model() == Feed(old(Model()), c)
      ensures stop <==> AtLimit(old(Model())) || ready
    {
      count := count + 1;
      if count >= limit {
        return true;
      }
      if c == '\r' {
      } else if c == '\n' {
        lineNum := lineNum + 1;
        if buf == "" {
          ready := true;
          return true;
        } else {
          curLine := curLine + buf;
          buf := "";
        }
      } else {
        if buf == "" {
          if c == ' ' || c == '\t' {
          } else if lineNum > 0 {
            ParseLineNow(curLine);
            curLine := "";
          }
        }
        buf := buf + [c];
      }
      stop := false;
    }

    method Write(data: Data.Data)
      requires data.Valid()
      modifies this, data
      ensures data.Valid()
      ensures (Model(), data.View()) == Consume(old(Model()), old(data.View()))
    {
      if ready {
        return;
      }
      while data.size != 0
        invariant data.Valid() && !ready
        invariant Consume(Model(), data.View()) == Consume(old(Model()), old(data.View()))
        decreases data.size
      {
        ghost var p, bytes := Model(), data.View();
        var c := data.GetByte();
        assert bytes[0] == c && bytes[1..] == data.View();
        assert Model() == p;
        var stop := Accept(c);
        assert data.View() == bytes[1..];
        if stop {
          return;
        }
      }
    }
  }
}
