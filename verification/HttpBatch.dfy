// What the incremental header parser computes, said without its state: drop
// CR, split at LF up to the first empty line, join a line that starts with a
// blank to the one before (folding, section 4.2 of RFC 2616), and apply
// parseLine in order to every logical line except the last.
module HttpBatch {
  import opened HttpParser

  function Clean(b: string): string {
    if b == "" then ""
    else
      var c := b[|b| - 1];
      Clean(b[..|b| - 1]) + (if c == '\r' then "" else [c])
  }

  // The lines that are complete, and what follows the last LF.
  datatype Text = Text(lines: seq<string>, partial: string)

  function SplitLines(t: string): Text {
    if t == "" then Text([], "")
    else
      var c, s := t[|t| - 1], SplitLines(t[..|t| - 1]);
      if c == '\n' then Text(s.lines + [s.partial], "") else Text(s.lines, s.partial + [c])
  }

  function JoinLines(lines: seq<string>): string {
    if lines == [] then "" else JoinLines(lines[..|lines| - 1]) + lines[|lines| - 1] + "\n"
  }

  // Splitting loses nothing and leaves no LF inside a line.
  lemma {:induction false} SplitIsInverse(t: string)
    ensures JoinLines(SplitLines(t).lines) + SplitLines(t).partial == t
    ensures '\n' !in SplitLines(t).partial
    ensures forall l | l in SplitLines(t).lines :: '\n' !in l
  {
    if t != "" {
      var init, c := t[..|t| - 1], t[|t| - 1];
      var s := SplitLines(init);
      SplitIsInverse(init);
      assert t == init + [c];
      if c == '\n' {
        assert (s.lines + [s.partial])[..|s.lines|] == s.lines;
      } else {
        assert JoinLines(s.lines) + (s.partial + [c]) == (JoinLines(s.lines) + s.partial) + [c];
      }
    }
  }

  // A logical line and the number of the last physical line it covers.
  datatype Logical = Logical(text: string, last: nat)

  predicate Continues(line: string) {
    line != "" && IsBlank(line[0])
  }

  function Fold(lines: seq<string>): (logs: seq<Logical>)
    ensures logs == [] <==> lines == []
    ensures lines != [] ==> logs[|logs| - 1].last == |lines|
  {
    if lines == [] then []
    else
      var line, before := lines[|lines| - 1], Fold(lines[..|lines| - 1]);
      if before != [] && Continues(line) then
        before[..|before| - 1] + [Logical(before[|before| - 1].text + line, |lines|)]
      else before + [Logical(line, |lines|)]
  }

  function Apply(kind: Kind, logs: seq<Logical>): Fields {
    if logs == [] then NoFields
    else
      var log := logs[|logs| - 1];
      ParseLine(Apply(kind, logs[..|logs| - 1]), kind, log.last, log.text)
  }

  function DropLast<T>(s: seq<T>): seq<T> {
    if s == [] then [] else s[..|s| - 1]
  }

  // The n-th byte of b is the LF of an empty line.
  predicate EmptyLineAt(b: string, n: nat) {
    0 < n <= |b| && b[n - 1] == '\n' && SplitLines(Clean(b[..n - 1])).partial == ""
  }

  // The head is the first n bytes: they end with the first empty line.
  ghost predicate IsHead(b: string, n: nat) {
    EmptyLineAt(b, n) && forall k: nat | k < n :: !EmptyLineAt(b, k)
  }

  // Everything parseLine is applied to when the head is complete.
  function HeadFields(kind: Kind, head: string): Fields
    requires head != ""
  {
    Apply(kind, DropLast(Fold(SplitLines(Clean(head[..|head| - 1])).lines)))
  }

  // Everything parseLine has been applied to when the text has come this far:
  // a logical line counts from the first byte of the next one.
  function FieldsSoFar(kind: Kind, s: Text): Fields {
    if s.partial == "" || IsBlank(s.partial[0]) then Apply(kind, DropLast(Fold(s.lines)))
    else Apply(kind, Fold(s.lines))
  }

  // The logical line parseLine is still owed.
  function Pending(s: Text): string {
    var logs := Fold(s.lines);
    if logs != [] && (s.partial == "" || IsBlank(s.partial[0])) then logs[|logs| - 1].text else ""
  }

  // The fields after the bytes b, none of which ends an empty line.
  function PartialFields(kind: Kind, b: string): Fields {
    FieldsSoFar(kind, SplitLines(Clean(b)))
  }

  // p is where the parser stands after the bytes b, none of which ends an
  // empty line, and without reaching the limit.
  predicate Tracks(p: Parser, kind: Kind, b: string) {
    p == Parser(kind, p.limit, |b|, false, |SplitLines(Clean(b)).lines|, SplitLines(Clean(b)).partial,
                Pending(SplitLines(Clean(b))), FieldsSoFar(kind, SplitLines(Clean(b))))
  }

  lemma {:induction false} AppendClean(b: string, c: char)
    ensures Clean(b + [c]) == Clean(b) + (if c == '\r' then "" else [c])
  {
    assert (b + [c])[..|b|] == b;
  }

  lemma {:induction false} AppendSplit(t: string, c: char)
    ensures var s := SplitLines(t);
            SplitLines(t + [c]) ==
            if c == '\n' then Text(s.lines + [s.partial], "") else Text(s.lines, s.partial + [c])
  {
    assert (t + [c])[..|t|] == t;
  }

  lemma AppendByte(b: string, c: char)
    ensures (b + [c])[..|b|] == b
    ensures Clean(b + [c]) == Clean(b) + (if c == '\r' then "" else [c])
    ensures var s := SplitLines(Clean(b));
            SplitLines(Clean(b + [c])) ==
            if c == '\r' then s
            else if c == '\n' then Text(s.lines + [s.partial], "")
            else Text(s.lines, s.partial + [c])
  {
    AppendClean(b, c);
    AppendSplit(Clean(b), c);
    if c == '\r' {
      assert Clean(b + [c]) == Clean(b);
    }
  }

  lemma {:induction false} FoldAppend(lines: seq<string>, line: string)
    ensures var before := Fold(lines);
            Fold(lines + [line]) ==
            if before != [] && Continues(line) then
              DropLast(before) + [Logical(before[|before| - 1].text + line, |lines| + 1)]
            else before + [Logical(line, |lines| + 1)]
  {
    assert (lines + [line])[..|lines|] == lines;
  }

  lemma DropLastAppend<T>(s: seq<T>, x: T)
    ensures DropLast(s + [x]) == s
  {
  }

  lemma LastOfAppended(lines: seq<string>, line: string)
    ensures var before, after := Fold(lines), Fold(lines + [line]);
            var joins := before != [] && Continues(line);
            && after != []
            && after[|after| - 1].text == (if joins then before[|before| - 1].text + line else line)
            && DropLast(after) == if joins then DropLast(before) else before
  {
    FoldAppend(lines, line);
    var before, after := Fold(lines), Fold(lines + [line]);
    DropLastAppend(if before != [] && Continues(line) then DropLast(before) else before, after[|after| - 1]);
  }

  lemma LineCompleted(kind: Kind, s: Text)
    requires s.partial != ""
    ensures var t := Text(s.lines + [s.partial], "");
            Pending(t) == Pending(s) + s.partial && FieldsSoFar(kind, t) == FieldsSoFar(kind, s)
  {
    LastOfAppended(s.lines, s.partial);
    var before, after := Fold(s.lines), Fold(s.lines + [s.partial]);
    if before != [] && Continues(s.partial) {
      assert after[|after| - 1].text == Pending(s) + s.partial;
    } else {
      assert Pending(s) == "" && "" + s.partial == s.partial;
      assert DropLast(after) == if Continues(s.partial) then DropLast(before) else before;
    }
  }

  lemma FeedNewline(p: Parser, kind: Kind, b: string)
    requires Tracks(p, kind, b) && |b| + 1 < p.limit && p.buf != ""
    ensures Tracks(Feed(p, '\n'), kind, b + ['\n'])
  {
    AppendByte(b, '\n');
    LineCompleted(kind, SplitLines(Clean(b)));
  }

  lemma FeedLetter(p: Parser, kind: Kind, b: string, c: char)
    requires Tracks(p, kind, b) && |b| + 1 < p.limit && c != '\n' && c != '\r'
    ensures Tracks(Feed(p, c), kind, b + [c])
  {
    AppendByte(b, c);
  }

  lemma FeedTracks(p: Parser, kind: Kind, b: string, c: char)
    requires Tracks(p, kind, b) && |b| + 1 < p.limit && !EmptyLineAt(b + [c], |b| + 1)
    ensures Tracks(Feed(p, c), kind, b + [c])
  {
    AppendByte(b, c);
    if c == '\n' {
      FeedNewline(p, kind, b);
    } else if c != '\r' {
      FeedLetter(p, kind, b, c);
    }
  }

  lemma EmptyLinePrefix(b: string, n: nat, k: nat)
    requires k <= n <= |b|
    ensures EmptyLineAt(b[..n], k) <==> EmptyLineAt(b, k)
  {
    if 0 < k {
      assert b[..n][..k - 1] == b[..k - 1];
    }
  }

  // Running over bytes that end no empty line.
  lemma {:induction false} ConsumeTracks(p: Parser, kind: Kind, b: string, k: nat, n: nat) returns (q: Parser)
    requires k <= n <= |b| && Tracks(p, kind, b[..k]) && (n < p.limit || n == k)
    requires forall i: nat | i <= n :: !EmptyLineAt(b, i)
    ensures Tracks(q, kind, b[..n]) && q.limit == p.limit
    ensures Consume(p, b[k..]) == Consume(q, b[n..])
    decreases n - k
  {
    q := p;
    if k < n {
      OneByteTracks(p, kind, b, k);
      OneByteConsumed(p, b, k);
      q := ConsumeTracks(Feed(p, b[k]), kind, b, k + 1, n);
    }
  }

  lemma OneByteTracks(p: Parser, kind: Kind, b: string, k: nat)
    requires k < |b| && Tracks(p, kind, b[..k]) && k + 1 < p.limit && !EmptyLineAt(b, k + 1)
    ensures Tracks(Feed(p, b[k]), kind, b[..k + 1])
  {
    EmptyLinePrefix(b, k + 1, k + 1);
    assert b[..k + 1] == b[..k] + [b[k]];
    FeedTracks(p, kind, b[..k], b[k]);
  }

  lemma OneByteConsumed(p: Parser, b: string, k: nat)
    requires k < |b| && !p.ready && p.count + 1 < p.limit
    ensures Feed(p, b[k]).limit == p.limit
    ensures Consume(p, b[k..]) == Consume(Feed(p, b[k]), b[k + 1..])
  {
    assert b[k..][1..] == b[k + 1..];
  }

  lemma FreshTracks(kind: Kind, limit: int)
    ensures Tracks(Fresh(kind, limit), kind, "")
  {
  }

  // How many bytes write can look at before the limit stops it.
  function Room(limit: int): nat {
    if limit <= 0 then 0 else limit - 1
  }

  // A head that fits: the parser becomes ready, has applied parseLine to every
  // logical line but the last, and leaves exactly the bytes after the head.
  lemma HeadIsParsed(kind: Kind, limit: int, b: string, n: nat)
    requires IsHead(b, n) && n < limit
    ensures var (q, rest) := Consume(Fresh(kind, limit), b);
            q.ready && q.count == n && q.fields == HeadFields(kind, b[..n]) && rest == b[n..]
  {
    FreshTracks(kind, limit);
    assert b[..0] == "" && b[0..] == b;
    var p := ConsumeTracks(Fresh(kind, limit), kind, b, 0, n - 1);
    assert b[n - 1..][0] == '\n' && b[n - 1..][1..] == b[n..];
    assert b[..n][..n - 1] == b[..n - 1];
  }

  // How many bytes of b write gets to look at.
  function Seen(limit: int, b: string): (k: nat)
    ensures k <= |b|
  {
    if |b| <= Room(limit) then |b| else Room(limit)
  }

  lemma StoppedByLimit(p: Parser, b: string, k: nat)
    requires k < |b| && !p.ready && AtLimit(p)
    ensures var (q, rest) := Consume(p, b[k..]); !q.ready && q.fields == p.fields && rest == b[k + 1..]
  {
    assert b[k..][1..] == b[k + 1..];
  }

  // No head within the limit: the parser is not ready, and one byte more than
  // it looked at is gone.
  lemma NoHeadIsParsed(kind: Kind, limit: int, b: string)
    requires forall n: nat | n <= Seen(limit, b) :: !EmptyLineAt(b, n)
    ensures var k := Seen(limit, b);
            var (q, rest) := Consume(Fresh(kind, limit), b);
            && !q.ready && q.fields == PartialFields(kind, b[..k])
            && rest == (if |b| == k then "" else b[k + 1..])
  {
    var k := Seen(limit, b);
    FreshTracks(kind, limit);
    assert b[..0] == "" && b[0..] == b;
    var p := ConsumeTracks(Fresh(kind, limit), kind, b, 0, k);
    if k < |b| {
      StoppedByLimit(p, b, k);
    }
  }

  lemma {:induction false} FirstHead(b: string, n: nat) returns (m: nat)
    requires EmptyLineAt(b, n)
    ensures m <= n && IsHead(b, m)
  {
    if k: nat :| k < n && EmptyLineAt(b, k) {
      m := FirstHead(b, k);
    } else {
      m := n;
    }
  }

  // The parser becomes ready just when the head ends within the first
  // limit - 1 bytes.
  lemma ReadyIffHeadFits(kind: Kind, limit: int, b: string)
    ensures Consume(Fresh(kind, limit), b).0.ready <==> exists n: nat :: IsHead(b, n) && n < limit
  {
    if n: nat :| n <= Seen(limit, b) && EmptyLineAt(b, n) {
      var m := FirstHead(b, n);
      HeadIsParsed(kind, limit, b, m);
    } else {
      NoHeadIsParsed(kind, limit, b);
      assert forall n: nat :: IsHead(b, n) ==> n > Seen(limit, b);
    }
  }

  // ---------- chunks ----------

  function Joined(chunks: seq<string>): string {
    if chunks == [] then "" else chunks[0] + Joined(chunks[1..])
  }

  // One write per chunk: the parser afterwards and what the writes left.
  function WriteAll(p: Parser, chunks: seq<string>): (Parser, string)
    decreases chunks
  {
    if chunks == [] then (p, "")
    else
      var (q, left) := Consume(p, chunks[0]);
      var (r, more) := WriteAll(q, chunks[1..]);
      (r, left + more)
  }

  predicate Exhausted(p: Parser) {
    !p.ready && p.count >= p.limit
  }

  lemma {:induction false} ConsumeOutcome(p: Parser, x: string)
    requires !p.ready
    ensures var (q, left) := Consume(p, x);
            && q.limit == p.limit && q.count + |left| == p.count + |x|
            && (left != "" ==> q.ready || Exhausted(q))
            && (Exhausted(p) ==> Exhausted(q) && q.fields == p.fields)
    decreases x
  {
    if x != "" && !AtLimit(p) && !Feed(p, x[0]).ready {
      ConsumeOutcome(Feed(p, x[0]), x[1..]);
    }
  }

  lemma {:induction false} ConsumeConcat(p: Parser, x: string, y: string)
    requires !p.ready
    ensures var (q, left) := Consume(p, x);
            Consume(p, x + y) == if q.ready || (Exhausted(q) && x != "") then (q, left + y) else Consume(q, y)
    decreases x
  {
    if x == "" {
      assert x + y == y;
    } else {
      assert (x + y)[0] == x[0] && (x + y)[1..] == x[1..] + y;
      if !AtLimit(p) {
        var p' := Feed(p, x[0]);
        if p'.ready {
          assert Consume(p', x[1..] + y) == (p', x[1..] + y);
        } else {
          ConsumeConcat(p', x[1..], y);
          ConsumeOutcome(p', x[1..]);
          if x[1..] == "" {
            assert Consume(p', x[1..]) == (p', "");
          }
        }
      }
    }
  }

  lemma {:induction false} NothingMore(p: Parser, chunks: seq<string>)
    requires p.ready || Exhausted(p)
    ensures var (r, left) := WriteAll(p, chunks);
            && r.ready == p.ready && r.fields == p.fields
            && (p.ready ==> (r, left) == (p, Joined(chunks)))
            && (Exhausted(p) ==> Exhausted(r))
    decreases chunks
  {
    if chunks != [] {
      if !p.ready {
        ConsumeOutcome(p, chunks[0]);
      }
      NothingMore(Consume(p, chunks[0]).0, chunks[1..]);
    }
  }

  // Any split of the input into chunks gives the same fields, headers and
  // ready flag as one write; and the whole parser and the unread bytes agree
  // too unless the limit was hit (then each further write drops a byte).
  lemma {:induction false} ChunkInvariance(p: Parser, chunks: seq<string>)
    requires !p.ready
    ensures var (q, left) := Consume(p, Joined(chunks));
            var (r, more) := WriteAll(p, chunks);
            && r.ready == q.ready && r.fields == q.fields
            && (!Exhausted(q) ==> (r, more) == (q, left))
    decreases chunks
  {
    if chunks != [] {
      var x, y := chunks[0], Joined(chunks[1..]);
      var (p', left') := Consume(p, x);
      ConsumeConcat(p, x, y);
      ConsumeOutcome(p, x);
      if p'.ready || (Exhausted(p') && x != "") {
        NothingMore(p', chunks[1..]);
      } else {
        ChunkInvariance(p', chunks[1..]);
        assert left' == "" && left' + WriteAll(p', chunks[1..]).1 == WriteAll(p', chunks[1..]).1;
      }
    }
  }

  // For a fresh parser, chunk by chunk: ready if and only if the head of the
  // whole input fits, and then with the batch fields and the exact suffix.
  lemma ChunkedHead(kind: Kind, limit: int, chunks: seq<string>)
    ensures var b := Joined(chunks);
            var (r, left) := WriteAll(Fresh(kind, limit), chunks);
            && (r.ready <==> exists n: nat :: IsHead(b, n) && n < limit)
            && (forall n: nat :: IsHead(b, n) && n < limit ==>
                  r.fields == HeadFields(kind, b[..n]) && left == b[n..])
  {
    var b := Joined(chunks);
    ChunkInvariance(Fresh(kind, limit), chunks);
    ReadyIffHeadFits(kind, limit, b);
    forall n: nat | IsHead(b, n) && n < limit
      ensures var (r, left) := WriteAll(Fresh(kind, limit), chunks);
              r.fields == HeadFields(kind, b[..n]) && left == b[n..]
    {
      HeadIsParsed(kind, limit, b, n);
    }
  }
}
