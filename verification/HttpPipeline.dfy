// Which heads of a stream a request reports, and when.  Heads that arrive
// together wait in the body, and each needs a readable event of its own.
module HttpPipeline {
  import opened Common
  import opened HttpParser
  import opened HttpBatch
  import opened HttpRequest

  // ---------- runs ----------

  // The bytes a request takes off its socket in one happening.
  function Took(s: Session, h: Happening): string {
    if h.Readable? && s.state == PARSING_HEADERS && s.body == "" then h.incoming else ""
  }

  function Reported(n: Notice): seq<Fields> {
    if n.OnHeaders? then [n.fields] else []
  }

  function Run(s: Session, hs: seq<Happening>): Session
    decreases hs
  {
    if hs == [] then s else Run(After(s, hs[0]).0, hs[1..])
  }

  function TookAll(s: Session, hs: seq<Happening>): string
    decreases hs
  {
    if hs == [] then "" else Took(s, hs[0]) + TookAll(After(s, hs[0]).0, hs[1..])
  }

  function ReportedAll(s: Session, hs: seq<Happening>): seq<Fields>
    decreases hs
  {
    if hs == [] then [] else Reported(After(s, hs[0]).1) + ReportedAll(After(s, hs[0]).0, hs[1..])
  }

  // ---------- the heads of a stream ----------

  ghost predicate Fits(b: string, n: nat) {
    IsHead(b, n) && n < LIMIT
  }

  // The stream cut at the end of each head, up to one that exceeds the limit
  // or is not complete.
  ghost function Heads(b: string): seq<string>
    decreases |b|
  {
    if exists n: nat :: Fits(b, n) then
      var n: nat :| Fits(b, n);
      [b[..n]] + Heads(b[n..])
    else []
  }

  // What onHeaders gets for each of them.
  function Reports(heads: seq<string>): (fs: seq<Fields>)
    ensures |fs| == |heads|
  {
    if heads == [] then []
    else [if heads[0] == "" then NoFields else HeadFields(REQUEST, heads[0])] + Reports(heads[1..])
  }

  lemma {:induction false} FitsOnce(b: string, n: nat, m: nat)
    requires Fits(b, n) && Fits(b, m)
    ensures n == m
  {
  }

  lemma {:induction false} HeadsStep(b: string, n: nat)
    requires Fits(b, n)
    ensures Heads(b) == [b[..n]] + Heads(b[n..])
    ensures Reports(Heads(b)) == [HeadFields(REQUEST, b[..n])] + Reports(Heads(b[n..]))
  {
    forall m: nat | Fits(b, m)
      ensures m == n
    {
      FitsOnce(b, n, m);
    }
    assert Heads(b)[1..] == Heads(b[n..]);
  }

  lemma {:induction false} FitsPrefix(b: string, more: string, n: nat)
    requires n <= |b|
    ensures Fits(b, n) <==> Fits(b + more, n)
  {
    assert (b + more)[..|b|] == b;
    forall k: nat | k <= n
      ensures EmptyLineAt(b, k) <==> EmptyLineAt(b + more, k)
    {
      EmptyLinePrefix(b + more, |b|, k);
    }
  }

  lemma {:induction false} HeadsPrefix(b: string, more: string, n: nat)
    requires Fits(b, n)
    ensures Heads(b + more) == [b[..n]] + Heads(b[n..] + more)
    ensures Reports(Heads(b + more)) == [HeadFields(REQUEST, b[..n])] + Reports(Heads(b[n..] + more))
  {
    FitsPrefix(b, more, n);
    assert (b + more)[..n] == b[..n] && (b + more)[n..] == b[n..] + more;
    HeadsOfStream(b + more, b[..n], b[n..] + more);
  }

  lemma {:induction false} HeadsOfStream(stream: string, head: string, rest: string)
    requires Fits(stream, |head|) && stream[..|head|] == head && stream[|head|..] == rest
    ensures Heads(stream) == [head] + Heads(rest)
    ensures Reports(Heads(stream)) == [HeadFields(REQUEST, head)] + Reports(Heads(rest))
  {
    HeadsStep(stream, |head|);
  }

  // ---------- where a session stands ----------

  // u: the bytes taken off the socket that belong to no reported head.  They
  // were fed to the parser, or are the whole body and it is fresh; unless the
  // limit has stopped the parser, which then is past hope.
  ghost predicate Sound(s: Session, u: string) {
    && !s.parser.ready && s.parser.limit == LIMIT
    && if Exhausted(s.parser) then |u| >= LIMIT && forall n: nat :: !Fits(u, n)
       else
         || (s.body == "" && Consume(Fresh(REQUEST, LIMIT), u) == (s.parser, ""))
         || (s.body == u && s.parser == Fresh(REQUEST, LIMIT))
  }

  // The parser after a write of everything there is.
  lemma {:induction false} Parses(s: Session, u: string, x: string)
    requires Sound(s, u) && !Exhausted(s.parser) && (s.body != "" ==> x == "")
    ensures Consume(s.parser, if s.body == "" then x else s.body) == Consume(Fresh(REQUEST, LIMIT), u + x)
  {
    if s.body == "" && Consume(Fresh(REQUEST, LIMIT), u) == (s.parser, "") {
      ConsumeConcat(Fresh(REQUEST, LIMIT), u, x);
    } else {
      assert u + x == if s.body == "" then x else u;
    }
  }

  lemma {:induction false} ReadReports(s: Session, u: string, h: Happening) returns (k: nat)
    requires Sound(s, u) && h.Readable? && s.state == PARSING_HEADERS && After(s, h).1.OnHeaders?
    ensures var all := u + Took(s, h);
            && !Exhausted(s.parser) && Fits(all, k)
            && Reported(After(s, h).1) == [HeadFields(REQUEST, all[..k])]
            && After(s, h).0.body == all[k..] && After(s, h).0.parser == Fresh(REQUEST, LIMIT)
  {
    var all := u + Took(s, h);
    if Exhausted(s.parser) {
      ConsumeOutcome(s.parser, if s.body == "" then h.incoming else s.body);
      assert false;
    }
    Parses(s, u, Took(s, h));
    ReadyIffHeadFits(REQUEST, LIMIT, all);
    k :| IsHead(all, k) && k < LIMIT;
    HeadIsParsed(REQUEST, LIMIT, all, k);
  }

  lemma {:induction false} ReadWaits(s: Session, u: string, h: Happening)
    requires Sound(s, u) && h.Readable? && s.state == PARSING_HEADERS && !After(s, h).1.OnHeaders?
    ensures var all := u + Took(s, h);
            Sound(After(s, h).0, all) && forall n: nat :: !Fits(all, n)
  {
    var all := u + Took(s, h);
    var input := if s.body == "" then h.incoming else s.body;
    ConsumeOutcome(s.parser, input);
    if Exhausted(s.parser) {
      forall n: nat
        ensures !Fits(all, n)
      {
        if n < LIMIT {
          FitsPrefix(u, Took(s, h), n);
        }
      }
    } else {
      Parses(s, u, Took(s, h));
      ReadyIffHeadFits(REQUEST, LIMIT, all);
      ConsumeOutcome(Fresh(REQUEST, LIMIT), all);
    }
  }

  // Nothing is read or reported while the body is being read, or by reset().
  lemma {:induction false} QuietKeeps(s: Session, u: string, h: Happening)
    requires Sound(s, u) && (h.Reset? || s.state == READING_BODY)
    ensures Sound(After(s, h).0, u) && Took(s, h) == "" && Reported(After(s, h).1) == []
    ensures After(s, h).0.body == s.body && After(s, h).0.parser == s.parser
  {
  }

  // ---------- reports are the heads, in order ----------

  // One happening, with the stream going on as it may.
  lemma {:induction false} StepReports(s: Session, u: string, h: Happening, later: string, stream: string)
    returns (v: string)
    requires Sound(s, u) && stream == u + (Took(s, h) + later)
    ensures Sound(After(s, h).0, v)
    ensures Reports(Heads(stream)) == Reported(After(s, h).1) + Reports(Heads(v + later))
  {
    ThreeParts(u, Took(s, h), later);
    if h.Readable? && s.state == PARSING_HEADERS && After(s, h).1.OnHeaders? {
      v := ReadTakesHead(s, u, h, later);
    } else {
      NothingToReport(s, u, h);
      v := u + Took(s, h);
      NothingBefore(Reports(Heads(v + later)));
    }
  }

  lemma {:induction false} ReadTakesHead(s: Session, u: string, h: Happening, later: string) returns (v: string)
    requires Sound(s, u) && h.Readable? && s.state == PARSING_HEADERS && After(s, h).1.OnHeaders?
    ensures Sound(After(s, h).0, v)
    ensures Reports(Heads((u + Took(s, h)) + later)) == Reported(After(s, h).1) + Reports(Heads(v + later))
  {
    var k := ReadReports(s, u, h);
    v := (u + Took(s, h))[k..];
    HeadsPrefix(u + Took(s, h), later, k);
  }

  lemma {:induction false} NothingToReport(s: Session, u: string, h: Happening)
    requires Sound(s, u) && !(h.Readable? && s.state == PARSING_HEADERS && After(s, h).1.OnHeaders?)
    ensures Sound(After(s, h).0, u + Took(s, h)) && Reported(After(s, h).1) == []
  {
    if h.Reset? || s.state == READING_BODY {
      QuietKeeps(s, u, h);
      assert u + "" == u;
    } else {
      ReadWaits(s, u, h);
    }
  }

  // A run splits the stream into the heads it reported and a rest.
  lemma {:induction false} RunReports(s: Session, u: string, hs: seq<Happening>) returns (rest: string)
    requires Sound(s, u)
    ensures Sound(Run(s, hs), rest)
    ensures Reports(Heads(u + TookAll(s, hs))) == ReportedAll(s, hs) + Reports(Heads(rest))
    decreases hs
  {
    if hs == [] {
      rest := u;
      assert u + "" == u;
    } else {
      var t, notice := After(s, hs[0]).0, After(s, hs[0]).1;
      var v := StepReports(s, u, hs[0], TookAll(t, hs[1..]), u + TookAll(s, hs));
      rest := RunReports(t, v, hs[1..]);
      ThreeParts(Reported(notice), ReportedAll(t, hs[1..]), Reports(Heads(rest)));
    }
  }

  // How many heads wait in the body for readable events.
  ghost function Backlog(s: Session): nat {
    if Exhausted(s.parser) then 0 else |Heads(s.body)|
  }

  lemma {:induction false} NoHeads(b: string)
    requires forall n: nat :: !Fits(b, n)
    ensures Heads(b) == []
  {
  }

  lemma {:induction false} BacklogIsUnreported(s: Session, u: string)
    requires Sound(s, u)
    ensures |Heads(u)| == Backlog(s)
  {
    if Exhausted(s.parser) {
      NoHeads(u);
    } else if s.body == "" && Consume(Fresh(REQUEST, LIMIT), u) == (s.parser, "") {
      ReadyIffHeadFits(REQUEST, LIMIT, u);
      NoHeads(u);
      NoHeads("");
    }
  }

  lemma NewIsSound()
    ensures Sound(NewSession, "")
  {
  }

  // In every run: what onHeaders has reported are the first heads of the bytes
  // taken off the socket, in order, each parsed alone; and the heads not yet
  // reported are those in the body.
  lemma {:induction false} ReportsAreHeads(hs: seq<Happening>)
    ensures var (heads, fs) := (Heads(TookAll(NewSession, hs)), ReportedAll(NewSession, hs));
            && |heads| == |fs| + Backlog(Run(NewSession, hs))
            && fs == Reports(heads)[..|fs|]
  {
    NewIsSound();
    var rest := RunReports(NewSession, "", hs);
    NothingBefore(TookAll(NewSession, hs));
    FrontAndBack(ReportedAll(NewSession, hs), Reports(Heads(rest)));
    BacklogIsUnreported(Run(NewSession, hs), rest);
  }

  lemma {:induction false} AllReportedIff(hs: seq<Happening>)
    ensures ReportedAll(NewSession, hs) == Reports(Heads(TookAll(NewSession, hs)))
            <==> Backlog(Run(NewSession, hs)) == 0
  {
    ReportsAreHeads(hs);
  }

  // ---------- when the rest is reported ----------

  // The readable events that find the request waiting for headers.
  function Active(s: Session, hs: seq<Happening>): nat
    decreases hs
  {
    if hs == [] then 0
    else (if hs[0].Readable? && s.state == PARSING_HEADERS then 1 else 0) + Active(After(s, hs[0]).0, hs[1..])
  }

  // With heads in the body, an active event reports one of them.
  lemma {:induction false} ActiveReportsOne(s: Session, u: string, h: Happening)
    requires Sound(s, u) && h.Readable? && s.state == PARSING_HEADERS && Backlog(s) > 0
    ensures Took(s, h) == "" && |Reported(After(s, h).1)| == 1
    ensures exists v :: Sound(After(s, h).0, v)
    ensures Backlog(After(s, h).0) == Backlog(s) - 1
  {
    BacklogIsUnreported(s, u);
    if !After(s, h).1.OnHeaders? {
      ReadWaits(s, u, h);
      NoBacklogThen(s, u, h);
    }
    var k := ReadReports(s, u, h);
    NoHeads("");
    assert u + "" == u;
    HeadsStep(u, k);
    assert Sound(After(s, h).0, u[k..]);
  }

  lemma {:induction false} NoBacklogThen(s: Session, u: string, h: Happening)
    requires Sound(s, u) && forall n: nat :: !Fits(u + Took(s, h), n)
    ensures Backlog(s) == 0
  {
    forall n: nat
      ensures !Fits(u, n)
    {
      if n <= |u| {
        FitsPrefix(u, Took(s, h), n);
      }
    }
    NoHeads(u);
    BacklogIsUnreported(s, u);
  }

  lemma {:induction false} BacklogServedIff(s: Session, u: string, hs: seq<Happening>)
    requires Sound(s, u)
    ensures |ReportedAll(s, hs)| >= Backlog(s) <==> Active(s, hs) >= Backlog(s)
    decreases hs
  {
    if hs != [] && Backlog(s) > 0 {
      var h, t := hs[0], After(s, hs[0]).0;
      if h.Reset? || s.state == READING_BODY {
        QuietKeeps(s, u, h);
        BacklogServedIff(t, u, hs[1..]);
      } else {
        ActiveReportsOne(s, u, h);
        var v :| Sound(t, v);
        BacklogServedIff(t, v, hs[1..]);
      }
    }
  }

  lemma {:induction false} RunConcat(s: Session, xs: seq<Happening>, ys: seq<Happening>)
    ensures Run(s, xs + ys) == Run(Run(s, xs), ys)
    ensures ReportedAll(s, xs + ys) == ReportedAll(s, xs) + ReportedAll(Run(s, xs), ys)
    decreases xs
  {
    if xs == [] {
      assert xs + ys == ys;
    } else {
      assert (xs + ys)[1..] == xs[1..] + ys;
      RunConcat(After(s, xs[0]).0, xs[1..], ys);
    }
  }

  // Every head taken in by `hs` has been reported after `more` just when
  // `more` has as many readable events, each met in the header state, as heads
  // were left in the body.
  lemma {:induction false} CaughtUpIff(hs: seq<Happening>, more: seq<Happening>)
    ensures |ReportedAll(NewSession, hs + more)| >= |Heads(TookAll(NewSession, hs))|
            <==> Active(Run(NewSession, hs), more) >= Backlog(Run(NewSession, hs))
  {
    NewIsSound();
    var rest := RunReports(NewSession, "", hs);
    ReportsAreHeads(hs);
    RunConcat(NewSession, hs, more);
    BacklogServedIff(Run(NewSession, hs), rest, more);
  }

  // A delegate that resets in every callback makes every readable event count.
  lemma {:induction false} EagerIsActive(s: Session, hs: seq<Happening>)
    requires s.state == PARSING_HEADERS && forall h | h in hs :: h.Readable? && h.resets
    ensures Active(s, hs) == |hs|
    decreases hs
  {
    if hs != [] {
      EagerIsActive(After(s, hs[0]).0, hs[1..]);
    }
  }

  // ---------- heads sent together ----------

  predicate IsWholeHead(h: string) {
    h != "" && |h| < LIMIT && EmptyLineAt(h, |h|) && forall k: nat | k < |h| :: !EmptyLineAt(h, k)
  }

  lemma {:induction false} WholeHeadFits(h: string)
    requires IsWholeHead(h)
    ensures Fits(h, |h|)
  {
  }

  // The stream of whole heads has exactly these heads in front.
  lemma {:induction false} HeadsOfJoined(heads: seq<string>, rest: string)
    requires forall h | h in heads :: IsWholeHead(h)
    ensures Heads(Joined(heads) + rest) == heads + Heads(rest)
    decreases heads
  {
    if heads == [] {
      assert Joined(heads) + rest == rest;
    } else {
      var h, tail := heads[0], Joined(heads[1..]) + rest;
      assert Joined(heads) + rest == h + tail;
      assert h in heads;
      WholeHeadFits(h);
      HeadsPrefix(h, tail, |h|);
      assert h[..|h|] == h && h[|h|..] + tail == tail;
      HeadsOfJoined(heads[1..], rest);
      ThreeParts([h], heads[1..], Heads(rest));
      assert [h] + heads[1..] == heads;
    }
  }

  // The session after two heads have arrived in one read.
  lemma {:induction false} FirstOfTwo(h1: string, h2: string)
    requires IsWholeHead(h1)
    ensures After(NewSession, Readable(h1 + h2, true))
         == (Session(PARSING_HEADERS, Fresh(REQUEST, LIMIT), h2), OnHeaders(HeadFields(REQUEST, h1)))
  {
    var b := h1 + h2;
    WholeHeadFits(h1);
    FitsPrefix(h1, h2, |h1|);
    HeadIsParsed(REQUEST, LIMIT, b, |h1|);
    assert b[..|h1|] == h1 && b[|h1|..] == h2;
  }

  lemma {:induction false} WaitingHead(h: string, incoming: string, resets: bool)
    requires IsWholeHead(h)
    ensures After(Session(PARSING_HEADERS, Fresh(REQUEST, LIMIT), h), Readable(incoming, resets)).1
         == OnHeaders(HeadFields(REQUEST, h))
  {
    WholeHeadFits(h);
    HeadIsParsed(REQUEST, LIMIT, h, |h|);
    assert h[..|h|] == h;
  }

  lemma {:induction false} OneMore(s: Session, h: Happening, hs: seq<Happening>)
    ensures ReportedAll(s, [h] + hs) == Reported(After(s, h).1) + ReportedAll(After(s, h).0, hs)
  {
    assert ([h] + hs)[1..] == hs;
  }

  // Two heads arrive in one read: the first is reported, and without another
  // readable event the second is not, however often reset() is called; the
  // next readable event reports it, whatever it brings.
  lemma {:induction false} SecondHeadWaits(h1: string, h2: string, n: nat, incoming: string, resets: bool)
    requires IsWholeHead(h1) && IsWholeHead(h2)
    ensures var first := Readable(h1 + h2, true);
            && ReportedAll(NewSession, [first] + seq(n, _ => Reset)) == [HeadFields(REQUEST, h1)]
            && ReportedAll(NewSession, [first] + [Readable(incoming, resets)])
               == [HeadFields(REQUEST, h1), HeadFields(REQUEST, h2)]
  {
    var first, second := Readable(h1 + h2, true), Readable(incoming, resets);
    var t := After(NewSession, first).0;
    FirstOfTwo(h1, h2);
    Resets(t, n);
    OneMore(NewSession, first, seq(n, _ => Reset));
    WaitingHead(h2, incoming, resets);
    OneMore(t, second, []);
    OneMore(NewSession, first, [second]);
    assert [second] + [] == [second];
  }

  lemma {:induction false} Resets(s: Session, n: nat)
    requires s.state == PARSING_HEADERS
    ensures ReportedAll(s, seq(n, _ => Reset)) == []
    decreases n
  {
    if n > 0 {
      assert seq(n, _ => Reset)[1..] == seq(n - 1, _ => Reset);
      Resets(s, n - 1);
    }
  }
}
