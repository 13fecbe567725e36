// When the start line of a head is applied.  parseLine takes a logical line
// for the start line when it is parsed under line number 1, and the number
// counts physical lines.
module HttpStartLine {
  import opened HttpParser
  import opened HttpBatch

  // Equal but for the headers.
  predicate SameStart(f: Fields, g: Fields) {
    f.(headers := g.headers) == g
  }

  // Some logical line is parsed as the start line.
  ghost predicate ParsesStartLine(logs: seq<Logical>) {
    exists i :: 0 <= i < |logs| && logs[i].last == 1
  }

  // One line more is either joined to the last logical line or a new one.
  lemma {:induction false} FoldShape(lines: seq<string>)
    requires lines != []
    ensures var before, logs, line := Fold(lines[..|lines| - 1]), Fold(lines), lines[|lines| - 1];
            && |logs| == (if before != [] && Continues(line) then |before| else |before| + 1)
            && logs[|logs| - 1].last == |lines|
            && (before == [] ==> logs[0].text == line)
            && (before == [] <==> |lines| == 1)
            && forall i :: 0 <= i < |logs| - 1 ==> logs[i] == before[i]
  {
  }

  // Where the first logical line ends, and that no other ends on line 1.
  predicate Numbered(lines: seq<string>, logs: seq<Logical>)
    requires lines != [] && logs != []
  {
    && (logs[0].last == 1 <==> |lines| == 1 || !Continues(lines[1]))
    && logs[0].last >= 1 && (logs[0].last == 1 ==> logs[0].text == lines[0])
    && (forall i :: 1 <= i < |logs| ==> logs[i].last >= 2)
    && (logs[0].last == 1 && |lines| >= 2 ==> |logs| >= 2)
    && (|lines| == 1 ==> |logs| == 1)
  }

  // Logical lines end on ascending physical lines, the first of them on the
  // first one just when the second does not continue it.
  lemma {:induction false} FoldNumbers(lines: seq<string>)
    requires lines != []
    ensures Numbered(lines, Fold(lines))
  {
    var init := lines[..|lines| - 1];
    FoldShape(lines);
    if init != [] {
      FoldNumbers(init);
      OneLineMore(lines, Fold(init), Fold(lines));
    }
  }

  lemma OneLineMore(lines: seq<string>, before: seq<Logical>, logs: seq<Logical>)
    requires |lines| > 1 && before != [] && Numbered(lines[..|lines| - 1], before)
    requires |logs| == if Continues(lines[|lines| - 1]) then |before| else |before| + 1
    requires logs[|logs| - 1].last == |lines|
    requires forall i :: 0 <= i < |logs| - 1 ==> logs[i] == before[i]
    ensures Numbered(lines, logs)
  {
  }

  lemma {:induction false} HeadersOnly(kind: Kind, logs: seq<Logical>)
    requires forall i :: 0 <= i < |logs| ==> logs[i].last >= 2
    ensures SameStart(Apply(kind, logs), NoFields)
  {
    if logs != [] {
      HeadersOnly(kind, logs[..|logs| - 1]);
    }
  }

  lemma {:induction false} StartThenHeaders(kind: Kind, logs: seq<Logical>)
    requires logs != [] && forall i :: 1 <= i < |logs| ==> logs[i].last >= 2
    ensures SameStart(Apply(kind, logs), ParseLine(NoFields, kind, logs[0].last, logs[0].text))
  {
    if |logs| > 1 {
      StartThenHeaders(kind, logs[..|logs| - 1]);
    } else {
      assert Apply(kind, logs[..0]) == NoFields;
    }
  }

  predicate Applied(lines: seq<string>) {
    |lines| >= 2 && !Continues(lines[1])
  }

  lemma {:induction false} AppliedToLines(kind: Kind, lines: seq<string>)
    requires Applied(lines)
    ensures var parsed := DropLast(Fold(lines));
            ParsesStartLine(parsed) && SameStart(Apply(kind, parsed), ParseLine(NoFields, kind, 1, lines[0]))
  {
    FoldNumbers(lines);
    var logs := Fold(lines);
    assert DropLast(logs)[0] == logs[0];
    StartThenHeaders(kind, DropLast(logs));
  }

  lemma {:induction false} NotAppliedToLines(kind: Kind, lines: seq<string>)
    requires !Applied(lines)
    ensures var parsed := DropLast(Fold(lines));
            !ParsesStartLine(parsed) && SameStart(Apply(kind, parsed), NoFields)
  {
    var logs := Fold(lines);
    if lines != [] {
      FoldNumbers(lines);
    }
    assert forall i :: 0 <= i < |DropLast(logs)| ==> DropLast(logs)[i] == logs[i];
    HeadersOnly(kind, DropLast(logs));
  }

  function Lines(head: string): seq<string>
    requires head != ""
  {
    SplitLines(Clean(head[..|head| - 1])).lines
  }

  // For every head: its start line is parsed as one just when a second line
  // follows that does not begin with a blank.  If so, exactly the first line
  // determines method, query, version, code and status; if not, all of them
  // keep their initial values.
  lemma {:induction false} StartLineAppliedIff(kind: Kind, head: string)
    requires head != ""
    ensures var lines := Lines(head);
            var applied := |lines| >= 2 && !Continues(lines[1]);
            && (ParsesStartLine(DropLast(Fold(lines))) <==> applied)
            && SameStart(HeadFields(kind, head), if applied then ParseLine(NoFields, kind, 1, lines[0]) else NoFields)
  {
    var lines := Lines(head);
    if Applied(lines) {
      AppliedToLines(kind, lines);
    } else {
      NotAppliedToLines(kind, lines);
    }
  }

  // ---------- heads given by their lines ----------

  predicate WholeLine(line: string) {
    line != "" && '\n' !in line && '\r' !in line
  }

  predicate WholeLines(lines: seq<string>) {
    forall l | l in lines :: WholeLine(l)
  }

  lemma {:induction false} SplitMore(t: string, w: string)
    requires '\n' !in w && '\r' !in w && '\r' !in t
    ensures SplitLines(t + w) == Text(SplitLines(t).lines, SplitLines(t).partial + w)
  {
    if w == "" {
      assert t + w == t;
    } else {
      var init, c := w[..|w| - 1], w[|w| - 1];
      assert t + w == (t + init) + [c] && w == init + [c];
      SplitMore(t, init);
      AppendSplit(t + init, c);
    }
  }

  lemma {:induction false} SplitJoined(lines: seq<string>)
    requires WholeLines(lines)
    ensures SplitLines(JoinLines(lines)) == Text(lines, "") && '\r' !in JoinLines(lines)
  {
    if lines != [] {
      var init, line := lines[..|lines| - 1], lines[|lines| - 1];
      assert lines == init + [line] && line in lines;
      SplitJoined(init);
      OneMoreLine(JoinLines(init), line);
    }
  }

  lemma {:induction false} OneMoreLine(t: string, line: string)
    requires WholeLine(line) && '\r' !in t && SplitLines(t).partial == ""
    ensures SplitLines(t + line + "\n") == Text(SplitLines(t).lines + [line], "") && '\r' !in t + line + "\n"
  {
    SplitMore(t, line);
    assert "" + line == line;
    AppendSplit(t + line, '\n');
    assert t + line + "\n" == (t + line) + ['\n'];
  }

  lemma {:induction false} CleanAlready(b: string)
    requires '\r' !in b
    ensures Clean(b) == b
  {
    if b != "" {
      CleanAlready(b[..|b| - 1]);
    }
  }

  lemma {:induction false} LinesOfHead(lines: seq<string>)
    requires WholeLines(lines)
    ensures Lines(JoinLines(lines) + "\n") == lines
  {
    var head := JoinLines(lines) + "\n";
    assert head[..|head| - 1] == JoinLines(lines);
    SplitJoined(lines);
    CleanAlready(JoinLines(lines));
  }

  lemma {:induction false} NoEmptyLineWithin(lines: seq<string>, k: nat)
    requires WholeLines(lines) && k <= |JoinLines(lines)|
    ensures !EmptyLineAt(JoinLines(lines), k)
  {
    if lines != [] && 0 < k {
      var t, line := JoinLines(lines[..|lines| - 1]), lines[|lines| - 1];
      assert lines == lines[..|lines| - 1] + [line] && line in lines;
      var all := t + line + "\n";
      if k <= |t| {
        NoEmptyLineWithin(lines[..|lines| - 1], k);
        assert all[..|t|] == t;
        EmptyLinePrefix(all, |t|, k);
      } else if k <= |t| + |line| {
        assert all[k - 1] == line[k - 1 - |t|];
      } else {
        assert all[..k - 1] == t + line;
        SplitJoined(lines[..|lines| - 1]);
        SplitMore(t, line);
        CleanAlready(t + line);
      }
    }
  }

  lemma {:induction false} JoinedIsHead(lines: seq<string>)
    requires WholeLines(lines)
    ensures var head := JoinLines(lines) + "\n"; IsHead(head, |head|)
  {
    var t := JoinLines(lines);
    var head := t + "\n";
    assert head[..|head| - 1] == t;
    SplitJoined(lines);
    CleanAlready(t);
    forall k: nat | k < |head|
      ensures !EmptyLineAt(head, k)
    {
      NoEmptyLineWithin(lines, k);
      EmptyLinePrefix(head, |t|, k);
    }
  }

  const FOLDED := ["GET / HTTP/1.1", " folded"]

  lemma {:induction false} FoldedIsWhole(more: seq<string>)
    requires WholeLines(more)
    ensures WholeLines(FOLDED + more)
  {
    forall l | l in FOLDED + more
      ensures WholeLine(l)
    {
      assert l in FOLDED || l in more;
    }
  }

  // A request whose start line is folded: the parser takes all of it, and has
  // no method, query or version, whatever headers follow.
  lemma {:induction false} FoldedStartLineIsLost(more: seq<string>, limit: int)
    requires WholeLines(more) && |JoinLines(FOLDED + more)| + 1 < limit
    ensures var head := JoinLines(FOLDED + more) + "\n";
            var (p, left) := Consume(Fresh(REQUEST, limit), head);
            p.ready && left == "" && SameStart(p.fields, NoFields) && p.fields.verb == ""
  {
    var lines := FOLDED + more;
    FoldedIsWhole(more);
    assert Continues(lines[1]);
    UnstartedHead(REQUEST, lines, limit);
  }

  // The same of any head whose second line continues the first.
  lemma {:induction false} UnstartedHead(kind: Kind, lines: seq<string>, limit: int)
    requires WholeLines(lines) && !Applied(lines) && |JoinLines(lines)| + 1 < limit
    ensures var (p, left) := Consume(Fresh(kind, limit), JoinLines(lines) + "\n");
            p.ready && left == "" && SameStart(p.fields, NoFields)
  {
    var head := JoinLines(lines) + "\n";
    LinesOfHead(lines);
    StartLineAppliedIff(kind, head);
    JoinedIsHead(lines);
    HeadIsParsed(kind, limit, head, |head|);
    assert head[..|head|] == head;
  }
}
