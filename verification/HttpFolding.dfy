// Heads with folded header lines, written out with their characters: a line
// that begins with a space or a tab continues the header before it, and a line
// that begins with anything else does not.
module HttpFolding {
  import opened Common
  import opened HttpParser
  import opened HttpBatch
  import opened HttpRoundTrip
  import opened HttpStartLine

  // A header and the lines it goes on in.
  datatype Folded = Folded(name: string, value: string, more: seq<string>)

  function Joint(parts: seq<string>): string {
    if parts == [] then "" else Joint(parts[..|parts| - 1]) + parts[|parts| - 1]
  }

  // The value as it is meant: all its lines, blanks included.
  function Whole(h: Folded): string {
    h.value + Joint(h.more)
  }

  predicate IsContinuation(line: string) {
    line != "" && (line[0] == ' ' || line[0] == '\t') && '\n' !in line && '\r' !in line
  }

  predicate GoodFolded(h: Folded) {
    && NoSpace(h.name) && '\n' !in h.value && '\r' !in h.value
    && forall l | l in h.more :: IsContinuation(l)
  }

  function FoldedLines(hs: seq<Folded>): seq<string> {
    if hs == [] then []
    else
      var h := hs[|hs| - 1];
      FoldedLines(hs[..|hs| - 1]) + [h.name + ": " + h.value] + h.more
  }

  predicate GoodFoldeds(hs: seq<Folded>) {
    forall i :: 0 <= i < |hs| ==> GoodFolded(hs[i])
  }

  // ---------- folding ----------

  lemma {:induction false} FoldItem(lines: seq<string>, first: string, more: seq<string>)
    requires first != "" && first[0] != ' ' && first[0] != '\t'
    requires forall l | l in more :: IsContinuation(l)
    ensures Fold(lines + [first] + more) == Fold(lines) + [Logical(first + Joint(more), |lines| + 1 + |more|)]
  {
    if more == [] {
      assert lines + [first] + more == lines + [first] && first + Joint(more) == first;
      FoldAppend(lines, first);
    } else {
      var init, last := more[..|more| - 1], more[|more| - 1];
      InitAndLast(more);
      ThreeParts(lines + [first], init, [last]);
      ThreeParts(first, Joint(init), last);
      FoldItem(lines, first, init);
      ContinueLast(lines + [first] + init, Fold(lines), first + Joint(init), last);
    }
  }

  lemma {:induction false} ContinueLast(lines: seq<string>, before: seq<Logical>, text: string, line: string)
    requires Fold(lines) == before + [Logical(text, |lines|)] && IsContinuation(line)
    ensures Fold(lines + [line]) == before + [Logical(text + line, |lines| + 1)]
  {
    FoldAppend(lines, line);
    DropLastAppend(before, Logical(text, |lines|));
  }

  function Spelled(h: Folded): string {
    h.name + ": " + Whole(h)
  }

  // The start line and one logical line for each header.
  predicate Matches(logs: seq<Logical>, start: string, hs: seq<Folded>) {
    && |logs| == |hs| + 1 && logs[0] == Logical(start, 1)
    && forall i :: 0 < i < |logs| ==> logs[i].last > 1 && logs[i].text == Spelled(hs[i - 1])
  }

  lemma MatchesMore(logs: seq<Logical>, start: string, hs: seq<Folded>, log: Logical, h: Folded)
    requires Matches(logs, start, hs) && log.last > 1 && log.text == Spelled(h)
    ensures Matches(logs + [log], start, hs + [h])
  {
  }

  lemma MatchesLess(logs: seq<Logical>, start: string, hs: seq<Folded>)
    requires Matches(logs, start, hs) && hs != []
    ensures Matches(logs[..|logs| - 1], start, hs[..|hs| - 1])
    ensures logs[|logs| - 1].last > 1 && logs[|logs| - 1].text == Spelled(hs[|hs| - 1])
  {
  }

  lemma {:induction false} FoldFoldeds(start: string, hs: seq<Folded>)
    requires GoodFoldeds(hs)
    ensures Matches(Fold([start] + FoldedLines(hs)), start, hs)
  {
    if hs == [] {
      assert [start] + FoldedLines(hs) == [] + [start];
      FoldAppend([], start);
    } else {
      var init, h := hs[..|hs| - 1], hs[|hs| - 1];
      FoldFoldeds(start, init);
      FoldOneMore(start, init, h);
      assert hs == init + [h];
    }
  }

  lemma {:induction false} FoldOneMore(start: string, hs: seq<Folded>, h: Folded)
    requires GoodFolded(h) && Matches(Fold([start] + FoldedLines(hs)), start, hs)
    ensures Matches(Fold([start] + FoldedLines(hs + [h])), start, hs + [h])
  {
    var lines, first := [start] + FoldedLines(hs), h.name + ": " + h.value;
    NameBegins(h);
    FoldItem(lines, first, h.more);
    LinesOfMore(start, hs, h);
    assert first + Joint(h.more) == Spelled(h);
    MatchesMore(Fold(lines), start, hs, Logical(Spelled(h), |lines| + 1 + |h.more|), h);
  }

  lemma {:induction false} LinesOfMore(start: string, hs: seq<Folded>, h: Folded)
    ensures [start] + FoldedLines(hs + [h]) == [start] + FoldedLines(hs) + [h.name + ": " + h.value] + h.more
  {
    assert (hs + [h])[..|hs|] == hs;
  }

  lemma NameBegins(h: Folded)
    requires NoSpace(h.name)
    ensures var first := h.name + ": " + h.value; first != "" && first[0] != ' ' && first[0] != '\t'
  {
    var first := h.name + ": " + h.value;
    assert first[0] == if h.name == "" then ':' else h.name[0];
  }

  // ---------- what the lines are parsed to ----------

  lemma {:induction false} JointHasNoLineEnds(parts: seq<string>)
    requires forall l | l in parts :: IsContinuation(l)
    ensures NoLineEnds(Joint(parts))
  {
    if parts != [] {
      assert parts[|parts| - 1] in parts;
      JointHasNoLineEnds(parts[..|parts| - 1]);
    }
  }

  lemma OneFolded(f: Fields, h: Folded)
    requires GoodFolded(h)
    ensures ParseHeader(f, Spelled(h)) ==
            if h.name in f.headers then f else f.(headers := f.headers[h.name := Whole(h)])
  {
    JointHasNoLineEnds(h.more);
    HeaderRoundTrip(f, (h.name, Whole(h)));
  }

  // The first of a name gives its value, and there are no other names.
  predicate Holds(headers: map<string, string>, hs: seq<Folded>) {
    && (forall i :: 0 <= i < |hs| && (forall j :: 0 <= j < i ==> hs[j].name != hs[i].name) ==>
          hs[i].name in headers && headers[hs[i].name] == Whole(hs[i]))
    && (forall i :: 0 <= i < |hs| ==> hs[i].name in headers)
    && (forall k | k in headers :: exists i :: 0 <= i < |hs| && hs[i].name == k)
  }

  lemma OneMoreHolds(headers: map<string, string>, hs: seq<Folded>, h: Folded)
    requires Holds(headers, hs)
    ensures Holds(if h.name in headers then headers else headers[h.name := Whole(h)], hs + [h])
  {
    var all := hs + [h];
    assert forall i :: 0 <= i < |hs| ==> all[i] == hs[i];
    assert all[|hs|] == h;
  }

  lemma {:induction false} ApplyFoldeds(kind: Kind, start: string, hs: seq<Folded>, logs: seq<Logical>)
    requires GoodFoldeds(hs) && Matches(logs, start, hs)
    ensures SameStart(Apply(kind, logs), ParseLine(NoFields, kind, 1, start))
    ensures Holds(Apply(kind, logs).headers, hs)
  {
    if hs == [] {
      FirstOnly(kind, start, logs);
    } else {
      var init, h := hs[..|hs| - 1], hs[|hs| - 1];
      InitAndLast(hs);
      MatchesLess(logs, start, hs);
      ApplyFoldeds(kind, start, init, logs[..|logs| - 1]);
      ApplyLast(kind, logs);
      ParseOneMore(Apply(kind, logs[..|logs| - 1]), ParseLine(NoFields, kind, 1, start), init, h);
    }
  }

  lemma {:induction false} FirstOnly(kind: Kind, start: string, logs: seq<Logical>)
    requires |logs| == 1 && logs[0] == Logical(start, 1)
    ensures Apply(kind, logs) == ParseLine(NoFields, kind, 1, start) && Apply(kind, logs).headers == map[]
  {
    assert Apply(kind, logs[..0]) == NoFields;
  }

  lemma {:induction false} ApplyLast(kind: Kind, logs: seq<Logical>)
    requires logs != [] && logs[|logs| - 1].last > 1
    ensures Apply(kind, logs) == ParseHeader(Apply(kind, logs[..|logs| - 1]), logs[|logs| - 1].text)
  {
  }

  lemma ParseOneMore(f: Fields, g: Fields, hs: seq<Folded>, h: Folded)
    requires GoodFolded(h) && SameStart(f, g) && Holds(f.headers, hs)
    ensures SameStart(ParseHeader(f, Spelled(h)), g) && Holds(ParseHeader(f, Spelled(h)).headers, hs + [h])
  {
    OneFolded(f, h);
    OneMoreHolds(f.headers, hs, h);
  }

  // ---------- the whole head ----------

  lemma {:induction false} FoldedLinesAreWhole(hs: seq<Folded>)
    requires GoodFoldeds(hs)
    ensures WholeLines(FoldedLines(hs))
  {
    if hs != [] {
      var h := hs[|hs| - 1];
      FoldedLinesAreWhole(hs[..|hs| - 1]);
      assert WholeLine(h.name + ": " + h.value);
      assert forall l | l in FoldedLines(hs) ::
          l in FoldedLines(hs[..|hs| - 1]) || l == h.name + ": " + h.value || l in h.more;
    }
  }

  function FoldedHead(start: string, hs: seq<Folded>): string {
    JoinLines([start] + FoldedLines(hs)) + "\n"
  }

  // For every start line and all headers, each of them folded over any number
  // of lines that begin with a space or a tab: of all but the last header the
  // value parsed is the whole text behind the name, blanks of the continuation
  // lines included, the first of a name wins, and no other name is found.
  lemma {:induction false} FoldedHeadersAreParsed(kind: Kind, start: string, hs: seq<Folded>, limit: int)
    requires WholeLine(start) && GoodFoldeds(hs) && hs != [] && |FoldedHead(start, hs)| < limit
    ensures var (p, left) := Consume(Fresh(kind, limit), FoldedHead(start, hs));
            && p.ready && left == ""
            && SameStart(p.fields, ParseLine(NoFields, kind, 1, start))
            && Holds(p.fields.headers, hs[..|hs| - 1])
  {
    var lines, head := [start] + FoldedLines(hs), FoldedHead(start, hs);
    FoldedLinesAreWhole(hs);
    WholeHead(kind, lines, limit);
    FoldFoldeds(start, hs);
    MatchesLess(Fold(lines), start, hs);
    ApplyFoldeds(kind, start, hs[..|hs| - 1], DropLast(Fold(lines)));
  }

  // A head given by its lines: all logical lines but the last are parsed.
  lemma {:induction false} WholeHead(kind: Kind, lines: seq<string>, limit: int)
    requires WholeLines(lines) && |JoinLines(lines)| + 1 < limit
    ensures var (p, left) := Consume(Fresh(kind, limit), JoinLines(lines) + "\n");
            p.ready && left == "" && p.fields == Apply(kind, DropLast(Fold(lines)))
  {
    var head := JoinLines(lines) + "\n";
    LinesOfHead(lines);
    JoinedIsHead(lines);
    HeadIsParsed(kind, limit, head, |head|);
    assert head[..|head|] == head;
  }

  // ---------- a line that begins with anything else ----------

  lemma {:induction false} FoldKeepsFront(lines: seq<string>, rest: seq<string>)
    requires rest != [] && !Continues(rest[0])
    ensures Fold(lines) < Fold(lines + rest)
  {
    var init, last := rest[..|rest| - 1], rest[|rest| - 1];
    InitAndLast(rest);
    ThreeParts(lines, init, [last]);
    FoldAppend(lines + init, last);
    if init == [] {
      assert lines + init == lines;
    } else {
      FoldKeepsFront(lines, init);
    }
  }

  // Headers found stay, whatever is parsed after them.
  lemma {:induction false} ApplyKeeps(kind: Kind, logs: seq<Logical>, n: nat, key: string)
    requires n <= |logs| && key in Apply(kind, logs[..n]).headers
    requires forall i :: n <= i < |logs| ==> logs[i].last > 1
    ensures key in Apply(kind, logs).headers
    ensures Apply(kind, logs).headers[key] == Apply(kind, logs[..n]).headers[key]
  {
    if n < |logs| {
      var init := logs[..|logs| - 1];
      assert init[..n] == logs[..n];
      ApplyKeeps(kind, init, n, key);
      ApplyLast(kind, logs);
      ParseKeeps(Apply(kind, init), logs[|logs| - 1].text, key);
    } else {
      assert logs[..n] == logs;
    }
  }

  lemma ParseKeeps(f: Fields, line: string, key: string)
    requires key in f.headers
    ensures key in ParseHeader(f, line).headers && ParseHeader(f, line).headers[key] == f.headers[key]
  {
  }

  // A line that begins with neither a space nor a tab, whatever it says and
  // whatever follows, ends the header before it: the value is what stood
  // there until then.
  lemma {:induction false} NextLineIsNew(
      kind: Kind, start: string, hs: seq<Folded>, line: string, more: seq<string>, limit: int, i: nat)
    requires WholeLine(start) && GoodFoldeds(hs) && WholeLine(line) && line[0] != ' ' && line[0] != '\t'
    requires WholeLines(more) && |JoinLines([start] + FoldedLines(hs) + ([line] + more))| + 1 < limit
    requires i < |hs| && forall j :: 0 <= j < i ==> hs[j].name != hs[i].name
    ensures var (p, left) := Consume(Fresh(kind, limit), JoinLines([start] + FoldedLines(hs) + ([line] + more)) + "\n");
            && p.ready && left == ""
            && hs[i].name in p.fields.headers && p.fields.headers[hs[i].name] == Whole(hs[i])
  {
    LinesInAll(start, hs, [line] + more);
    WholeHead(kind, [start] + FoldedLines(hs) + ([line] + more), limit);
    HeaderStays(kind, start, hs, [line] + more, i);
  }

  lemma LinesInAll(start: string, hs: seq<Folded>, rest: seq<string>)
    requires WholeLine(start) && GoodFoldeds(hs) && WholeLines(rest)
    ensures WholeLines([start] + FoldedLines(hs) + rest)
  {
    FoldedLinesAreWhole(hs);
  }

  lemma {:induction false} HeaderStays(kind: Kind, start: string, hs: seq<Folded>, rest: seq<string>, i: nat)
    requires GoodFoldeds(hs) && rest != [] && !Continues(rest[0])
    requires i < |hs| && forall j :: 0 <= j < i ==> hs[j].name != hs[i].name
    ensures var f := Apply(kind, DropLast(Fold([start] + FoldedLines(hs) + rest)));
            hs[i].name in f.headers && f.headers[hs[i].name] == Whole(hs[i])
  {
    var front := [start] + FoldedLines(hs);
    FoldFoldeds(start, hs);
    ApplyFoldeds(kind, start, hs, Fold(front));
    FoldKeepsFront(front, rest);
    FoldNumbers(front + rest);
    KeptToTheEnd(kind, Fold(front), Fold(front + rest), hs[i].name);
  }

  lemma {:induction false} KeptToTheEnd(kind: Kind, front: seq<Logical>, logs: seq<Logical>, key: string)
    requires front < logs && front != [] && key in Apply(kind, front).headers
    requires forall i :: 1 <= i < |logs| ==> logs[i].last >= 2
    ensures key in Apply(kind, DropLast(logs)).headers
    ensures Apply(kind, DropLast(logs)).headers[key] == Apply(kind, front).headers[key]
  {
    assert DropLast(logs)[..|front|] == front;
    ApplyKeeps(kind, DropLast(logs), |front|, key);
  }
}
