// When the delegate is told of a readable body: said of its own calls and of
// the notices it got, not of the request's state.
module HttpBody {
  import opened HttpParser
  import opened HttpBatch
  import opened HttpRequest
  import opened HttpPipeline

  function Notices(s: Session, hs: seq<Happening>): (ns: seq<Notice>)
    ensures |ns| == |hs|
    decreases hs
  {
    if hs == [] then [] else [After(s, hs[0]).1] + Notices(After(s, hs[0]).0, hs[1..])
  }

  // reset() was called: directly, or from inside the callback that was made.
  predicate WasReset(h: Happening, n: Notice) {
    h.Reset? || (h.Readable? && h.resets && n != Nothing)
  }

  // A head was reported before the i-th happening, and no reset() since then,
  // not in that callback either.
  predicate HeadIsOpen(hs: seq<Happening>, ns: seq<Notice>, i: nat)
    requires i <= |hs| == |ns|
  {
    exists j :: 0 <= j < i && ns[j].OnHeaders? && forall k :: j <= k < i ==> !WasReset(hs[k], ns[k])
  }

  lemma {:induction false} NoticeAt(s: Session, hs: seq<Happening>, i: nat)
    requires i < |hs|
    ensures Notices(s, hs)[i] == After(Run(s, hs[..i]), hs[i]).1
    ensures Run(s, hs[..i + 1]) == After(Run(s, hs[..i]), hs[i]).0
    decreases hs
  {
    if i > 0 {
      NoticeAt(After(s, hs[0]).0, hs[1..], i - 1);
      assert hs[..i][1..] == hs[1..][..i - 1] && hs[..i + 1][1..] == hs[1..][..i];
    } else {
      assert hs[..1][1..] == [];
    }
  }

  // Where one happening takes the state, by what was reported and reset.
  lemma StateAfter(s: Session, h: Happening)
    ensures var (t, n) := After(s, h);
            t.state == READING_BODY <==> !WasReset(h, n) && (n.OnHeaders? || s.state == READING_BODY)
  {
  }

  lemma OpenOneMore(hs: seq<Happening>, ns: seq<Notice>, i: nat)
    requires i < |hs| == |ns|
    ensures HeadIsOpen(hs, ns, i + 1) <==> !WasReset(hs[i], ns[i]) && (ns[i].OnHeaders? || HeadIsOpen(hs, ns, i))
  {
    if HeadIsOpen(hs, ns, i + 1) {
      var j :| 0 <= j < i + 1 && ns[j].OnHeaders? && forall k :: j <= k < i + 1 ==> !WasReset(hs[k], ns[k]);
      assert !WasReset(hs[i], ns[i]);
    }
    if HeadIsOpen(hs, ns, i) && !WasReset(hs[i], ns[i]) {
      var j :| 0 <= j < i && ns[j].OnHeaders? && forall k :: j <= k < i ==> !WasReset(hs[k], ns[k]);
      assert forall k :: j <= k < i + 1 ==> !WasReset(hs[k], ns[k]);
    }
  }

  lemma {:induction false} ReadingIffOpen(hs: seq<Happening>, i: nat)
    requires i <= |hs|
    ensures Run(NewSession, hs[..i]).state == READING_BODY <==> HeadIsOpen(hs, Notices(NewSession, hs), i)
  {
    if i > 0 {
      ReadingIffOpen(hs, i - 1);
      NoticeAt(NewSession, hs, i - 1);
      StateAfter(Run(NewSession, hs[..i - 1]), hs[i - 1]);
      OpenOneMore(hs, Notices(NewSession, hs), i - 1);
    }
  }

  // In every run: a happening makes the delegate's onCanRead be called just
  // when it is a readable event after a reported head with no reset() since;
  // any other readable event reports a head or nothing, and a reset() nothing.
  lemma {:induction false} BodyNoticeIff(hs: seq<Happening>, i: nat)
    requires i < |hs|
    ensures var ns := Notices(NewSession, hs);
            && (ns[i] == OnCanReadBody <==> hs[i].Readable? && HeadIsOpen(hs, ns, i))
            && (ns[i].OnHeaders? ==> hs[i].Readable? && !HeadIsOpen(hs, ns, i))
  {
    NoticeAt(NewSession, hs, i);
    ReadingIffOpen(hs, i);
  }

  // The limit on a head, as a number: in one readable event a new request
  // reports a head just when one ends within the first 4095 bytes.
  lemma {:induction false} HeadsUpTo4095Bytes(incoming: string, resets: bool)
    ensures After(NewSession, Readable(incoming, resets)).1.OnHeaders? <==>
            exists n: nat :: n <= 4095 && IsHead(incoming, n)
  {
    ReadyIffHeadFits(REQUEST, LIMIT, incoming);
  }
}
