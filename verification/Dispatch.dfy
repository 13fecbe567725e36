// What a socket worker does with a batch of changes, as a log: the calls it
// makes and the registrations that callbacks make from inside them.
module Dispatch {
  type Socket = nat

  datatype Kind = OnDisconnect | OnCanRead | OnCanWrite

  datatype Event =
    | Call(kind: Kind, s: Socket)
    | Registered(s: Socket)        // s was added to the clients
    | Deregistered(s: Socket)

  // What client code asks for inside a callback; `sane` is the answer of the
  // system: epoll_ctl succeeded, or the descriptor fits into an fd_set.
  datatype Op = Register(s: Socket, sane: bool) | Deregister(s: Socket)

  function After(c: set<Socket>, e: Event): set<Socket> {
    if e.Registered? then c + {e.s} else if e.Deregistered? then c - {e.s} else c
  }

  // Who is registered, as the log tells it.
  function Replay(c: set<Socket>, log: seq<Event>): set<Socket>
    decreases |log|
  {
    if log == [] then c else After(Replay(c, log[..|log| - 1]), log[|log| - 1])
  }

  // Every call was on a socket registered at that moment.
  predicate Licensed(c: set<Socket>, log: seq<Event>) {
    forall i | 0 <= i < |log| && log[i].Call? :: log[i].s in Replay(c, log[..i])
  }

  lemma ReplayOne(c: set<Socket>, log: seq<Event>, e: Event)
    ensures Replay(c, log + [e]) == After(Replay(c, log), e)
  {
    assert (log + [e])[..|log|] == log;
  }

  lemma LicensedOne(c: set<Socket>, log: seq<Event>, e: Event)
    requires Licensed(c, log) && (e.Call? ==> e.s in Replay(c, log))
    ensures Licensed(c, log + [e])
  {
    var more := log + [e];
    forall i | 0 <= i < |more| && more[i].Call?
      ensures more[i].s in Replay(c, more[..i])
    {
      assert more[..i] == log[..i] && log[..|log|] == log;
    }
  }

  datatype Word = NeverMentioned | In | Out

  // The latest registration or deregistration of s in the log.
  function LastWord(log: seq<Event>, s: Socket): Word
    decreases |log|
  {
    if log == [] then NeverMentioned
    else
      var e := log[|log| - 1];
      if e == Registered(s) then In else if e == Deregistered(s) then Out else LastWord(log[..|log| - 1], s)
  }

  lemma {:induction false} LastWordDecides(c: set<Socket>, log: seq<Event>, s: Socket)
    ensures s in Replay(c, log) <==> (LastWord(log, s) == In || (LastWord(log, s) == NeverMentioned && s in c))
    decreases |log|
  {
    if log != [] {
      LastWordDecides(c, log[..|log| - 1], s);
    }
  }

  // A socket that is out is in again only after a registration.
  lemma {:induction false} BackInOnlyByRegistration(c: set<Socket>, log: seq<Event>, s: Socket, i: nat, j: nat)
    requires i < j <= |log| && log[i] == Deregistered(s) && s in Replay(c, log[..j])
    ensures exists k :: i < k < j && log[k] == Registered(s)
    decreases j
  {
    assert log[..j][..j - 1] == log[..j - 1];
    if log[j - 1] == Registered(s) {
      assert i != j - 1;
    } else {
      assert j - 1 != i;
      BackInOnlyByRegistration(c, log, s, i, j - 1);
    }
  }

  // Both drains are licensed, so in both a deregistered socket is not called
  // back until somebody registers it again.
  lemma NoCallAfterDeregister(c: set<Socket>, log: seq<Event>, i: nat, j: nat)
    requires Licensed(c, log) && i < j < |log| && log[i].Deregistered? && log[j].Call? && log[j].s == log[i].s
    ensures exists k :: i < k < j && log[k] == Registered(log[i].s)
  {
    BackInOnlyByRegistration(c, log, log[i].s, i, j);
  }
}
