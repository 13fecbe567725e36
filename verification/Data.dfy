// Data: a window on a shared buffer; DataDeque: a queue of such windows; and
// DataStreamBridge, which moves bytes through one.  A char stands for a byte.
module Data {
  import opened Common

  function Repeat(v: char, n: nat): (s: seq<char>)
    ensures |s| == n && forall i :: 0 <= i < n ==> s[i] == v
  {
    seq(n, _ => v)
  }

  function Min(a: nat, b: nat): nat {
    if a <= b then a else b
  }

  lemma SubWindow(buf: seq<char>, position: nat, size: nat, pos: nat, n: nat)
    requires position + size <= |buf| && pos + n <= size
    ensures buf[position..position + size][pos..pos + n] == buf[position + pos..position + pos + n]
  {
    var inner, outer := buf[position..position + size][pos..pos + n], buf[position + pos..position + pos + n];
    forall i | 0 <= i < n
      ensures inner[i] == outer[i]
    {
      assert inner[i] == buf[position + (pos + i)];
    }
    assert inner == outer;
  }

  // Copying a Data copies the window and shares the buffer.
  class Data {
    var impl: array<char>
    var position: nat
    var size: int

    ghost predicate Valid()
      reads this
    {
      Shaped() && size >= 0
    }

    // The slice constructor accepts a negative size.  Such an object can be
    // assigned and asked for its size; its bytes cannot be looked at.
    ghost predicate Shaped()
      reads this
    {
      position <= impl.Length && position + size <= impl.Length
    }

    // The bytes getData() points at.
    ghost function View(): (v: seq<char>)
      requires Valid()
      reads this, impl
      ensures |v| == size
    {
      impl[position..position + size]
    }

    constructor ()
      ensures Valid() && View() == [] && fresh(impl)
    {
      impl := new char[0];
      position, size := 0, 0;
    }

    constructor FromBytes(bytes: seq<char>)
      ensures Valid() && View() == bytes && position == 0 && fresh(impl)
    {
      impl := new char[|bytes|](i requires 0 <= i < |bytes| => bytes[i]);
      position, size := 0, |bytes|;
    }

    constructor Copy(other: Data)
      requires other.Shaped()
      ensures Shaped() && impl == other.impl && position == other.position && size == other.size
      ensures other.Valid() ==> Valid() && View() == other.View()
    {
      impl, position, size := other.impl, other.position, other.size;
    }

    method Assign(other: Data)
      requires other.Shaped()
      modifies this
      ensures Shaped() && impl == old(other.impl)
      ensures position == old(other.position) && size == old(other.size)
      ensures old(other.Valid()) ==> Valid() && View() == old(other.View())
    {
      impl, position, size := other.impl, other.position, other.size;
    }

    // Data(data, pos, si): the constructor throws on a wrong position and
    // truncates the size.
    static method Slice(data: Data, pos: int, si: int) returns (r: Option<Data>)
      requires data.Shaped()
      ensures r.None? <==> pos < 0 || pos > data.size
      ensures r.Some? ==>
                && fresh(r.value) && r.value.Shaped() && r.value.impl == data.impl
                && r.value.position == data.position + pos
                && r.value.size == if si < data.size - pos then si else data.size - pos
      ensures r.Some? && si >= 0 ==>
                && r.value.Valid()
                && r.value.View() == data.View()[pos..pos + Min(si, data.size - pos)]
    {
      if pos < 0 || pos > data.size {
        return None;
      }
      var d := new Data.Copy(data);
      d.position := data.position + pos;
      d.size := if si < data.size - pos then si else data.size - pos;
      if si >= 0 {
        SubWindow(data.impl[..], data.position, data.size, pos, d.size);
        assert d.View() == data.View()[pos..pos + d.size];
      }
      r := Some(d);
    }

    method GetByte() returns (c: char)
      requires Valid()
      modifies this
      ensures Valid() && impl == old(impl)
      ensures old(View()) == [] ==> c == '\0' && View() == []
      ensures old(View()) != [] ==> old(View()) == [c] + View()
    {
      if size == 0 {
        return '\0';
      }
      size := size - 1;
      c := impl[position];
      position := position + 1;
    }

    // lock(): isTheOne() answers with the strong count, which is not 0 while
    // a handle lives, so the buffer is never copied.
    method Lock() returns (buf: array<char>)
      ensures buf == impl
    {
      buf := impl;
    }

    // fill() writes from the start of the buffer, wherever the window is.
    method Fill(v: char)
      requires Valid()
      modifies impl
      ensures impl[..] == FillBuffer(old(impl[..]), size, v)
    {
      var buf := Lock();
      var i := 0;
      while i < size
        invariant 0 <= i <= size
        invariant forall k :: 0 <= k < i ==> buf[k] == v
        invariant forall k :: i <= k < buf.Length ==> buf[k] == old(impl[k])
      {
        buf[i] := v;
        i := i + 1;
      }
      assert impl[..] == FillBuffer(old(impl[..]), size, v);
    }

    // copy(pos, other): also from the start of the buffer.  memmove reads all
    // its bytes before it writes, so the two windows may overlap.
    method CopyFrom(pos: int, other: Data) returns (r: Option<nat>)
      requires Valid() && other.Valid()
      modifies impl
      ensures r.None? <==> pos < 0 || pos > size
      ensures r.None? ==> impl[..] == old(impl[..])
      ensures r.Some? ==>
                && r.value == Min(size - pos, other.size)
                && impl[..] == Overwritten(old(impl[..]), pos, old(other.View())[..r.value])
    {
      if pos < 0 || pos > size {
        return None;
      }
      var si := Min(size - pos, other.size);
      var bytes := other.impl[other.position..other.position + si];
      assert bytes == old(other.View())[..si];
      var dst := Lock();
      forall i | 0 <= i < si {
        dst[pos + i] := bytes[i];
      }
      r := Some(si);
      assert impl[..] == Overwritten(old(impl[..]), pos, bytes);
    }
  }

  function Overwritten(buf: seq<char>, at: nat, bytes: seq<char>): (r: seq<char>)
    requires at + |bytes| <= |buf|
    ensures |r| == |buf|
  {
    buf[..at] + bytes + buf[at + |bytes|..]
  }

  // In a window at `position` the copy lands that many places too early: its
  // first bytes fall before the place asked for, and as many at the end of
  // that place stay as they were.
  lemma {:induction false} CopyLandsEarly(buf: seq<char>, position: nat, at: nat, bytes: seq<char>)
    requires position + at + |bytes| <= |buf|
    ensures var (asked, missed) := (position + at, Min(position, |bytes|));
            Overwritten(buf, at, bytes)[asked..asked + |bytes|]
            == bytes[missed..] + buf[asked + |bytes| - missed..asked + |bytes|]
    ensures position == 0 ==> Overwritten(buf, at, bytes)[at..at + |bytes|] == bytes
  {
    var (asked, missed, n) := (position + at, Min(position, |bytes|), |bytes|);
    var window := Overwritten(buf, at, bytes)[asked..asked + n];
    var told := bytes[missed..] + buf[asked + n - missed..asked + n];
    forall i | 0 <= i < n
      ensures window[i] == told[i]
    {
      assert window[i] == Overwritten(buf, at, bytes)[asked + i];
    }
    assert missed == 0 ==> told == bytes;
  }

  // So the window shows the bytes copied just when they repeat after
  // `position` places and the tail that was missed showed their end already;
  // with a window at position 0 nothing is asked.
  lemma {:induction false} CopyReachesWindow(buf: seq<char>, position: nat, at: nat, bytes: seq<char>)
    requires position + at + |bytes| <= |buf|
    ensures var (asked, missed, n) := (position + at, Min(position, |bytes|), |bytes|);
            Overwritten(buf, at, bytes)[asked..asked + n] == bytes
            <==> bytes[missed..] == bytes[..n - missed] && buf[asked + n - missed..asked + n] == bytes[n - missed..]
  {
    var (asked, missed, n) := (position + at, Min(position, |bytes|), |bytes|);
    CopyLandsEarly(buf, position, at, bytes);
    Halves(Overwritten(buf, at, bytes)[asked..asked + n], bytes[missed..], buf[asked + n - missed..asked + n],
           bytes, n - missed);
  }

  lemma {:induction false} Halves(all: seq<char>, a: seq<char>, b: seq<char>, c: seq<char>, k: nat)
    requires all == a + b && |a| == k && |a| + |b| == |c|
    ensures all == c <==> a == c[..k] && b == c[k..]
  {
    assert c == c[..k] + c[k..];
    assert (a + b)[..k] == a && (a + b)[k..] == b;
  }

  // Another window on the buffer keeps its bytes just when the bytes copied
  // over it are the ones that were there.
  lemma {:induction false} CopySparesOther(buf: seq<char>, at: nat, bytes: seq<char>, position: nat, other: nat)
    requires at + |bytes| <= |buf| && position + other <= |buf|
    ensures Overwritten(buf, at, bytes)[position..position + other] == buf[position..position + other]
            <==> forall i | at <= i < at + |bytes| && position <= i < position + other :: buf[i] == bytes[i - at]
  {
    var r := Overwritten(buf, at, bytes);
    var w, w' := buf[position..position + other], r[position..position + other];
    assert forall i :: 0 <= i < |r| ==> r[i] == if at <= i < at + |bytes| then bytes[i - at] else buf[i];
    if w == w' {
      forall i | at <= i < at + |bytes| && position <= i < position + other
        ensures buf[i] == bytes[i - at]
      {
        assert w[i - position] == w'[i - position];
      }
    } else {
      var i :| 0 <= i < other && w[i] != w'[i];
      assert buf[position + i] != r[position + i];
    }
  }

  // Both at once: "x" is copied to the front of the window "bc" on "abc"; the
  // window does not get it, and a window on the whole buffer loses its "a".
  lemma CopyMissesItsWindow()
    ensures var after := Overwritten("abc", 0, "x");
            after[1..2] != "x" && after[0..3] != "abc"
  {
    assert Overwritten("abc", 0, "x")[0] == 'x' && Overwritten("abc", 0, "x")[1] == 'b';
  }

  // ---------- what fill() does to the windows on a buffer ----------

  function FillBuffer(buf: seq<char>, n: nat, v: char): (r: seq<char>)
    requires n <= |buf|
    ensures |r| == |buf|
  {
    Repeat(v, n) + buf[n..]
  }

  predicate AllAre(s: seq<char>, v: char) {
    forall i :: 0 <= i < |s| ==> s[i] == v
  }

  // The filled window shows the value everywhere just when the part of it
  // that fill() missed showed it already; a window at position 0 has no such
  // part.
  lemma FillReachesWindow(buf: seq<char>, position: nat, size: nat, v: char)
    requires position + size <= |buf|
    ensures var missed := buf[position + size - Min(position, size)..position + size];
            AllAre(FillBuffer(buf, size, v)[position..position + size], v) <==> AllAre(missed, v)
    ensures position == 0 ==> FillBuffer(buf, size, v)[position..position + size] == Repeat(v, size)
  {
    var r, reach := FillBuffer(buf, size, v), size - Min(position, size);
    var w, missed := r[position..position + size], buf[position + reach..position + size];
    assert w == Repeat(v, reach) + missed;
    if AllAre(w, v) {
      forall i | 0 <= i < |missed|
        ensures missed[i] == v
      {
        assert w[reach + i] == v;
      }
    }
  }

  // Another window on the same buffer keeps its bytes just when the part of
  // it that fill() overwrites showed the value already.
  lemma FillSparesOther(buf: seq<char>, size: nat, v: char, position: nat, other: nat)
    requires size <= |buf| && position + other <= |buf|
    ensures var hit := buf[Min(position, size)..Min(position + other, size)];
            FillBuffer(buf, size, v)[position..position + other] == buf[position..position + other]
            <==> AllAre(hit, v)
  {
    var r := FillBuffer(buf, size, v);
    var lo, hi := Min(position, size), Min(position + other, size);
    var w, w', hit := buf[position..position + other], r[position..position + other], buf[lo..hi];
    assert forall i :: 0 <= i < |r| ==> r[i] == if i < size then v else buf[i];
    if w == w' {
      forall i | 0 <= i < |hit|
        ensures hit[i] == v
      {
        assert w[i] == w'[i];
      }
    }
    if AllAre(hit, v) {
      forall i | 0 <= i < other
        ensures w[i] == w'[i]
      {
        if position + i < size {
          assert hit[i] == v;
        }
      }
      assert w == w';
    }
  }

  // Copy-on-write fails: filling a copy changes the original.
  lemma CopyIsNotOnWrite()
    ensures FillBuffer(['a', 'b'], 2, 'x')[0..2] != ['a', 'b'][0..2]
  {
    assert FillBuffer(['a', 'b'], 2, 'x')[0..2][0] == 'x';
  }

  // ---------- chunks of bytes, on values ----------

  function Concat(chunks: seq<seq<char>>): seq<char> {
    if chunks == [] then [] else chunks[0] + Concat(chunks[1..])
  }

  lemma {:induction false} ConcatAppend(xs: seq<seq<char>>, ys: seq<seq<char>>)
    ensures Concat(xs + ys) == Concat(xs) + Concat(ys)
  {
    if xs == [] {
      assert xs + ys == ys;
    } else {
      assert (xs + ys)[1..] == xs[1..] + ys;
      ConcatAppend(xs[1..], ys);
    }
  }

  // DataDeque::read(data, max_size): what is read and what remains.
  function Take(chunks: seq<seq<char>>, max: nat): (seq<char>, seq<seq<char>>) {
    if chunks == [] then ([], [])
    else if |chunks[0]| <= max then (chunks[0], chunks[1..])
    else (chunks[0][..max], [chunks[0][max..]] + chunks[1..])
  }

  // DataDeque::read(data): a whole chunk.
  function TakeChunk(chunks: seq<seq<char>>): (seq<char>, seq<seq<char>>) {
    if chunks == [] then ([], []) else (chunks[0], chunks[1..])
  }

  // How much comes out: never more than was asked for, and all of the oldest
  // chunk if it is no longer than that.
  lemma TakeAtMost(chunks: seq<seq<char>>, max: nat)
    ensures var (out, rest) := Take(chunks, max);
            && |out| <= max && (chunks == [] ==> out == [] && rest == [])
            && (chunks != [] ==>
                  && out <= chunks[0] && |out| == Min(max, |chunks[0]|)
                  && |rest| == (if |chunks[0]| <= max then |chunks| - 1 else |chunks|))
    ensures var (out, rest) := TakeChunk(chunks);
            chunks != [] ==> out == chunks[0] && rest == chunks[1..]
  {
  }

  datatype DequeOp = Write(bytes: seq<char>) | Read(max: nat) | ReadChunk

  function HeldAfter(chunks: seq<seq<char>>, op: DequeOp): seq<seq<char>> {
    match op
    case Write(b) => chunks + [b]
    case Read(max) => Take(chunks, max).1
    case ReadChunk => TakeChunk(chunks).1
  }

  function ReadBy(chunks: seq<seq<char>>, op: DequeOp): seq<char> {
    match op
    case Write(_) => []
    case Read(max) => Take(chunks, max).0
    case ReadChunk => TakeChunk(chunks).0
  }

  function Written(ops: seq<DequeOp>): seq<char> {
    if ops == [] then [] else (if ops[0].Write? then ops[0].bytes else []) + Written(ops[1..])
  }

  function HeldAfterAll(chunks: seq<seq<char>>, ops: seq<DequeOp>): seq<seq<char>>
    decreases ops
  {
    if ops == [] then chunks else HeldAfterAll(HeldAfter(chunks, ops[0]), ops[1..])
  }

  function ReadByAll(chunks: seq<seq<char>>, ops: seq<DequeOp>): seq<char>
    decreases ops
  {
    if ops == [] then [] else ReadBy(chunks, ops[0]) + ReadByAll(HeldAfter(chunks, ops[0]), ops[1..])
  }

  lemma OpConserves(chunks: seq<seq<char>>, op: DequeOp)
    ensures ReadBy(chunks, op) + Concat(HeldAfter(chunks, op))
            == Concat(chunks) + (if op.Write? then op.bytes else [])
  {
    match op {
      case Write(b) =>
        ConcatAppend(chunks, [b]);
        assert Concat([b]) == b + Concat([]);
      case Read(max) =>
        if chunks != [] && |chunks[0]| > max {
          assert chunks[0][..max] + chunks[0][max..] == chunks[0];
          assert ([chunks[0][max..]] + chunks[1..])[1..] == chunks[1..];
        }
      case ReadChunk =>
    }
  }

  // Whatever the order of writes and reads: the bytes read, followed by the
  // bytes held, are the bytes held before followed by the bytes written.
  lemma {:induction false} DequeIsByteFifo(chunks: seq<seq<char>>, ops: seq<DequeOp>)
    ensures ReadByAll(chunks, ops) + Concat(HeldAfterAll(chunks, ops)) == Concat(chunks) + Written(ops)
    decreases ops
  {
    if ops != [] {
      var held, out := HeldAfter(chunks, ops[0]), ReadBy(chunks, ops[0]);
      var bytes := if ops[0].Write? then ops[0].bytes else [];
      OpConserves(chunks, ops[0]);
      DequeIsByteFifo(held, ops[1..]);
      Regroup(out, Concat(held), Concat(chunks), bytes,
              ReadByAll(held, ops[1..]), Concat(HeldAfterAll(held, ops[1..])), Written(ops[1..]));
    }
  }

  lemma Regroup(out: seq<char>, held: seq<char>, before: seq<char>, bytes: seq<char>,
                rest: seq<char>, last: seq<char>, written: seq<char>)
    requires out + held == before + bytes && rest + last == held + written
    ensures (out + rest) + last == before + (bytes + written)
  {
    assert (out + rest) + last == out + (rest + last);
    assert out + (held + written) == (out + held) + written;
    assert (before + bytes) + written == before + (bytes + written);
  }

  // How long reads can go on: bytes held plus chunks held.
  function Measure(chunks: seq<seq<char>>): nat {
    |Concat(chunks)| + |chunks|
  }

  lemma ReadMakesProgress(chunks: seq<seq<char>>, max: nat)
    requires chunks != [] && max > 0
    ensures Measure(Take(chunks, max).1) < Measure(chunks)
  {
    OpConserves(chunks, Read(max));
  }

  function Reads(n: nat, max: nat): seq<DequeOp> {
    seq(n, _ => Read(max))
  }

  // Reading max > 0 bytes at a time empties the deque, empty chunks included,
  // within Measure many reads, and yields its bytes in order.
  lemma {:induction false} ReadsDrain(chunks: seq<seq<char>>, n: nat, max: nat)
    requires max > 0 && n >= Measure(chunks)
    ensures HeldAfterAll(chunks, Reads(n, max)) == []
    ensures ReadByAll(chunks, Reads(n, max)) == Concat(chunks)
    decreases n
  {
    if n > 0 {
      assert Reads(n, max)[0] == Read(max) && Reads(n, max)[1..] == Reads(n - 1, max);
      if chunks != [] {
        ReadMakesProgress(chunks, max);
      }
      OpConserves(chunks, Read(max));
      ReadsDrain(Take(chunks, max).1, n - 1, max);
    }
  }

  // ---------- DataDeque ----------

  ghost predicate AllValid(ds: seq<Data>)
    reads ds
  {
    && (forall i :: 0 <= i < |ds| ==> ds[i].Valid())
    && NoDuplicates(ds)
  }

  ghost function Views(ds: seq<Data>): (r: seq<seq<char>>)
    requires forall i :: 0 <= i < |ds| ==> ds[i].Valid()
    reads ds, set d | d in ds :: d.impl
  {
    seq(|ds|, i requires 0 <= i < |ds| reads ds, set d | d in ds :: d.impl requires ds[i].Valid() => ds[i].View())
  }

  lemma MoreBytes(chunks: seq<seq<char>>, b: seq<char>)
    ensures |Concat(chunks + [b])| == |Concat(chunks)| + |b|
  {
    ConcatAppend(chunks, [b]);
    assert Concat([b]) == b + Concat([]);
  }

  lemma ViewsMore(ds: seq<Data>, d: Data)
    requires (forall i :: 0 <= i < |ds| ==> ds[i].Valid()) && d.Valid()
    ensures Views(ds + [d]) == Views(ds) + [d.View()]
  {
  }

  lemma ViewsLess(ds: seq<Data>)
    requires (forall i :: 0 <= i < |ds| ==> ds[i].Valid()) && ds != []
    ensures Views(ds[1..]) == Views(ds)[1..] && Views(ds)[0] == ds[0].View()
  {
  }

  lemma TakeAndDrop(v: seq<char>, n: nat)
    requires n <= |v|
    ensures v[0..n] == v[..n] && v[n..n + (|v| - n)] == v[n..]
  {
  }

  // data = Data(fr, 0, n); fr = Data(fr, n, fr.getSize() - n)
  method CutFront(data: Data, fr: Data, n: nat)
    requires data.Shaped() && fr.Valid() && data != fr && n <= fr.size
    modifies data, fr
    ensures data.Valid() && fr.Valid() && fr.impl == old(fr.impl)
    ensures data.View() == old(fr.View())[..n]
    ensures fr.View() == old(fr.View())[n..]
  {
    ghost var v := fr.View();
    var head := Data.Slice(fr, 0, n);
    var tail := Data.Slice(fr, n, fr.size - n);
    TakeAndDrop(v, n);
    var h, t := head.value, tail.value;
    data.Assign(h);
    fr.Assign(t);
  }

  // std::list<Data> stores its own copies; m_data holds objects that nobody
  // else refers to.
  class DataDeque {
    var m_data: seq<Data>
    var size: int

    ghost predicate Valid()
      reads this, m_data, set d | d in m_data :: d.impl
    {
      AllValid(m_data) && size == |Concat(Views(m_data))|
    }

    ghost function Chunks(): seq<seq<char>>
      requires Valid()
      reads this, m_data, set d | d in m_data :: d.impl
    {
      Views(m_data)
    }

    constructor ()
      ensures Valid() && Chunks() == [] && size == 0
    {
      m_data, size := [], 0;
    }

    method Write(data: Data)
      requires Valid() && data.Valid()
      modifies this
      ensures Valid() && (forall d | d in m_data :: d in old(m_data) || fresh(d))
      ensures Chunks() == old(Chunks()) + [old(data.View())]
    {
      var d := new Data.Copy(data);
      assert Views(m_data) == old(Chunks());
      PushBack(d);
    }

    method PushBack(d: Data)
      requires Valid() && d.Valid() && d !in m_data
      modifies this`m_data, this`size
      ensures Valid() && m_data == old(m_data) + [d] && Chunks() == old(Chunks()) + [d.View()]
    {
      MoreBytes(Chunks(), d.View());
      ViewsMore(m_data, d);
      m_data := m_data + [d];
      size := size + d.size;
    }

    // A negative max_size throws unless the deque is empty; the deque is not
    // touched then, but data has become a Data of negative size.
    method Read(data: Data, max_size: int) returns (thrown: bool)
      requires Valid() && data.Shaped() && data !in m_data
      modifies this`m_data, this`size, data, m_data
      ensures Valid() && data !in m_data
      ensures thrown <==> max_size < 0 && old(m_data) != []
      ensures thrown ==> data.Shaped() && data.size == max_size && Chunks() == old(Chunks())
      ensures !thrown ==>
                var taken := Take(old(Chunks()), if max_size < 0 then 0 else max_size);
                data.Valid() && data.View() == taken.0 && Chunks() == taken.1
    {
      thrown := false;
      if m_data == [] {
        var empty := new Data();
        data.Assign(empty);
      } else if m_data[0].size <= max_size {
        ReadWhole(data);
      } else if max_size < 0 {
        SliceFails(data, max_size);
        thrown := true;
      } else {
        SplitFront(data, max_size);
      }
    }

    // data = Data(fr, 0, max_size) succeeds, Data(fr, max_size, ...) throws.
    method SliceFails(data: Data, max_size: int)
      requires Valid() && data.Shaped() && data !in m_data && m_data != [] && max_size < 0
      modifies data
      ensures Valid() && data.Shaped() && data.size == max_size && Chunks() == old(Chunks())
    {
      var fr := m_data[0];
      var head := Data.Slice(fr, 0, max_size);
      data.Assign(head.value);
      var tail := Data.Slice(fr, max_size, fr.size - max_size);
      assert tail.None?;
      assert Views(m_data) == old(Chunks());
    }

    // The last case of read: the front chunk is longer than asked for.
    method SplitFront(data: Data, max_size: nat)
      requires Valid() && data.Shaped() && data !in m_data && m_data != [] && max_size < m_data[0].size
      modifies this`size, data, m_data[0]
      ensures Valid() && data.Valid()
      ensures data.View() == Take(old(Chunks()), max_size).0
      ensures Chunks() == Take(old(Chunks()), max_size).1
    {
      ghost var before := Chunks();
      OpConserves(before, DequeOp.Read(max_size));
      var fr := m_data[0];
      CutFront(data, fr, max_size);
      size := size - max_size;
      assert before[0] == old(fr.View());
      assert forall i :: 1 <= i < |m_data| ==> m_data[i] != fr;
      assert Views(m_data) == [before[0][max_size..]] + before[1..];
    }

    method PopFront()
      requires Valid() && m_data != []
      modifies this`m_data, this`size
      ensures Valid() && m_data == old(m_data)[1..] && Chunks() == old(Chunks())[1..]
    {
      ViewsLess(m_data);
      size := size - m_data[0].size;
      m_data := m_data[1..];
    }

    method ReadWhole(data: Data)
      requires Valid() && data.Shaped() && data !in m_data
      modifies this`m_data, this`size, data
      ensures Valid() && data.Valid() && data !in m_data
      ensures data.View() == TakeChunk(old(Chunks())).0
      ensures Chunks() == TakeChunk(old(Chunks())).1
    {
      if m_data == [] {
        var empty := new Data();
        data.Assign(empty);
        return;
      }
      ViewsLess(m_data);
      data.Assign(m_data[0]);
      assert Views(m_data) == old(Chunks());
      PopFront();
    }
  }
}
