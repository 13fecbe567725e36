// DataStreamBridge::move_data between any finite source and any sink that
// takes a prefix of what it is offered.
module Bridge {
  import opened Data

  lemma OneMoreChunk(given: seq<char>, chunks: seq<seq<char>>)
    requires chunks != []
    ensures (given + chunks[0]) + Concat(chunks[1..]) == given + Concat(chunks)
  {
    assert (given + chunks[0]) + Concat(chunks[1..]) == given + (chunks[0] + Concat(chunks[1..]));
  }

  lemma Split(got: seq<char>, held: seq<char>, n: nat)
    requires n <= |held|
    ensures (got + held[..n]) + held[n..] == got + held
  {
    assert (got + held[..n]) + held[n..] == got + (held[..n] + held[n..]);
  }

  lemma Associate(a: seq<char>, b: seq<char>, c: seq<char>)
    ensures (a + b) + c == a + (b + c)
  {
  }

  // A DataInputStream: the chunks it will hand out, one per read.
  class Source {
    var chunks: seq<seq<char>>
    var dry: bool                // the latest read returned 0
    ghost var given: seq<char>   // history: all bytes handed out

    constructor (chunks: seq<seq<char>>)
      ensures this.chunks == chunks && given == [] && !dry
    {
      this.chunks, dry, given := chunks, false, [];
    }

    method Read(data: Data) returns (n: nat)
      requires data.Valid()
      modifies this, data
      ensures data.Valid() && n == data.size && (dry <==> n == 0)
      ensures chunks == if old(chunks) == [] then [] else old(chunks)[1..]
      ensures data.View() == if old(chunks) == [] then [] else old(chunks)[0]
      ensures given == old(given) + data.View()
      ensures given + Concat(chunks) == old(given) + old(Concat(chunks))
    {
      var bytes := [];
      if chunks != [] {
        OneMoreChunk(given, chunks);
        bytes, chunks := chunks[0], chunks[1..];
      }
      var d := new Data.FromBytes(bytes);
      data.Assign(d);
      n, dry, given := |bytes|, |bytes| == 0, given + bytes;
    }
  }

  // A DataOutputStream: how many bytes it will accept at most, one entry per
  // write; after that it accepts nothing.
  class Sink {
    var accepts: seq<nat>
    var got: seq<char>
    var full: bool   // the latest write left bytes behind

    constructor (accepts: seq<nat>)
      ensures this.accepts == accepts && got == [] && !full
    {
      this.accepts, got, full := accepts, [], false;
    }

    method Write(data: Data) returns (n: nat)
      requires data.Valid()
      modifies this, data
      ensures data.Valid() && n <= old(data.size)
      ensures got == old(got) + old(data.View())[..n] && data.View() == old(data.View())[n..]
      ensures full <==> data.View() != []
    {
      n := 0;
      if accepts != [] {
        n, accepts := Min(accepts[0], data.size), accepts[1..];
      }
      var bytes := data.impl[data.position..data.position + data.size];
      assert bytes == data.View();
      got := got + bytes[..n];
      var rest := Data.Slice(data, n, data.size - n);
      data.Assign(rest.value);
      full := data.size != 0;
    }
  }

  class DataStreamBridge {
    var buffer: Data

    constructor ()
      ensures buffer.Valid() && buffer.View() == []
    {
      buffer := new Data();
    }

    // sout.write(buffer), as far as the bridge depends on it
    method Offer(sout: Sink)
      requires buffer.Valid()
      modifies buffer, sout
      ensures buffer.Valid() && buffer.size <= old(buffer.size)
      ensures sout.got + buffer.View() == old(sout.got) + old(buffer.View())
      ensures sout.full <==> buffer.size != 0
    {
      ghost var got, held := sout.got, buffer.View();
      var n := sout.Write(buffer);
      Split(got, held, n);
    }

    method MoveData(sin: Source, sout: Sink)
      requires buffer.Valid()
      modifies buffer, sin, sout
      ensures buffer.Valid()
      // nothing is lost, repeated or reordered
      ensures old(sin.given) <= sin.given
      ensures sout.got + buffer.View()
              == old(sout.got) + old(buffer.View()) + sin.given[|old(sin.given)|..]
      ensures sin.given + Concat(sin.chunks) == old(sin.given) + old(Concat(sin.chunks))
      // it stops with the source dry and the buffer empty, or at a short write
      ensures buffer.View() == [] ==> sin.dry
      ensures buffer.View() != [] ==> sout.full
    {
      ghost var start, read := sout.got + buffer.View(), [];
      while true
        invariant buffer.Valid()
        invariant sin.given == old(sin.given) + read
        invariant sin.given + Concat(sin.chunks) == old(sin.given) + old(Concat(sin.chunks))
        invariant sout.got + buffer.View() == start + read
        decreases |sin.chunks|, buffer.size
      {
        if buffer.size == 0 {
          assert sout.got == start + read;
          var n := sin.Read(buffer);
          Associate(start, read, buffer.View());
          Associate(old(sin.given), read, buffer.View());
          read := read + buffer.View();
          if n == 0 {
            break;
          }
        }
        Offer(sout);
        if buffer.size != 0 {
          break;
        }
      }
    }
  }
}
