// The hub's side of a request: a pooled buffer holds first the request, then the envelope made from it.
// The envelope's request is a slice of the very storage the envelope is written into.
module RoundTripper {
  import opened Prelude
  import opened Timeouts
  import opened TlsSettings
  import opened Envelope

  // A view of the first n bytes of an array that others may write.
  datatype Slice = Slice(arr: array<byte>, n: nat) {
    ghost predicate Valid() {
      n <= arr.Length
    }

    function View(): seq<byte>
      reads arr
      requires Valid()
    {
      arr[..n]
    }
  }

  function Overwrite(store: seq<byte>, at: nat, p: seq<byte>): (r: seq<byte>)
    requires at + |p| <= |store|
    ensures |r| == |store|
  {
    store[..at] + p + store[at + |p|..]
  }

  class ByteBuffer {
    var data: array<byte>
    var len: nat

    ghost predicate Valid()
      reads this
    {
      len <= data.Length
    }

    function Contents(): seq<byte>
      reads this, data
      requires Valid()
    {
      data[..len]
    }

    constructor ()
      ensures Valid() && fresh(data) && len == 0
    {
      data, len := new byte[0], 0;
    }

    // Keeps the storage, and what is in it.
    method Reset()
      requires Valid()
      modifies this`len
      ensures Valid() && len == 0
    {
      len := 0;
    }

    // In place while the storage lasts, into new storage from then on.
    method Write(p: seq<byte>)
      requires Valid()
      modifies this, data
      ensures Valid() && Contents() == old(Contents()) + p
      ensures old(len) + |p| <= old(data.Length) ==>
        data == old(data) && data[..] == Overwrite(old(data[..]), old(len), p)
      ensures old(len) + |p| > old(data.Length) ==> fresh(data) && old(data)[..] == old(data[..])
    {
      if len + |p| > data.Length {
        var grown := new byte[2 * data.Length + |p|];
        forall i | 0 <= i < len {
          grown[i] := data[i];
        }
        data := grown;
        assert data[..len] == old(data[..len]);
      }
      forall i | 0 <= i < |p| {
        data[len + i] := p[i];
      }
      len := len + |p|;
    }

    method Bytes() returns (s: Slice)
      requires Valid()
      ensures s == Slice(data, len)
    {
      s := Slice(data, len);
    }
  }

  class BufferPool {
    var free: seq<ByteBuffer>
    ghost var Repr: set<object>

    ghost predicate Valid()
      reads this, Repr
    {
      && this in Repr
      && (forall i :: 0 <= i < |free| ==> free[i] in Repr && free[i].data in Repr && free[i].Valid())
      && (forall i, j :: 0 <= i < j < |free| ==> free[i] != free[j])
    }

    constructor ()
      ensures Valid() && fresh(Repr) && free == []
    {
      free, Repr := [], {this};
    }

    // Any free buffer, with whatever it held, or a new one; never one that is in use.
    method Get() returns (b: ByteBuffer)
      requires Valid()
      modifies this
      ensures Valid() && fresh(Repr - old(Repr))
      ensures b.Valid() && b in Repr && b.data in Repr && (b in old(free) || fresh(b))
      ensures forall x :: x in free <==> x in old(free) && x != b
    {
      var reuse: bool := *;
      if reuse && |free| > 0 {
        var i: nat :| i < |free|;
        b := free[i];
        assert forall x :: x in free <==> x in free[..i] + free[i + 1..] || x == b;
        free := free[..i] + free[i + 1..];
      } else {
        b := new ByteBuffer();
        Repr := Repr + {b, b.data};
      }
    }

    method Put(b: ByteBuffer)
      requires Valid() && b.Valid() && b !in free && b in Repr
      modifies this
      ensures Valid() && free == old(free) + [b] && Repr == old(Repr) + {b.data}
    {
      free := free + [b];
      Repr := Repr + {b.data};
    }
  }

  function Concat(pieces: seq<seq<byte>>): seq<byte> {
    if pieces == [] then [] else Concat(pieces[..|pieces| - 1]) + pieces[|pieces| - 1]
  }

  // r.WriteProxy: the serialised request in pieces, or an error on the way.
  method WriteRequest(b: ByteBuffer, pieces: seq<seq<byte>>, failure: Option<string>) returns (err: Option<string>)
    requires b.Valid() && b.len == 0
    modifies b, b.data
    ensures b.Valid() && (b.data == old(b.data) || fresh(b.data))
    ensures err == failure && b.Contents() == Concat(pieces)
  {
    for i := 0 to |pieces|
      invariant b.Valid() && (b.data == old(b.data) || fresh(b.data))
      invariant b.Contents() == Concat(pieces[..i])
    {
      b.Write(pieces[i]);
      assert pieces[..i + 1][..i] == pieces[..i];
    }
    assert pieces[..|pieces|] == pieces;
    err := failure;
  }

  // The encoder puts its text together before it writes any of it: reading the request through the
  // slice comes before the storage changes.
  method Encode(b: ByteBuffer, request: Slice, tls: Option<PersistableTLS>, timeout: Duration, disableCompression: bool)
    requires b.Valid() && request.Valid()
    modifies b, b.data
    ensures b.Valid() && (b.data == old(b.data) || fresh(b.data))
    ensures b.Contents() == old(b.Contents()) + Marshal(R(old(request.View()), tls, timeout, disableCompression))
  {
    var text := Marshal(R(request.View(), tls, timeout, disableCompression));
    b.Write(text);
  }

  // The buffer's part of RoundTrip: the request is written, sliced, and replaced by its envelope.
  method Envelop(buf: ByteBuffer, pieces: seq<seq<byte>>, failure: Option<string>,
                 tls: Option<PersistableTLS>, configured: Duration, deadline: Option<int>, now: int,
                 disableCompression: bool)
    returns (err: Option<string>, timeout: Duration)
    requires buf.Valid()
    modifies buf, buf.data
    ensures buf.Valid() && (buf.data == old(buf.data) || fresh(buf.data))
    ensures err == failure
    ensures failure.None? ==>
      && timeout == HubTimeout(configured, deadline, now)
      && buf.Contents() == Marshal(R(Concat(pieces), tls, Shipped(timeout), disableCompression))
  {
    timeout := 0;
    buf.Reset();
    err := WriteRequest(buf, pieces, failure);
    if err.Some? {
      return;
    }
    timeout := Timeouts.Timeout(configured, deadline, now);
    var request := buf.Bytes();
    assert request.View() == Concat(pieces);
    buf.Reset();
    assert buf.Contents() == [];
    Encode(buf, request, tls, Shipped(timeout), disableCompression);
  }

  // RoundTrip, up to the publish: the data given to it, and the hub's timeout.
  method RoundTrip(pool: BufferPool, pieces: seq<seq<byte>>, failure: Option<string>,
                   tls: Option<PersistableTLS>, configured: Duration, deadline: Option<int>, now: int,
                   disableCompression: bool)
    returns (published: Result<seq<byte>, string>, timeout: Duration)
    requires pool.Valid()
    modifies pool.Repr
    ensures pool.Valid() && fresh(pool.Repr - old(pool.Repr))
    ensures failure.Some? ==> published == Err(failure.value)
    ensures failure.None? ==>
      && timeout == HubTimeout(configured, deadline, now)
      && published == Ok(Marshal(R(Concat(pieces), tls, Shipped(timeout), disableCompression)))
  {
    var buf := pool.Get();
    var err;
    err, timeout := Envelop(buf, pieces, failure, tls, configured, deadline, now, disableCompression);
    if err.Some? {
      published := Err(err.value);
    } else {
      published := Ok(buf.Contents());
    }
    pool.Put(buf);
  }

  // What the slice shows once its storage has been written again: the request, exactly when the new
  // bytes went elsewhere or agree with it as far as they overlap. So reading it late is not safe.
  method WriteUnderSlice(b: ByteBuffer, p: seq<byte>) returns (request: Slice)
    requires b.Valid()
    modifies b, b.data
    ensures request.Valid()
    ensures request.View() == old(b.Contents()) <==>
      |p| > old(b.data.Length) || forall i :: 0 <= i < |p| && i < old(b.len) ==> p[i] == old(b.Contents()[i])
  {
    request := b.Bytes();
    ghost var before := b.Contents();
    b.Reset();
    b.Write(p);
    if |p| <= request.arr.Length {
      assert forall i :: 0 <= i < request.n ==> request.View()[i] == if i < |p| then p[i] else before[i];
    } else {
      assert request.View() == before;
    }
  }
}
