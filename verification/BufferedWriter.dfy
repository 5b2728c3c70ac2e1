// The pooled buffered writer and the message writer below it, with their fields updated in place. Go's
// bufio.Writer is a library; its documented behaviour is written out here.
module BufferedWriter {
  import opened Prelude
  import opened Wire
  import opened EdgeWorker

  // The value of a buffered writer together with the connection it writes to.
  datatype Sink = Sink(buf: Buffered, err: Option<string>, attempts: nat, log: seq<Packet>)

  // One write of the message writer, its error kept by the buffered writer.
  function Emit(s: Sink, subject: string, data: seq<byte>, done: Option<string>, v: nat -> Verdict): Sink {
    match v(s.attempts)
    case Accepted => s.(attempts := s.attempts + 1, log := s.log + [Packet(subject, Message(data, done))])
    case Refused(text) => s.(attempts := s.attempts + 1, err := Some(text))
  }

  // A piece written to the end, or to the first refusal.
  function Put(s: Sink, subject: string, op: Op, v: nat -> Verdict): Sink
    decreases |op.bytes|, |s.buf|
  {
    if s.err.Some? then s
    else if !Overflows(op.mode, |s.buf|, |op.bytes|) then s.(buf := s.buf + op.bytes)
    else if op.mode == Slice && s.buf == [] then Emit(s, subject, op.bytes, None, v)
    else
      var room := CAPACITY - |s.buf|;
      Put(Emit(s.(buf := []), subject, s.buf + op.bytes[..room], None, v), subject,
          Op(op.mode, op.bytes[room..]), v)
  }

  lemma PutOverflowing(s: Sink, subject: string, op: Op, v: nat -> Verdict)
    requires s.err.None? && Overflows(op.mode, |s.buf|, |op.bytes|)
    ensures op.mode == Slice && s.buf == [] ==> Put(s, subject, op, v) == Emit(s, subject, op.bytes, None, v)
    ensures op.mode != Slice || s.buf != [] ==>
      var room := CAPACITY - |s.buf|;
      Put(s, subject, op, v) ==
        Put(Emit(s.(buf := []), subject, s.buf + op.bytes[..room], None, v), subject, Op(op.mode, op.bytes[room..]), v)
  {
  }

  // A full buffer is flushed before anything is read into it.
  lemma PutWhenFull(s: Sink, subject: string, rest: seq<byte>, v: nat -> Verdict)
    requires s.err.None? && |s.buf| == CAPACITY
    ensures Put(s, subject, Op(Stream, rest), v) == Put(Flushed(s, subject, None, v), subject, Op(Stream, rest), v)
  {
    PutOverflowing(s, subject, Op(Stream, rest), v);
    assert s.buf + rest[..0] == s.buf && rest[0..] == rest;
  }

  lemma PutNothing(s: Sink, subject: string, mode: Mode, v: nat -> Verdict)
    requires mode != Stream
    ensures Put(s, subject, Op(mode, []), v) == s
  {
    assert s.buf + [] == s.buf;
  }

  function Flushed(s: Sink, subject: string, done: Option<string>, v: nat -> Verdict): Sink {
    if s.err.Some? || s.buf == [] then s else Emit(s.(buf := []), subject, s.buf, done, v)
  }

  // ReadFrom takes bytes as they come: how they are cut makes no difference.
  lemma PutInChunks(s: Sink, subject: string, a: seq<byte>, b: seq<byte>, v: nat -> Verdict)
    requires s.err.None? && |s.buf| + |a| <= CAPACITY
    ensures Put(s, subject, Op(Stream, a + b), v) == Put(s.(buf := s.buf + a), subject, Op(Stream, b), v)
  {
    var whole := Op(Stream, a + b);
    var s' := s.(buf := s.buf + a);
    if |s.buf| + |a + b| < CAPACITY {
      assert s.buf + (a + b) == s'.buf + b;
    } else {
      var room, room' := CAPACITY - |s.buf|, CAPACITY - |s'.buf|;
      assert s.buf + (a + b)[..room] == s'.buf + b[..room'];
      assert (a + b)[room..] == b[room'..];
    }
  }

  // ---------------------------------------------------------------------------------------------
  // What a piece comes to, by numbers alone.

  // The messages that adding the piece to the buffered bytes makes, and what is buffered then. Write sends
  // at most a full buffer and, if the rest does not fit one, the rest; the other two only full buffers, as
  // many as there are, of which WriteString keeps the last one.
  function Cuts(mode: Mode, buf: Buffered, bytes: seq<byte>): (seq<seq<byte>>, seq<byte>) {
    var data := buf + bytes;
    match mode
    case Slice =>
      if |data| <= 8192 then ([], data)
      else if buf == [] then ([data], [])
      else if |data| > 16384 then ([data[..8192], data[8192..]], [])
      else ([data[..8192]], data[8192..])
    case Text => if data == [] then ([], []) else FullBuffers(data, (|data| - 1) / 8192)
    case Stream => FullBuffers(data, |data| / 8192)
  }

  // The first n runs of 8192 bytes, and the rest.
  function FullBuffers(data: seq<byte>, n: nat): (r: (seq<seq<byte>>, seq<byte>))
    requires 8192 * n <= |data|
    ensures |r.0| == n && |r.1| == |data| - 8192 * n
  {
    if n == 0 then ([], data)
    else
      var (more, left) := FullBuffers(data[8192..], n - 1);
      ([data[..8192]] + more, left)
  }

  // Either nothing is sent, or the whole piece at once, or the buffer filled to the brim and then the rest.
  lemma CutsStep(mode: Mode, buf: Buffered, bytes: seq<byte>)
    ensures !Overflows(mode, |buf|, |bytes|) ==> Cuts(mode, buf, bytes) == ([], buf + bytes)
    ensures Overflows(mode, |buf|, |bytes|) && mode == Slice && buf == [] ==> Cuts(mode, buf, bytes) == ([bytes], [])
    ensures Overflows(mode, |buf|, |bytes|) && (mode != Slice || buf != []) ==>
      var room := 8192 - |buf|;
      && Cuts(mode, buf, bytes).0 == [buf + bytes[..room]] + Cuts(mode, [], bytes[room..]).0
      && Cuts(mode, buf, bytes).1 == Cuts(mode, [], bytes[room..]).1
  {
    var data := buf + bytes;
    if !Overflows(mode, |buf|, |bytes|) {
      assert data[0..] == data;
    } else if mode == Slice && buf == [] {
      assert [] + bytes == bytes;
    } else {
      CutFirst(mode, buf, bytes);
    }
  }

  lemma CutFirst(mode: Mode, buf: Buffered, bytes: seq<byte>)
    requires Overflows(mode, |buf|, |bytes|) && (mode != Slice || buf != [])
    ensures var room := 8192 - |buf|;
      && Cuts(mode, buf, bytes).0 == [buf + bytes[..room]] + Cuts(mode, [], bytes[room..]).0
      && Cuts(mode, buf, bytes).1 == Cuts(mode, [], bytes[room..]).1
  {
    var data, room := buf + bytes, 8192 - |buf|;
    assert data[..8192] == buf + bytes[..room] && data[8192..] == [] + bytes[room..];
    match mode {
      case Slice =>
      case Text => assert (|data| - 1) / 8192 == 1 + (|data[8192..]| - 1) / 8192;
      case Stream => assert |data| / 8192 == 1 + |data[8192..]| / 8192;
    }
  }

  function Unfinished(datas: seq<seq<byte>>): (ms: seq<Message>)
    ensures |ms| == |datas|
  {
    seq(|datas|, i requires 0 <= i < |datas| => Message(datas[i], None))
  }

  // The piece is put exactly so, up to the first refusal: m messages are accepted.
  ghost predicate PutAsCut(s: Sink, after: Sink, subject: string, op: Op, v: nat -> Verdict, m: nat) {
    var (sent, left) := Cuts(op.mode, s.buf, op.bytes);
    && m <= |sent| && (forall k :: s.attempts <= k < s.attempts + m ==> v(k).Accepted?)
    && after.log == s.log + Addressed(subject, Unfinished(sent[..m]))
    && if m == |sent| then after.err.None? && after.buf == left && after.attempts == s.attempts + m
       else
         && after.attempts == s.attempts + m + 1
         && v(s.attempts + m).Refused? && after.err == Some(v(s.attempts + m).text)
  }

  lemma {:induction false} PutExactly(s: Sink, subject: string, op: Op, v: nat -> Verdict) returns (m: nat)
    requires s.err.None?
    ensures PutAsCut(s, Put(s, subject, op, v), subject, op, v, m)
    decreases |op.bytes|, |s.buf|
  {
    CutsStep(op.mode, s.buf, op.bytes);
    m := 0;
    assert s.log + Addressed(subject, Unfinished([])) == s.log;
    if Overflows(op.mode, |s.buf|, |op.bytes|) {
      if op.mode == Slice && s.buf == [] {
        m := if v(s.attempts).Accepted? then 1 else 0;
        OneAddressed(subject, op.bytes);
      } else {
        var room := 8192 - |s.buf|;
        var full, rest := s.buf + op.bytes[..room], Op(op.mode, op.bytes[room..]);
        var s' := Emit(s.(buf := []), subject, full, None, v);
        PutOverflowing(s, subject, op, v);
        if v(s.attempts).Accepted? {
          var n := PutExactly(s', subject, rest, v);
          CutOneMore(s, s', Put(s', subject, rest, v), subject, op, rest, v, n);
          m := n + 1;
        }
      }
    }
  }

  lemma OneAddressed(subject: string, data: seq<byte>)
    ensures Addressed(subject, Unfinished([data][..1])) == [Packet(subject, Message(data, None))]
    ensures Addressed(subject, Unfinished([data][..0])) == []
  {
  }

  // A message in front of what the rest of the piece comes to.
  lemma CutOneMore(s: Sink, s': Sink, after: Sink, subject: string, op: Op, rest: Op, v: nat -> Verdict, n: nat)
    requires v(s.attempts).Accepted? && s'.attempts == s.attempts + 1 && s'.buf == []
    requires Cuts(op.mode, s.buf, op.bytes).0 != []
    requires s'.log == s.log + [Packet(subject, Message(Cuts(op.mode, s.buf, op.bytes).0[0], None))]
    requires Cuts(op.mode, s.buf, op.bytes).0[1..] == Cuts(rest.mode, [], rest.bytes).0
    requires Cuts(op.mode, s.buf, op.bytes).1 == Cuts(rest.mode, [], rest.bytes).1
    requires PutAsCut(s', after, subject, rest, v, n)
    ensures PutAsCut(s, after, subject, op, v, n + 1)
  {
    var sent := Cuts(op.mode, s.buf, op.bytes).0;
    assert sent[1..][..n] == sent[1..n + 1];
    assert Unfinished(sent[..n + 1]) == [Message(sent[0], None)] + Unfinished(sent[1..n + 1]);
    assert Addressed(subject, Unfinished(sent[..n + 1]))
        == [Packet(subject, Message(sent[0], None))] + Addressed(subject, Unfinished(sent[1..n + 1]));
  }

  class Connection {
    const verdict: nat -> Verdict  // the answer to each publish attempt
    var attempts: nat
    var log: seq<Packet>

    constructor (verdict: nat -> Verdict)
      ensures this.verdict == verdict && attempts == 0 && log == []
    {
      this.verdict, attempts, log := verdict, 0, [];
    }

    // A publish copies the data it is given.
    method PublishMsg(subject: string, data: seq<byte>, done: Option<string>) returns (err: Option<string>)
      modifies this
      ensures attempts == old(attempts) + 1
      ensures verdict(old(attempts)).Accepted? ==>
        err == None && log == old(log) + [Packet(subject, Message(data, done))]
      ensures verdict(old(attempts)).Refused? ==>
        err == Some(verdict(old(attempts)).text) && log == old(log)
    {
      var answer := verdict(attempts);
      attempts := attempts + 1;
      match answer {
        case Accepted => log := log + [Packet(subject, Message(data, done))]; err := None;
        case Refused(text) => err := Some(text);
      }
    }
  }

  class NatsWriter {
    const nc: Connection
    const subject: string
    var final: bool

    constructor (nc: Connection, subject: string)
      ensures this.nc == nc && this.subject == subject && !final
    {
      this.nc, this.subject, final := nc, subject, false;
    }

    function Done(): Option<string>
      reads this
    {
      if final then Some(HeaderValue("")) else None
    }

    // Claims all bytes as written even when the publish was refused.
    method Write(data: seq<byte>) returns (n: nat, err: Option<string>)
      modifies nc
      ensures n == |data|
      ensures nc.attempts == old(nc.attempts) + 1
      ensures nc.verdict(old(nc.attempts)).Accepted? ==>
        err == None && nc.log == old(nc.log) + [Packet(subject, Message(data, Done()))]
      ensures nc.verdict(old(nc.attempts)).Refused? ==>
        err == Some(nc.verdict(old(nc.attempts)).text) && nc.log == old(nc.log)
    {
      err := nc.PublishMsg(subject, data, Done());
      n := |data|;
    }

    method WriteError(failure: Option<string>) returns (n: nat, err: Option<string>)
      modifies nc
      ensures n == 0
      ensures nc.attempts == old(nc.attempts) + 1
      ensures nc.verdict(old(nc.attempts)).Refused? ==>
        err == Some(nc.verdict(old(nc.attempts)).text) && nc.log == old(nc.log)
      ensures nc.verdict(old(nc.attempts)).Accepted? ==> err == None
      ensures nc.verdict(old(nc.attempts)).Accepted? ==>
        nc.log == old(nc.log) + [Packet(subject, Message([],
          if !final then None else if failure.None? then Some(HeaderValue("")) else Some(HeaderValue(failure.value))))]
    {
      var done: Option<string> := None;
      if final {
        match failure {
          case None => done := Some(HeaderValue(""));
          case Some(text) => done := Some(HeaderValue(text));
        }
      }
      err := nc.PublishMsg(subject, [], done);
      n := 0;
    }
  }

  class BufioWriter {
    const buf: array<byte>
    var n: nat
    var err: Option<string>
    var wr: NatsWriter?

    ghost predicate Valid()
      reads this
    {
      buf.Length == CAPACITY && n <= CAPACITY
    }

    ghost predicate Attached()
      reads this
    {
      Valid() && wr != null
    }

    ghost function View(): Sink
      reads this, buf, wr, if wr == null then {} else {wr.nc}
      requires Attached()
    {
      Sink(buf[..n], err, wr.nc.attempts, wr.nc.log)
    }

    constructor ()
      ensures Valid() && fresh(this) && fresh(buf) && n == 0 && err == None && wr == null
    {
      buf := new byte[CAPACITY];
      n, err, wr := 0, None, null;
    }

    // Forgets bytes and error of whatever was written before.
    method Reset(w: NatsWriter)
      requires Valid()
      modifies this
      ensures Attached() && wr == w
      ensures View() == Sink([], None, w.nc.attempts, w.nc.log)
    {
      n, err, wr := 0, None, w;
    }

    function Available(): nat
      reads this
      requires Valid()
    {
      CAPACITY - n
    }

    // Copies as much of p as fits behind the buffered bytes.
    method Fill(p: seq<byte>) returns (k: nat)
      requires Attached()
      modifies this`n, buf
      ensures Attached() && k == if |p| <= CAPACITY - old(n) then |p| else CAPACITY - old(n)
      ensures View() == old(View()).(buf := old(View()).buf + p[..k])
    {
      k := if |p| <= Available() then |p| else Available();
      forall i | 0 <= i < k {
        buf[n + i] := p[i];
      }
      n := n + k;
      assert buf[..n] == old(buf[..n]) + p[..k];
    }

    method Flush() returns (e: Option<string>)
      requires Attached()
      modifies this`n, this`err, wr.nc
      ensures Attached() && e == err
      ensures View() == Flushed(old(View()), wr.subject, wr.Done(), wr.nc.verdict)
    {
      if err.Some? {
        return err;
      }
      if n == 0 {
        return None;
      }
      var k, failure := wr.Write(buf[..n]);
      n := n - k;
      err := failure;
      e := failure;
    }

    // A buffer filled to the brim from p, and flushed.
    method FillAndFlush(p: seq<byte>) returns (k: nat)
      requires Attached() && !wr.final && err.None? && |p| > CAPACITY - n
      modifies this`n, this`err, buf, wr.nc
      ensures Attached() && k == CAPACITY - old(n) && n == 0
      ensures View() == Emit(old(View()).(buf := []), wr.subject, old(View()).buf + p[..k], None, wr.nc.verdict)
    {
      ghost var before := View();
      k := Fill(p);
      assert View() == before.(buf := before.buf + p[..k]);
      var _ := Flush();
    }

    method Write(p: seq<byte>) returns (nn: nat, e: Option<string>)
      requires Attached() && !wr.final
      modifies this`n, this`err, buf, wr.nc
      ensures Attached() && e == err
      ensures View() == Put(old(View()), wr.subject, Op(Slice, p), wr.nc.verdict)
      ensures e.None? ==> nn == |p|
    {
      var rest := p;
      nn := 0;
      while |rest| > Available() && err.None?
        invariant Attached() && nn + |rest| == |p|
        invariant Put(View(), wr.subject, Op(Slice, rest), wr.nc.verdict)
               == Put(old(View()), wr.subject, Op(Slice, p), wr.nc.verdict)
        decreases |rest|, n, err.None?
      {
        ghost var before := View();
        PutOverflowing(before, wr.subject, Op(Slice, rest), wr.nc.verdict);
        var k: nat;
        if n == 0 {
          k, err := wr.Write(rest);
          assert View() == Emit(before, wr.subject, rest, None, wr.nc.verdict);
          PutNothing(View(), wr.subject, Slice, wr.nc.verdict);
        } else {
          k := FillAndFlush(rest);
        }
        nn := nn + k;
        rest := rest[k..];
      }
      if err.Some? {
        return nn, err;
      }
      var k := Fill(rest);
      assert rest[..k] == rest;
      return nn + k, None;
    }

    // As Write, but never past the buffer: the sink takes no strings.
    method WriteString(p: seq<byte>) returns (nn: nat, e: Option<string>)
      requires Attached() && !wr.final
      modifies this`n, this`err, buf, wr.nc
      ensures Attached() && e == err
      ensures View() == Put(old(View()), wr.subject, Op(Text, p), wr.nc.verdict)
      ensures e.None? ==> nn == |p|
    {
      var rest := p;
      nn := 0;
      while |rest| > Available() && err.None?
        invariant Attached() && nn + |rest| == |p|
        invariant Put(View(), wr.subject, Op(Text, rest), wr.nc.verdict)
               == Put(old(View()), wr.subject, Op(Text, p), wr.nc.verdict)
        decreases |rest|, n
      {
        PutOverflowing(View(), wr.subject, Op(Text, rest), wr.nc.verdict);
        var k := FillAndFlush(rest);
        nn := nn + k;
        rest := rest[k..];
      }
      if err.Some? {
        return nn, err;
      }
      var k := Fill(rest);
      assert rest[..k] == rest;
      return nn + k, None;
    }

    // What ReadFrom does when the buffer is full, before it reads on and once more at its end.
    method FlushWhenFull(ghost rest: seq<byte>) returns (e: Option<string>)
      requires Attached() && !wr.final && err.None?
      modifies this`n, this`err, wr.nc
      ensures Attached() && e == err && (e.None? ==> n < CAPACITY)
      ensures Put(View(), wr.subject, Op(Stream, rest), wr.nc.verdict)
           == Put(old(View()), wr.subject, Op(Stream, rest), wr.nc.verdict)
    {
      e := None;
      if Available() == 0 {
        PutWhenFull(View(), wr.subject, rest, wr.nc.verdict);
        e := Flush();
      }
    }

    // One chunk of the source, of whatever size it gives.
    method ReadChunk(rest: seq<byte>) returns (k: nat)
      requires Attached() && err.None? && n < CAPACITY && rest != []
      modifies this`n, buf
      ensures Attached() && 1 <= k <= |rest|
      ensures Put(View(), wr.subject, Op(Stream, rest[k..]), wr.nc.verdict)
           == Put(old(View()), wr.subject, Op(Stream, rest), wr.nc.verdict)
    {
      k :| 1 <= k <= |rest| && k <= CAPACITY - n;
      assert rest[..k] + rest[k..] == rest;
      PutInChunks(View(), wr.subject, rest[..k], rest[k..], wr.nc.verdict);
      var taken := Fill(rest[..k]);
      assert rest[..k][..taken] == rest[..k];
    }

    // Reads its source straight into the buffer, in chunks of whatever size the source gives; the end of
    // the source may come along with its last bytes or after them.
    method ReadFrom(source: seq<byte>) returns (nn: nat, e: Option<string>)
      requires Attached() && !wr.final
      modifies this`n, this`err, buf, wr.nc
      ensures Attached() && e == err
      ensures View() == Put(old(View()), wr.subject, Op(Stream, source), wr.nc.verdict)
      ensures e.None? ==> nn == |source|
    {
      nn := 0;
      if err.Some? {
        return nn, err;
      }
      var rest := source;
      while true
        invariant Attached() && err.None? && nn + |rest| == |source|
        invariant Put(View(), wr.subject, Op(Stream, rest), wr.nc.verdict)
               == Put(old(View()), wr.subject, Op(Stream, source), wr.nc.verdict)
        decreases |rest|
      {
        e := FlushWhenFull(rest);
        if e.Some? {
          return;
        }
        if rest == [] {
          break;
        }
        var k := ReadChunk(rest);
        nn := nn + k;
        rest := rest[k..];
        var lastBytesWithEOF: bool := *;
        if lastBytesWithEOF && rest == [] {
          break;
        }
      }
      e := FlushWhenFull([]);
      assert View().buf + [] == View().buf;
    }
  }
}
