// The request handler: a pooled writer is reset onto the reply subject, the response is written
// through it, and the end is framed. The handler publishes exactly what the small-step worker does.
module EdgeHandler {
  import opened Prelude
  import opened Wire
  import opened EdgeWorker
  import opened BufferedWriter

  // ---------------------------------------------------------------------------------------------
  // The buffered writer does what the worker's steps do.

  // s is the buffered writer of worker w, on a connection that held base when the worker began.
  ghost predicate Carries(s: Sink, w: Worker, base: seq<Packet>) {
    && s.attempts == w.attempts
    && s.log == base + Addressed(w.reply, w.log)
    && match s.err
       case None => w.phase.Writing? && s.buf == w.buf
       case Some(text) => w.phase == Failed(text)
  }

  lemma AddressedAppend(subject: string, ms: seq<Message>, m: Message)
    ensures Addressed(subject, ms + [m]) == Addressed(subject, ms) + [Packet(subject, m)]
  {
  }

  lemma EmitCarried(s: Sink, w: Worker, base: seq<Packet>, data: seq<byte>, v: nat -> Verdict)
    requires Carries(s, w, base) && w.phase.Writing?
    ensures Carries(Emit(s, w.reply, data, None, v), Send(w, data, v(w.attempts)), base)
  {
    AddressedAppend(w.reply, w.log, Message(data, None));
  }

  // A whole piece takes the worker to the next piece, or to a failure, along its own run.
  lemma {:induction false} PutCarried(s: Sink, w: Worker, base: seq<Packet>, op: Op, rest: seq<Op>, v: nat -> Verdict)
    returns (w': Worker)
    requires Carries(s, w, base) && w.phase.Writing? && w.ops == [op] + rest
    ensures Carries(Put(s, w.reply, op, v), w', base)
    ensures w'.phase.Writing? ==> w'.ops == rest
    ensures w'.reply == w.reply && w'.resp == w.resp
    ensures Run(w', v) == Run(w, v)
    decreases |op.bytes|, |s.buf|
  {
    assert w.ops[0] == op && w.ops[1..] == rest;
    w' := Tick(w, v(w.attempts));
    assert Run(w', v) == Run(w, v);
    if !Overflows(op.mode, |s.buf|, |op.bytes|) {
    } else if op.mode == Slice && s.buf == [] {
      EmitCarried(s, w.(ops := rest), base, op.bytes, v);
    } else {
      var room := CAPACITY - |s.buf|;
      var tail := Op(op.mode, op.bytes[room..]);
      var w1 := w.(buf := [], ops := [tail] + rest);
      EmitCarried(s.(buf := []), w1, base, s.buf + op.bytes[..room], v);
      var s' := Emit(s.(buf := []), w.reply, s.buf + op.bytes[..room], None, v);
      assert w' == Send(w1, s.buf + op.bytes[..room], v(w.attempts));
      if s'.err.None? {
        w' := PutCarried(s', w', base, tail, rest, v);
      }
    }
  }

  // ---------------------------------------------------------------------------------------------
  // The pool of writers.

  class WriterPool {
    var free: seq<BufioWriter>
    ghost var Repr: set<object>

    ghost predicate Valid()
      reads this, Repr
    {
      && this in Repr
      && (forall i :: 0 <= i < |free| ==> free[i] in Repr && free[i].buf in Repr && free[i].Valid())
      && (forall i, j :: 0 <= i < j < |free| ==> free[i] != free[j])
    }

    constructor ()
      ensures Valid() && fresh(Repr) && free == []
    {
      free, Repr := [], {this};
    }

    // Any free writer, in whatever state it was put back, or a new one; never one that is in use.
    method Get() returns (w: BufioWriter)
      requires Valid()
      modifies this
      ensures Valid() && fresh(Repr - old(Repr))
      ensures w.Valid() && w in Repr && w.buf in Repr && (w in old(free) || fresh(w))
      ensures forall x :: x in free <==> x in old(free) && x != w
    {
      var reuse: bool := *;
      if reuse && |free| > 0 {
        var i: nat :| i < |free|;
        w := free[i];
        assert forall x :: x in free <==> x in free[..i] + free[i + 1..] || x == w;
        free := free[..i] + free[i + 1..];
      } else {
        w := new BufioWriter();
        Repr := Repr + {w, w.buf};
      }
    }

    method Put(w: BufioWriter)
      requires Valid() && w.Valid() && w !in free && w in Repr && w.buf in Repr
      modifies this`free
      ensures Valid() && free == old(free) + [w]
    {
      free := free + [w];
    }
  }

  // resp.Write: the pieces in order, ended by the first write error, or by the response's own fault.
  method WriteResponse(w: BufioWriter, resp: Response, ghost base: seq<Packet>, ghost start: Worker)
    returns (err: Option<string>, ghost end: Worker)
    requires w.Attached() && !w.wr.final
    requires Carries(w.View(), start, base) && start.reply == w.wr.subject
    requires start.phase.Writing? && start.ops == resp.ops && start.resp == resp
    modifies w`n, w`err, w.buf, w.wr.nc
    ensures w.Attached()
    ensures Carries(w.View(), end, base) && end.reply == start.reply && end.resp == resp
    ensures Run(end, w.wr.nc.verdict) == Run(start, w.wr.nc.verdict)
    ensures err == if end.phase.Failed? then Some(end.phase.text) else resp.fault
    ensures end.phase.Writing? ==> end.ops == []
  {
    ghost var v := w.wr.nc.verdict;
    end := start;
    for i := 0 to |resp.ops|
      invariant w.Attached() && !w.wr.final && w.wr == old(w.wr)
      invariant Carries(w.View(), end, base) && end.reply == start.reply && end.resp == resp
      invariant Run(end, v) == Run(start, v)
      invariant end.phase.Writing? && end.ops == resp.ops[i..]
    {
      var op := resp.ops[i];
      ghost var rest := resp.ops[i + 1..];
      assert end.ops == [op] + rest;
      ghost var next := PutCarried(w.View(), end, base, op, rest, v);
      end := next;
      match op.mode {
        case Slice => var _, e := w.Write(op.bytes); err := e;
        case Text => var _, e := w.WriteString(op.bytes); err := e;
        case Stream => var _, e := w.ReadFrom(op.bytes); err := e;
      }
      if err.Some? {
        return;
      }
    }
    err := resp.fault;
  }

  // The last message: an error, the last flush, or an empty one when nothing is buffered.
  method Frame(w: BufioWriter, err: Option<string>, ghost base: seq<Packet>, ghost end: Worker)
    requires w.Attached() && w.wr.final
    requires Carries(w.View(), end, base) && end.reply == w.wr.subject
    requires end.phase.Writing? ==> end.ops == []
    requires err == if end.phase.Failed? then Some(end.phase.text) else end.resp.fault
    modifies w`n, w`err, w.wr.nc
    ensures w.Attached()
    ensures var e := Run(end, w.wr.nc.verdict);
      w.wr.nc.attempts == e.attempts && w.wr.nc.log == base + Addressed(end.reply, e.log)
  {
    ghost var v := w.wr.nc.verdict;
    ghost var last := Tick(end, v(end.attempts));
    assert Run(end, v) == last by {
      assert last.phase.Ended?;
      assert Run(last, v) == last;
    }
    if err.Some? {
      AddressedAppend(end.reply, end.log, Message([], Some(HeaderValue(err.value))));
      var _, _ := w.wr.WriteError(err);
    } else {
      AddressedAppend(end.reply, end.log, Message(end.buf, Some(HeaderValue(""))));
      if w.n > 0 {
        assert w.buf[..w.n] == end.buf;
        var _ := w.Flush();
      } else {
        assert end.buf == [];
        var _, _ := w.wr.Write([]);
      }
    }
  }

  // One response through a writer in any state: bytes and error of earlier responses play no part.
  method Respond(w: BufioWriter, nc: Connection, reply: string, resp: Response)
    requires w.Valid()
    modifies w, w.buf, nc
    ensures w.Valid()
    ensures var e := Run(Start(reply, resp, old(nc.attempts)), nc.verdict);
      nc.attempts == e.attempts && nc.log == old(nc.log) + Addressed(reply, e.log)
  {
    ghost var base := nc.log;
    ghost var start := Start(reply, resp, nc.attempts);
    assert base + Addressed(reply, []) == base;
    var ncw := new NatsWriter(nc, reply);
    w.Reset(ncw);
    var err, end := WriteResponse(w, resp, base, start);
    ncw.final := true;
    Frame(w, err, base, end);
  }

  // The handler of one request, with its reply subject and the response it gets. Whatever the pooled
  // writer held before, this request's packets are those of a fresh worker.
  method Handle(nc: Connection, pool: WriterPool, reply: string, resp: Response)
    requires pool.Valid()
    modifies nc, pool.Repr
    ensures pool.Valid() && fresh(pool.Repr - old(pool.Repr))
    ensures var e := Run(Start(reply, resp, old(nc.attempts)), nc.verdict);
      nc.attempts == e.attempts && nc.log == old(nc.log) + Addressed(reply, e.log)
  {
    var w := pool.Get();
    Respond(w, nc, reply, resp);
    pool.Put(w);
  }

  // ---------------------------------------------------------------------------------------------
  // Any number of requests, one after the other, through the same pool.

  function Attempts(ws: seq<Worker>, attempts: nat): nat {
    if ws == [] then attempts else ws[|ws| - 1].attempts
  }

  function Serve(jobs: seq<Job>, attempts: nat, v: nat -> Verdict): (ws: seq<Worker>)
    ensures |ws| == |jobs|
  {
    if jobs == [] then []
    else
      var before := Serve(jobs[..|jobs| - 1], attempts, v);
      var last := jobs[|jobs| - 1];
      before + [Run(Start(last.reply, last.resp, Attempts(before, attempts)), v)]
  }

  function AllPackets(ws: seq<Worker>): seq<Packet> {
    if ws == [] then [] else AllPackets(ws[..|ws| - 1]) + Addressed(ws[|ws| - 1].reply, ws[|ws| - 1].log)
  }

  lemma ServeAppend(jobs: seq<Job>, job: Job, attempts: nat, v: nat -> Verdict)
    ensures var before := Serve(jobs, attempts, v);
      var w := Run(Start(job.reply, job.resp, Attempts(before, attempts)), v);
      && Serve(jobs + [job], attempts, v) == before + [w]
      && AllPackets(before + [w]) == AllPackets(before) + Addressed(w.reply, w.log)
      && w.reply == job.reply
  {
    var before := Serve(jobs, attempts, v);
    var start := Start(job.reply, job.resp, Attempts(before, attempts));
    StartSound(job.reply, job.resp, Attempts(before, attempts));
    RunSound(start, v);
    assert (jobs + [job])[..|jobs|] == jobs;
    assert (before + [Run(start, v)])[..|jobs|] == before;
  }

  // The connection holds base, then what serving the jobs published.
  ghost predicate Served(nc: Connection, base: seq<Packet>, attempts: nat, jobs: seq<Job>)
    reads nc
  {
    var ws := Serve(jobs, attempts, nc.verdict);
    nc.log == base + AllPackets(ws) && nc.attempts == Attempts(ws, attempts)
  }

  lemma ServedAppend(base: seq<Packet>, jobs: seq<Job>, job: Job, attempts: nat, v: nat -> Verdict)
    ensures var ws, ws' := Serve(jobs, attempts, v), Serve(jobs + [job], attempts, v);
      var w := Run(Start(job.reply, job.resp, Attempts(ws, attempts)), v);
      && base + AllPackets(ws') == (base + AllPackets(ws)) + Addressed(job.reply, w.log)
      && Attempts(ws', attempts) == w.attempts
  {
    ServeAppend(jobs, job, attempts, v);
  }

  method HandleNext(nc: Connection, pool: WriterPool, job: Job, ghost base: seq<Packet>, ghost attempts: nat,
                    ghost jobs: seq<Job>)
    requires pool.Valid() && Served(nc, base, attempts, jobs)
    modifies nc, pool.Repr
    ensures pool.Valid() && fresh(pool.Repr - old(pool.Repr))
    ensures Served(nc, base, attempts, jobs + [job])
  {
    ServedAppend(base, jobs, job, attempts, nc.verdict);
    Handle(nc, pool, job.reply, job.resp);
  }

  method HandleAll(nc: Connection, pool: WriterPool, jobs: seq<Job>)
    requires pool.Valid()
    modifies nc, pool.Repr
    ensures pool.Valid() && fresh(pool.Repr - old(pool.Repr))
    ensures Served(nc, old(nc.log), old(nc.attempts), jobs)
  {
    ghost var base, attempts := nc.log, nc.attempts;
    assert base + AllPackets([]) == base;
    for i := 0 to |jobs|
      invariant pool.Valid() && fresh(pool.Repr - old(pool.Repr))
      invariant Served(nc, base, attempts, jobs[..i])
    {
      HandleNext(nc, pool, jobs[i], base, attempts, jobs[..i]);
      assert jobs[..i + 1] == jobs[..i] + [jobs[i]];
    }
    assert jobs[..|jobs|] == jobs;
  }

  lemma {:induction false} ServeEach(jobs: seq<Job>, attempts: nat, v: nat -> Verdict, i: nat)
    returns (from: nat)
    requires i < |jobs|
    ensures Serve(jobs, attempts, v)[i] == Run(Start(jobs[i].reply, jobs[i].resp, from), v)
  {
    var before := Serve(jobs[..|jobs| - 1], attempts, v);
    if i == |jobs| - 1 {
      from := Attempts(before, attempts);
    } else {
      from := ServeEach(jobs[..|jobs| - 1], attempts, v, i);
    }
  }

  lemma {:induction false} PacketsOf(ws: seq<Worker>, i: nat)
    requires i < |ws|
    requires forall j, k :: 0 <= j < k < |ws| ==> ws[j].reply != ws[k].reply
    ensures OnSubject(AllPackets(ws), ws[i].reply) == ws[i].log
  {
    var before, last := ws[..|ws| - 1], ws[|ws| - 1];
    OnSubjectConcat(AllPackets(before), Addressed(last.reply, last.log), ws[i].reply);
    OnSubjectAddressed(last.reply, ws[i].reply, last.log);
    if i == |ws| - 1 {
      NoPacketsOf(before, ws[i].reply);
    } else {
      PacketsOf(before, i);
    }
  }

  lemma {:induction false} NoPacketsOf(ws: seq<Worker>, subject: string)
    requires forall j :: 0 <= j < |ws| ==> ws[j].reply != subject
    ensures OnSubject(AllPackets(ws), subject) == []
  {
    if ws != [] {
      var before, last := ws[..|ws| - 1], ws[|ws| - 1];
      OnSubjectConcat(AllPackets(before), Addressed(last.reply, last.log), subject);
      OnSubjectAddressed(last.reply, subject, last.log);
      NoPacketsOf(before, subject);
    }
  }

  // Reuse is invisible: on each reply subject there is one well framed response, its own, however
  // many responses went through the same writers before it and however they ended.
  lemma ReuseIsolated(jobs: seq<Job>, attempts: nat, v: nat -> Verdict, i: nat) returns (from: nat, e: Worker)
    requires i < |jobs|
    requires forall j, k :: 0 <= j < k < |jobs| ==> jobs[j].reply != jobs[k].reply
    ensures OnSubject(AllPackets(Serve(jobs, attempts, v)), jobs[i].reply) == e.log
    ensures e.reply == jobs[i].reply && e.resp == jobs[i].resp && Framed(e, from, v)
  {
    var ws := Serve(jobs, attempts, v);
    forall j | 0 <= j < |jobs|
      ensures ws[j].reply == jobs[j].reply
    {
      var f := ServeEach(jobs, attempts, v, j);
      StartSound(jobs[j].reply, jobs[j].resp, f);
      RunSound(Start(jobs[j].reply, jobs[j].resp, f), v);
    }
    from := ServeEach(jobs, attempts, v, i);
    e := ws[i];
    StartSound(jobs[i].reply, jobs[i].resp, from);
    RunSound(Start(jobs[i].reply, jobs[i].resp, from), v);
    Framing(jobs[i].reply, jobs[i].resp, from, v);
    PacketsOf(ws, i);
  }
}
