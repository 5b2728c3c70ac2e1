// One handled request at the edge, as a small-step machine: each step makes at most one publish
// attempt. The response is written through an 8 KB buffer into one message per sink write; the
// last message carries the Done header.
module EdgeWorker {
  import opened Prelude
  import opened Wire

  const CAPACITY: nat := 8192

  type Buffered = s: seq<byte> | |s| <= CAPACITY

  // How a piece enters the buffered writer: Write, WriteString, or ReadFrom.
  datatype Mode = Slice | Text | Stream

  datatype Op = Op(mode: Mode, bytes: seq<byte>)

  // What resp.Write does to its writer: the pieces it emits and, when producing them fails for a
  // reason of its own (say the body cannot be read), the text of that error.
  datatype Response = Response(ops: seq<Op>, fault: Option<string>)

  // A request to respond to: where to, and with what.
  datatype Job = Job(reply: string, resp: Response)

  // The serialised response.
  function Whole(ops: seq<Op>): seq<byte> {
    if ops == [] then [] else ops[0].bytes + Whole(ops[1..])
  }

  datatype Verdict = Accepted | Refused(text: string)

  // Complete: the final message was published. Reported: an error message was. Silent: the last
  // publish was refused, which is only logged.
  datatype Ending = Complete | Reported(text: string) | Silent

  datatype Phase = Writing | Failed(text: string) | Ended(how: Ending)

  datatype Worker = Worker(
    reply: string,
    resp: Response,
    ops: seq<Op>,        // pieces not yet buffered, the first one possibly in part
    buf: Buffered,       // bytes buffered and not yet sent
    phase: Phase,
    attempts: nat,       // publish attempts so far on the connection
    log: seq<Message>    // messages published
  )

  function Start(reply: string, resp: Response, attempts: nat): Worker {
    Worker(reply, resp, resp.ops, [], Writing, attempts, [])
  }

  // Whether adding the piece makes the writer send. ReadFrom also sends on becoming exactly full.
  predicate Overflows(mode: Mode, buffered: nat, piece: nat) {
    if mode == Stream then buffered + piece >= CAPACITY else buffered + piece > CAPACITY
  }

  // natsWriter.Write before the end: a refusal sticks in the buffered writer and ends resp.Write.
  function Send(w: Worker, data: seq<byte>, v: Verdict): Worker {
    match v
    case Accepted => w.(attempts := w.attempts + 1, log := w.log + [Message(data, None)])
    case Refused(text) => w.(attempts := w.attempts + 1, phase := Failed(text))
  }

  // natsWriter.WriteError.
  function Report(w: Worker, text: string, v: Verdict): Worker {
    match v
    case Accepted =>
      w.(attempts := w.attempts + 1,
         log := w.log + [Message([], Some(HeaderValue(text)))],
         phase := Ended(Reported(text)))
    case Refused(_) => w.(attempts := w.attempts + 1, phase := Ended(Silent))
  }

  // The last flush, or an empty message when nothing is buffered: either way the data is the buffer.
  function Finish(w: Worker, v: Verdict): Worker {
    match v
    case Accepted =>
      w.(attempts := w.attempts + 1,
         log := w.log + [Message(w.buf, Some(HeaderValue("")))],
         buf := [],
         phase := Ended(Complete))
    case Refused(_) => w.(attempts := w.attempts + 1, buf := [], phase := Ended(Silent))
  }

  function Tick(w: Worker, v: Verdict): Worker {
    match w.phase
    case Ended(_) => w
    case Failed(text) => Report(w, text, v)
    case Writing =>
      if w.ops == [] then
        match w.resp.fault
        case Some(text) => Report(w, text, v)
        case None => Finish(w, v)
      else
        var op, rest := w.ops[0], w.ops[1..];
        if !Overflows(op.mode, |w.buf|, |op.bytes|) then
          w.(buf := w.buf + op.bytes, ops := rest)
        else if op.mode == Slice && w.buf == [] then
          Send(w.(ops := rest), op.bytes, v)
        else
          var room := CAPACITY - |w.buf|;
          Send(w.(buf := [], ops := [Op(op.mode, op.bytes[room..])] + rest), w.buf + op.bytes[..room], v)
  }

  // ---------------------------------------------------------------------------------------------
  // What every step keeps.

  predicate NoDone(ms: seq<Message>) {
    forall i :: 0 <= i < |ms| ==> ms[i].done.None?
  }

  // Exactly one message is final, and it is the last one.
  predicate OneDoneLast(ms: seq<Message>) {
    ms != [] && ms[|ms| - 1].done.Some? && NoDone(ms[..|ms| - 1])
  }

  ghost predicate Sound(w: Worker) {
    var whole := Whole(w.resp.ops);
    && Payload(w.log) <= whole
    && match w.phase
       case Writing => NoDone(w.log) && Payload(w.log) + w.buf + Whole(w.ops) == whole
       case Failed(_) => NoDone(w.log)
       case Ended(Complete) =>
         OneDoneLast(w.log) && w.log[|w.log| - 1].done == Some("") && Payload(w.log) == whole && w.resp.fault.None?
       case Ended(Reported(text)) =>
         OneDoneLast(w.log) && w.log[|w.log| - 1] == Message([], Some(HeaderValue(text)))
       case Ended(Silent) => NoDone(w.log)
  }

  lemma StartSound(reply: string, resp: Response, attempts: nat)
    ensures Sound(Start(reply, resp, attempts))
  {
    assert [] + [] + Whole(resp.ops) == Whole(resp.ops);
  }

  lemma SendSound(w: Worker, data: seq<byte>, rest: seq<Op>, v: Verdict)
    requires w.phase.Writing? && NoDone(w.log) && w.ops == rest
    requires Payload(w.log) + data + w.buf + Whole(rest) == Whole(w.resp.ops)
    ensures Sound(Send(w, data, v))
  {
    Prefixes(Payload(w.log), data, w.buf, Whole(rest));
    if v.Accepted? {
      var m := Message(data, None);
      PayloadAppend(w.log, m);
      assert Send(w, data, v).log == w.log + [m];
      assert NoDone(w.log + [m]);
    }
  }

  lemma Prefixes(a: seq<byte>, b: seq<byte>, c: seq<byte>, d: seq<byte>)
    ensures a <= a + b + c + d && a + b <= a + b + c + d
  {
  }

  lemma SplitPiece(op: Op, room: nat, rest: seq<Op>)
    requires room <= |op.bytes|
    ensures Whole([op] + rest) == op.bytes[..room] + Whole([Op(op.mode, op.bytes[room..])] + rest)
  {
    var tail := Op(op.mode, op.bytes[room..]);
    assert ([op] + rest)[1..] == rest && ([tail] + rest)[1..] == rest;
    assert op.bytes == op.bytes[..room] + tail.bytes;
  }

  lemma ReportSound(w: Worker, text: string, v: Verdict)
    requires NoDone(w.log) && Payload(w.log) <= Whole(w.resp.ops)
    ensures Sound(Report(w, text, v))
  {
    var m := Message([], Some(HeaderValue(text)));
    PayloadAppend(w.log, m);
    assert (w.log + [m])[..|w.log|] == w.log;
  }

  lemma FinishSound(w: Worker, v: Verdict)
    requires Sound(w) && w.phase.Writing? && w.ops == [] && w.resp.fault.None?
    ensures Sound(Finish(w, v))
  {
    var m := Message(w.buf, Some(HeaderValue("")));
    PayloadAppend(w.log, m);
    assert (w.log + [m])[..|w.log|] == w.log;
    assert Payload(w.log) + w.buf + Whole(w.ops) == Payload(w.log) + w.buf;
  }

  lemma PieceSound(w: Worker, op: Op, rest: seq<Op>, v: Verdict)
    requires Sound(w) && w.phase.Writing? && w.ops == [op] + rest
    ensures Sound(Tick(w, v))
  {
    var whole := Whole(w.resp.ops);
    assert w.ops[1..] == rest;
    if !Overflows(op.mode, |w.buf|, |op.bytes|) {
      assert Payload(w.log) + (w.buf + op.bytes) + Whole(rest) == whole;
    } else if op.mode == Slice && w.buf == [] {
      assert Payload(w.log) + op.bytes + [] + Whole(rest) == whole;
      SendSound(w.(ops := rest), op.bytes, rest, v);
    } else {
      var room := CAPACITY - |w.buf|;
      var ops := [Op(op.mode, op.bytes[room..])] + rest;
      SplitPiece(op, room, rest);
      assert Payload(w.log) + (w.buf + op.bytes[..room]) + [] + Whole(ops) == whole;
      SendSound(w.(buf := [], ops := ops), w.buf + op.bytes[..room], ops, v);
    }
  }

  // Every step keeps the published bytes a prefix of the response, whatever is refused.
  lemma TickSound(w: Worker, v: Verdict)
    requires Sound(w)
    ensures Sound(Tick(w, v))
  {
    match w.phase {
      case Ended(_) =>
      case Failed(text) => ReportSound(w, text, v);
      case Writing =>
        if w.ops != [] {
          assert w.ops == [w.ops[0]] + w.ops[1..];
          PieceSound(w, w.ops[0], w.ops[1..], v);
        } else if w.resp.fault.Some? {
          ReportSound(w, w.resp.fault.value, v);
        } else {
          FinishSound(w, v);
        }
    }
  }

  // The log only grows, and the addressee never changes.
  lemma TickGrows(w: Worker, v: Verdict)
    ensures Tick(w, v).reply == w.reply && Tick(w, v).resp == w.resp
    ensures w.log <= Tick(w, v).log && |Tick(w, v).log| <= |w.log| + 1
  {
  }

  // ---------------------------------------------------------------------------------------------
  // Whole runs.

  function Rank(p: Phase): nat {
    match p
    case Writing => 2
    case Failed(_) => 1
    case Ended(_) => 0
  }

  function HeadSize(ops: seq<Op>): nat {
    if ops == [] then 0 else |ops[0].bytes|
  }

  // The worker run to its end, the k-th publish attempt on the connection answered by v(k).
  function Run(w: Worker, v: nat -> Verdict): Worker
    decreases Rank(w.phase), |w.ops|, HeadSize(w.ops), |w.buf|
  {
    if w.phase.Ended? then w else Run(Tick(w, v(w.attempts)), v)
  }

  lemma {:induction false} RunSound(w: Worker, v: nat -> Verdict)
    requires Sound(w)
    ensures Sound(Run(w, v)) && Run(w, v).phase.Ended?
    ensures Run(w, v).resp == w.resp && Run(w, v).reply == w.reply
    ensures w.log <= Run(w, v).log
    decreases Rank(w.phase), |w.ops|, HeadSize(w.ops), |w.buf|
  {
    if !w.phase.Ended? {
      var next := Tick(w, v(w.attempts));
      TickSound(w, v(w.attempts));
      TickGrows(w, v(w.attempts));
      RunSound(next, v);
      PrefixTransitive(w.log, next.log, Run(w, v).log);
    }
  }

  // How the verdicts decide the ending e of a run from w.
  ghost predicate Decided(w: Worker, e: Worker, v: nat -> Verdict) {
    && e.phase.Ended?
    && w.attempts < e.attempts
    && (e.phase.how.Silent? <==> v(e.attempts - 1).Refused?)
    && (e.phase.how.Complete? <==>
          w.phase.Writing? && w.resp.fault.None? && forall k :: w.attempts <= k < e.attempts ==> v(k).Accepted?)
    && (w.phase.Failed? ==> e.attempts == w.attempts + 1)
    && (e.phase.how.Reported? ==>
          var text := e.phase.how.text;
          || w.phase == Failed(text)
          || (w.phase.Writing? && w.resp.fault == Some(text)
              && forall k :: w.attempts <= k < e.attempts ==> v(k).Accepted?)
          || (w.attempts <= e.attempts - 2 && v(e.attempts - 2) == Refused(text)))
  }

  lemma {:induction false} RunVerdicts(w: Worker, v: nat -> Verdict)
    requires !w.phase.Ended?
    ensures Decided(w, Run(w, v), v)
    decreases Rank(w.phase), |w.ops|, HeadSize(w.ops), |w.buf|
  {
    var next := Tick(w, v(w.attempts));
    if !next.phase.Ended? {
      RunVerdicts(next, v);
      DecidedBefore(w, Run(next, v), v);
    }
  }

  lemma DecidedBefore(w: Worker, e: Worker, v: nat -> Verdict)
    requires !w.phase.Ended? && Decided(Tick(w, v(w.attempts)), e, v) && !Tick(w, v(w.attempts)).phase.Ended?
    ensures Decided(w, e, v)
  {
    var next := Tick(w, v(w.attempts));
    if next.phase.Failed? {
      assert e.attempts - 2 == w.attempts;
      assert v(w.attempts) == Refused(next.phase.text);
    } else {
      assert forall k :: w.attempts <= k < next.attempts ==> v(k).Accepted?;
    }
  }

  // A response that was begun at some publish attempt and has come to its end e. Whatever was
  // refused: it ends with exactly one final message, and that is the last one, unless the very last
  // publish was refused, and then there is none at all. The ending is the clean one exactly when the
  // response has no fault and every publish was accepted, and then the whole response is published.
  // A reported error is the fault, or the refusal right before the report.
  ghost predicate Framed(e: Worker, attempts: nat, v: nat -> Verdict) {
    && e.phase.Ended?
    && attempts < e.attempts
    && (v(e.attempts - 1).Accepted? ==> OneDoneLast(e.log))
    && (v(e.attempts - 1).Refused? ==> NoDone(e.log))
    && (e.phase.how.Complete? <==>
          e.resp.fault.None? && forall k :: attempts <= k < e.attempts ==> v(k).Accepted?)
    && (e.phase.how.Reported? ==>
          || (e.resp.fault == Some(e.phase.how.text) && forall k :: attempts <= k < e.attempts ==> v(k).Accepted?)
          || (attempts <= e.attempts - 2 && v(e.attempts - 2) == Refused(e.phase.how.text)))
    && Payload(e.log) <= Whole(e.resp.ops)
    && (e.phase.how.Complete? ==> Payload(e.log) == Whole(e.resp.ops))
  }

  lemma DecidedFramed(w: Worker, e: Worker, v: nat -> Verdict)
    requires w.phase.Writing? && Sound(e) && Decided(w, e, v) && e.resp == w.resp
    ensures Framed(e, w.attempts, v)
  {
  }

  lemma RunFramed(w: Worker, v: nat -> Verdict)
    requires Sound(w) && w.phase.Writing?
    ensures Framed(Run(w, v), w.attempts, v)
  {
    RunSound(w, v);
    RunVerdicts(w, v);
    DecidedFramed(w, Run(w, v), v);
  }

  lemma Framing(reply: string, resp: Response, attempts: nat, v: nat -> Verdict)
    ensures Framed(Run(Start(reply, resp, attempts), v), attempts, v)
  {
    StartSound(reply, resp, attempts);
    RunFramed(Start(reply, resp, attempts), v);
  }

  // The worker after some steps, their publish attempts answered by vs.
  function Ticks(w: Worker, vs: seq<Verdict>): Worker {
    if vs == [] then w else Tick(Ticks(w, vs[..|vs| - 1]), vs[|vs| - 1])
  }

  lemma {:induction false} TicksSound(w: Worker, vs: seq<Verdict>)
    requires Sound(w)
    ensures Sound(Ticks(w, vs)) && Ticks(w, vs).resp == w.resp
  {
    if vs != [] {
      var before := Ticks(w, vs[..|vs| - 1]);
      TicksSound(w, vs[..|vs| - 1]);
      TickSound(before, vs[|vs| - 1]);
      TickGrows(before, vs[|vs| - 1]);
    }
  }

  // Without refusals there is no failure: the worker ends as its response does.
  lemma {:induction false} TicksAccepted(w: Worker, vs: seq<Verdict>)
    requires w.phase.Writing? && forall v :: v in vs ==> v.Accepted?
    ensures Ticks(w, vs).resp == w.resp
    ensures Ticks(w, vs).phase
         in {Writing, Ended(if w.resp.fault.Some? then Reported(w.resp.fault.value) else Complete)}
  {
    if vs != [] {
      TicksAccepted(w, vs[..|vs| - 1]);
      TickGrows(Ticks(w, vs[..|vs| - 1]), vs[|vs| - 1]);
    }
  }

  // The buffered writer refines the plain stream. After every step, up to a refused publish or the end:
  // bytes published, then bytes buffered, then the pieces still to come are the whole response. And only
  // a refusal, or the response itself, can stop that.
  lemma WriterRefinesStream(reply: string, resp: Response, vs: seq<Verdict>)
    ensures var w := Ticks(Start(reply, resp, 0), vs);
      && Payload(w.log) <= Whole(resp.ops)
      && (w.phase.Writing? ==> Payload(w.log) + w.buf + Whole(w.ops) == Whole(resp.ops))
      && ((forall v :: v in vs ==> v.Accepted?) ==>
            w.phase in {Writing, Ended(if resp.fault.Some? then Reported(resp.fault.value) else Complete)})
  {
    StartSound(reply, resp, 0);
    TicksSound(Start(reply, resp, 0), vs);
    if forall v :: v in vs ==> v.Accepted? {
      TicksAccepted(Start(reply, resp, 0), vs);
    }
  }

  // The longest piece handed to Write: only those can be sent unbuffered.
  function LongestSlice(ops: seq<Op>): nat {
    if ops == [] then 0
    else
      var rest := LongestSlice(ops[1..]);
      if ops[0].mode == Slice && |ops[0].bytes| > rest then |ops[0].bytes| else rest
  }

  function Limit(ops: seq<Op>): nat {
    if LongestSlice(ops) > CAPACITY then LongestSlice(ops) else CAPACITY
  }

  // A message before the last carries at least a full buffer, and no more than the larger of the
  // buffer and the longest single piece; the last carries at most a buffer.
  ghost predicate WellSized(ms: seq<Message>, limit: nat) {
    forall i :: 0 <= i < |ms| ==>
      if ms[i].done.None? then CAPACITY <= |ms[i].data| <= limit else |ms[i].data| <= CAPACITY
  }

  lemma TickSizes(w: Worker, v: Verdict, limit: nat)
    requires WellSized(w.log, limit) && Limit(w.ops) <= limit
    ensures WellSized(Tick(w, v).log, limit) && Limit(Tick(w, v).ops) <= limit
  {
    if w.phase.Writing? && w.ops != [] {
      var op, rest := w.ops[0], w.ops[1..];
      var tail := Op(op.mode, op.bytes[if CAPACITY - |w.buf| <= |op.bytes| then CAPACITY - |w.buf| else 0..]);
      assert ([tail] + rest)[1..] == rest;
    }
  }

  lemma {:induction false} RunSizes(w: Worker, v: nat -> Verdict, limit: nat)
    requires WellSized(w.log, limit) && Limit(w.ops) <= limit
    ensures WellSized(Run(w, v).log, limit)
    decreases Rank(w.phase), |w.ops|, HeadSize(w.ops), |w.buf|
  {
    if !w.phase.Ended? {
      TickSizes(w, v(w.attempts), limit);
      RunSizes(Tick(w, v(w.attempts)), v, limit);
    }
  }

  lemma MessageSizes(reply: string, resp: Response, attempts: nat, v: nat -> Verdict)
    ensures WellSized(Run(Start(reply, resp, attempts), v).log, Limit(resp.ops))
  {
    RunSizes(Start(reply, resp, attempts), v, Limit(resp.ops));
  }

  // ---------------------------------------------------------------------------------------------
  // One message or more.

  // The pieces stay in a buffer of 8192 bytes: they fit, and if they fill it no ReadFrom is among them.
  predicate StayBuffered(buffered: nat, ops: seq<Op>) {
    || buffered + |Whole(ops)| < 8192
    || (buffered + |Whole(ops)| == 8192 && forall i :: 0 <= i < |ops| ==> ops[i].mode != Stream)
  }

  lemma {:induction false} RunBuffered(w: Worker, v: nat -> Verdict)
    requires w.phase.Writing? && w.resp.fault.None? && v(w.attempts).Accepted? && StayBuffered(|w.buf|, w.ops)
    ensures Run(w, v).log == w.log + [Message(w.buf + Whole(w.ops), Some(""))]
    decreases |w.ops|
  {
    var next := Tick(w, v(w.attempts));
    if w.ops != [] {
      var op, rest := w.ops[0], w.ops[1..];
      assert Whole(w.ops) == op.bytes + Whole(rest);
      assert next == w.(buf := w.buf + op.bytes, ops := rest);
      RunBuffered(next, v);
      assert (w.buf + op.bytes) + Whole(rest) == w.buf + (op.bytes + Whole(rest));
    } else {
      HeaderValueEmpty("");
      assert w.buf + Whole(w.ops) == w.buf;
      assert Run(next, v) == next;
    }
  }

  // A response that stays buffered is published whole as one final message; one of more than 8192 bytes,
  // if it is completed, takes more than one.
  lemma OneMessage(reply: string, resp: Response, attempts: nat, v: nat -> Verdict)
    requires resp.fault.None?
    ensures StayBuffered(0, resp.ops) && v(attempts).Accepted? ==>
      Run(Start(reply, resp, attempts), v).log == [Message(Whole(resp.ops), Some(""))]
    ensures var e := Run(Start(reply, resp, attempts), v);
      |Whole(resp.ops)| > 8192 && e.phase == Ended(Complete) ==> |e.log| > 1 && e.log[0].done.None?
  {
    var start := Start(reply, resp, attempts);
    if StayBuffered(0, resp.ops) && v(attempts).Accepted? {
      RunBuffered(start, v);
      assert [] + Whole(resp.ops) == Whole(resp.ops);
    }
    StartSound(reply, resp, attempts);
    RunSound(start, v);
    MessageSizes(reply, resp, attempts, v);
    var log := Run(start, v).log;
    if |log| == 1 {
      PayloadAppend([], log[0]);
      assert log == [] + [log[0]];
    }
  }
}
