// Any number of concurrent request handlers at the edge, through one pool of buffered writers and one
// connection. Each takes a writer in whatever state it is, attaches it to its own reply subject, writes
// its response through it, and puts it back when it is done. Their steps interleave freely.
module HandlerRuns {
  import opened Prelude
  import opened Wire
  import opened EdgeWorker
  import SharedPool

  // A buffered writer, attached to the message writer for one subject.
  datatype Writer = Writer(buf: Buffered, err: Option<string>, subject: string)

  // Taken: the writer is not yet attached. Over: it is back in the pool.
  datatype Stage =
    | Taken
    | Busy(ops: seq<Op>, attempts: nat)
    | Done(worker: Worker)
    | Over(worker: Worker)

  // verdicts: how the steps it has taken were answered.
  datatype Caller = Caller(job: Job, stage: Stage, verdicts: seq<Verdict>)

  datatype State = State(
    pool: SharedPool.State,         // which writers are free, and which handler holds which
    writers: map<nat, Writer>,
    callers: map<nat, Caller>,
    log: seq<Packet>)             // published on the connection

  datatype Label =
    | Begin(call: nat, job: Job, index: nat)
    | Attach(call: nat)
    | Work(call: nat, verdict: Verdict, leftover: Writer)  // leftover: the writer once the response is over
    | PutBack(call: nat)
    | Drop(index: nat)

  const INITIAL: State := State(SharedPool.INITIAL, map[], map[], [])

  // Reply subjects are one handler's own.
  predicate CanStep(s: State, l: Label) {
    match l
    case Begin(c, job, _) =>
      && c !in s.callers
      && (forall d :: d in s.callers ==> s.callers[d].job.reply != job.reply)
      && (forall p :: 0 <= p < |s.log| ==> s.log[p].subject != job.reply)
    case Attach(c) => c in s.callers && s.callers[c].stage.Taken?
    case Work(c, _, _) => c in s.callers && s.callers[c].stage.Busy?
    case PutBack(c) => c in s.callers && s.callers[c].stage.Done?
    case Drop(i) => i < |s.pool.free|
  }

  // A handler at work, as what it finds in the writer it holds and on the connection makes it.
  function AtWork(c: Caller, wr: Writer, onSubject: seq<Message>): Worker
    requires c.stage.Busy?
  {
    Worker(wr.subject, c.job.resp, c.stage.ops, wr.buf,
           if wr.err.Some? then Failed(wr.err.value) else Writing, c.stage.attempts, onSubject)
  }

  ghost predicate Wellformed(s: State) {
    && SharedPool.Exclusive(s.pool) && SharedPool.Made(s.pool)
    && (forall b: nat :: b in s.writers <==> b < s.pool.made)
    && (forall c: nat :: c in s.pool.held <==> c in s.callers && !s.callers[c].stage.Over?)
    && (forall c :: c in s.pool.held ==> s.pool.held[c] in s.writers)
  }

  // A step of the handler: on the writer it holds, whoever used that before, and on that writer's subject.
  ghost function WorkOf(s: State, c: nat, v: Verdict, leftover: Writer): State
    requires Wellformed(s) && CanStep(s, Work(c, v, leftover))
  {
    var caller, b := s.callers[c], s.pool.held[c];
    var wr := s.writers[b];
    var before := AtWork(caller, wr, OnSubject(s.log, wr.subject));
    var after := Tick(before, v);
    var err := if after.phase.Failed? then Some(after.phase.text) else None;
    var next := if after.phase.Ended? then Done(after) else Busy(after.ops, after.attempts);
    State(s.pool,
          s.writers[b := if after.phase.Ended? then leftover else Writer(after.buf, err, wr.subject)],
          s.callers[c := Caller(caller.job, next, caller.verdicts + [v])],
          s.log + Addressed(wr.subject, after.log[|before.log|..]))
  }

  ghost function DoStep(s: State, l: Label): State
    requires Wellformed(s) && CanStep(s, l)
  {
    match l
    case Begin(c, job, index) =>
      s.(pool := SharedPool.DoStep(s.pool, SharedPool.Take(c, index)),
         writers := if index < |s.pool.free| then s.writers else s.writers[s.pool.made := Writer([], None, "")],
         callers := s.callers[c := Caller(job, Taken, [])])
    case Attach(c) =>
      var job := s.callers[c].job;
      s.(writers := s.writers[s.pool.held[c] := Writer([], None, job.reply)],
         callers := s.callers[c := Caller(job, Busy(job.resp.ops, 0), [])])
    case Work(c, v, leftover) => WorkOf(s, c, v, leftover)
    case PutBack(c) =>
      s.(pool := SharedPool.DoStep(s.pool, SharedPool.GiveBack(c)),
         callers := s.callers[c := s.callers[c].(stage := Over(s.callers[c].stage.worker))])
    case Drop(i) => s.(pool := SharedPool.DoStep(s.pool, SharedPool.Drop(i)))
  }

  // ---------------------------------------------------------------------------------------------
  // What every step keeps: each handler is where a worker of its own would be.

  // The worker the handler would be with a writer of its own.
  function Alone(c: Caller): Worker {
    Ticks(Start(c.job.reply, c.job.resp, 0), c.verdicts)
  }

  ghost predicate AsAlone(c: Caller, wr: Writer, onSubject: seq<Message>) {
    match c.stage
    case Taken => c.verdicts == [] && onSubject == []
    case Busy(_, _) => wr.subject == c.job.reply && AtWork(c, wr, onSubject) == Alone(c)
    case Done(w) => w == Alone(c) && w.phase.Ended? && onSubject == w.log
    case Over(_) => false
  }

  ghost predicate AllAlone(s: State)
    requires Wellformed(s)
  {
    && (forall c :: c in s.pool.held ==>
          AsAlone(s.callers[c], s.writers[s.pool.held[c]], OnSubject(s.log, s.callers[c].job.reply)))
    && (forall c :: c in s.callers && s.callers[c].stage.Over? ==>
          var w := s.callers[c].stage.worker;
          w == Alone(s.callers[c]) && w.phase.Ended? && OnSubject(s.log, s.callers[c].job.reply) == w.log)
  }

  ghost predicate OwnReplies(s: State) {
    forall c, d :: c in s.callers && d in s.callers && c != d ==> s.callers[c].job.reply != s.callers[d].job.reply
  }

  ghost predicate Inv(s: State) {
    Wellformed(s) && OwnReplies(s) && AllAlone(s)
  }

  lemma BeginWellformed(s: State, c: nat, job: Job, index: nat)
    requires Wellformed(s) && CanStep(s, Begin(c, job, index))
    ensures Wellformed(DoStep(s, Begin(c, job, index)))
  {
    SharedPool.StepExclusive(s.pool, SharedPool.Take(c, index));
    if index < |s.pool.free| {
      assert s.pool.free[index] < s.pool.made;
    }
  }

  lemma BeginKeeps(s: State, c: nat, job: Job, index: nat)
    requires Inv(s) && CanStep(s, Begin(c, job, index))
    ensures Inv(DoStep(s, Begin(c, job, index)))
  {
    BeginWellformed(s, c, job, index);
    NothingOnSubject(s.log, job.reply);
  }

  lemma AttachKeeps(s: State, c: nat)
    requires Inv(s) && CanStep(s, Attach(c))
    ensures Inv(DoStep(s, Attach(c)))
  {
    var s' := DoStep(s, Attach(c));
    assert AsAlone(s.callers[c], s.writers[s.pool.held[c]], OnSubject(s.log, s.callers[c].job.reply));
    forall d | d in s'.pool.held
      ensures AsAlone(s'.callers[d], s'.writers[s'.pool.held[d]], OnSubject(s'.log, s'.callers[d].job.reply))
    {
      if d != c {
        assert s.pool.held[d] != s.pool.held[c];
      }
    }
  }

  // The step is a step of the worker the handler would be alone, what it publishes goes out on its own reply
  // subject, and nothing is added on any other.
  lemma WorkIsTick(s: State, c: nat, v: Verdict, leftover: Writer)
    requires Inv(s) && CanStep(s, Work(c, v, leftover))
    ensures var s' := WorkOf(s, c, v, leftover);
      var reply, after := s.callers[c].job.reply, Tick(Alone(s.callers[c]), v);
      && Alone(s'.callers[c]) == after
      && AsAlone(s'.callers[c], s'.writers[s.pool.held[c]], OnSubject(s'.log, reply))
      && OnSubject(s.log, reply) == Alone(s.callers[c]).log && OnSubject(s'.log, reply) == after.log
      && forall other :: other != reply ==> OnSubject(s'.log, other) == OnSubject(s.log, other)
  {
    var caller, wr := s.callers[c], s.writers[s.pool.held[c]];
    var reply := caller.job.reply;
    assert AsAlone(caller, wr, OnSubject(s.log, reply));
    var before := Alone(caller);
    var after := Tick(before, v);
    TickGrows(before, v);
    var more := after.log[|before.log|..];
    assert after.log == before.log + more;
    assert (caller.verdicts + [v])[..|caller.verdicts|] == caller.verdicts;
    LogGains(s.log, reply, more);
  }

  lemma LogGains(log: seq<Packet>, reply: string, more: seq<Message>)
    ensures OnSubject(log + Addressed(reply, more), reply) == OnSubject(log, reply) + more
    ensures forall other :: other != reply ==> OnSubject(log + Addressed(reply, more), other) == OnSubject(log, other)
  {
    forall other
      ensures OnSubject(log + Addressed(reply, more), other)
           == OnSubject(log, other) + if other == reply then more else []
    {
      OnSubjectConcat(log, Addressed(reply, more), other);
      OnSubjectAddressed(reply, other, more);
    }
  }

  lemma WorkWellformed(s: State, c: nat, v: Verdict, leftover: Writer)
    requires Wellformed(s) && OwnReplies(s) && CanStep(s, Work(c, v, leftover))
    ensures Wellformed(WorkOf(s, c, v, leftover)) && OwnReplies(WorkOf(s, c, v, leftover))
  {
  }

  lemma WorkKeeps(s: State, c: nat, v: Verdict, leftover: Writer)
    requires Inv(s) && CanStep(s, Work(c, v, leftover))
    ensures Inv(WorkOf(s, c, v, leftover))
  {
    var s' := WorkOf(s, c, v, leftover);
    WorkIsTick(s, c, v, leftover);
    WorkWellformed(s, c, v, leftover);
    forall d | d in s'.pool.held
      ensures AsAlone(s'.callers[d], s'.writers[s'.pool.held[d]], OnSubject(s'.log, s'.callers[d].job.reply))
    {
      if d != c {
        assert s.pool.held[d] != s.pool.held[c];
      }
    }
  }

  lemma PutBackKeeps(s: State, c: nat)
    requires Inv(s) && CanStep(s, PutBack(c))
    ensures Inv(DoStep(s, PutBack(c)))
  {
    var s' := DoStep(s, PutBack(c));
    SharedPool.StepExclusive(s.pool, SharedPool.GiveBack(c));
    assert AsAlone(s.callers[c], s.writers[s.pool.held[c]], OnSubject(s.log, s.callers[c].job.reply));
    assert Wellformed(s');
  }

  lemma StepKeepsInv(s: State, l: Label)
    requires Inv(s) && CanStep(s, l)
    ensures Inv(DoStep(s, l))
  {
    match l {
      case Begin(c, job, index) => BeginKeeps(s, c, job, index);
      case Attach(c) => AttachKeeps(s, c);
      case Work(c, v, leftover) => WorkKeeps(s, c, v, leftover);
      case PutBack(c) => PutBackKeeps(s, c);
      case Drop(i) => SharedPool.StepExclusive(s.pool, SharedPool.Drop(i));
    }
  }

  // The state after a run, if every step of it is possible.
  ghost function After(labels: seq<Label>): (r: Option<State>)
    ensures r.Some? ==> Inv(r.value)
  {
    if labels == [] then Some(INITIAL)
    else
      match After(labels[..|labels| - 1])
      case None => None
      case Some(s) =>
        var l := labels[|labels| - 1];
        if CanStep(s, l) then
          StepKeepsInv(s, l);
          Some(DoStep(s, l))
        else None
  }

  // On the handler's reply subject is exactly what a worker with a writer of its own would have published by
  // then; and a handler that is over has ended its response.
  ghost predicate PublishesAsAlone(s: State, c: nat)
    requires c in s.callers
  {
    var caller := s.callers[c];
    && OnSubject(s.log, caller.job.reply) == Alone(caller).log && Sound(Alone(caller))
    && (caller.stage.Done? || caller.stage.Over? ==> Alone(caller).phase.Ended?)
  }

  // In every run, however handlers interleave and whatever earlier ones left in the writers, that holds of
  // every handler.
  lemma EachAsAlone(labels: seq<Label>)
    ensures After(labels).Some? ==>
      forall c :: c in After(labels).value.callers ==> PublishesAsAlone(After(labels).value, c)
  {
    if After(labels).Some? {
      var s := After(labels).value;
      forall c | c in s.callers
        ensures PublishesAsAlone(s, c)
      {
        InvAsAlone(s, c);
      }
    }
  }

  lemma InvAsAlone(s: State, c: nat)
    requires Inv(s) && c in s.callers
    ensures PublishesAsAlone(s, c)
  {
    var caller := s.callers[c];
    StartSound(caller.job.reply, caller.job.resp, 0);
    TicksSound(Start(caller.job.reply, caller.job.resp, 0), caller.verdicts);
    if c in s.pool.held {
      assert AsAlone(caller, s.writers[s.pool.held[c]], OnSubject(s.log, caller.job.reply));
    }
  }
}
