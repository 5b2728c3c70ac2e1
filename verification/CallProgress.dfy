// Every served call comes to its end: a measure over both sides and all that is in between, that each
// step made for the call uses up, timeouts apart.
module CallProgress {
  import opened Prelude
  import opened Wire
  import opened Subjects
  import opened EdgeWorker
  import opened PumpSteps
  import opened Schedules
  import opened Protocol
  import opened ProtocolSafety
  import opened Tunnel

  // ---------------------------------------------------------------------------------------------
  // The measure.

  // What a worker still has to do. A byte counts twice, for publishing it and for what it costs from then on;
  // six are for the last message, and a full buffer is worth more than the message it makes.
  function WorkerWork(w: Worker): nat {
    match w.phase
    case Ended(_) => 0
    case Failed(_) => 6
    case Writing => |w.ops| + 2 * |Whole(w.ops)| + 2 * |w.buf| + 6
  }

  // A message on the wire is one delivery, and then work for the pump.
  function WireWork(ms: seq<Message>): nat {
    if ms == [] then 0 else 1 + QueueWork([ms[0]]) + WireWork(ms[1..])
  }

  function CallWork(s: State, i: nat, w: nat): nat
    requires i < |s.calls| && w < |s.handlers|
  {
    WorkerWork(s.handlers[w].worker) + WireWork(OnSubject(s.wire, s.calls[i].subject)) + Work(s.calls[i].hub)
  }

  lemma {:induction false} WireWorkConcat(a: seq<Message>, b: seq<Message>)
    ensures WireWork(a + b) == WireWork(a) + WireWork(b)
  {
    if a == [] {
      assert a + b == b;
    } else {
      assert (a + b)[0] == a[0] && (a + b)[1..] == a[1..] + b;
      WireWorkConcat(a[1..], b);
    }
  }

  lemma {:induction false} QueueWorkAppend(q: seq<Message>, m: Message)
    ensures QueueWork(q + [m]) == QueueWork(q) + QueueWork([m])
  {
    if q == [] {
      assert q + [m] == [m];
    } else {
      assert (q + [m])[0] == q[0] && (q + [m])[1..] == q[1..] + [m];
      QueueWorkAppend(q[1..], m);
    }
  }

  lemma OneMessage(m: Message)
    ensures WireWork([m]) == |m.data| + 5
  {
    assert [m][1..] == [] && QueueWork([m]) == |m.data| + 4;
  }

  // The work a worker does is more than the work it makes.
  lemma TickShrinks(w: Worker, v: Verdict)
    requires !w.phase.Ended?
    ensures w.log <= Tick(w, v).log
    ensures WorkerWork(Tick(w, v)) + WireWork(Tick(w, v).log[|w.log|..]) < WorkerWork(w)
  {
    var w' := Tick(w, v);
    TickGrows(w, v);
    if w'.log != w.log {
      var m := w'.log[|w.log|];
      assert w'.log[|w.log|..] == [m];
      OneMessage(m);
    }
    if w.phase.Writing? && w.ops != [] {
      PieceShrinks(w, v);
    }
  }

  lemma PieceShrinks(w: Worker, v: Verdict)
    requires w.phase.Writing? && w.ops != []
    ensures var w' := Tick(w, v);
      WorkerWork(w') + (if w'.log == w.log then 0 else |w'.log[|w.log|].data| + 5) < WorkerWork(w)
  {
    var op, rest := w.ops[0], w.ops[1..];
    assert w.ops == [op] + rest && Whole(w.ops) == op.bytes + Whole(rest);
    if Overflows(op.mode, |w.buf|, |op.bytes|) && !(op.mode == Slice && w.buf == []) {
      var room := CAPACITY - |w.buf|;
      SplitPiece(op, room, rest);
      assert |Whole(w.ops)| == room + |Whole([Op(op.mode, op.bytes[room..])] + rest)|;
    }
  }

  // ---------------------------------------------------------------------------------------------
  // Steps.

  predicate IsTimeout(l: Label, i: nat) {
    l.HubStep? && l.call == i && l.step.Expire?
  }

  // The step moves call i on, or is one of its timeouts: its handler's steps up to the end, deliveries of its
  // messages, and what its loop and reader do.
  predicate IsMove(s: State, l: Label, i: nat, w: nat)
    requires CanStep(s, l) && i < |s.calls| && w < |s.handlers|
  {
    match l
    case EdgeTick(x, _) => x == w && !s.handlers[w].worker.phase.Ended?
    case Deliver(k, _) => s.wire[k].subject == s.calls[i].subject
    case HubStep(j, step) => j == i && (Productive(step) || step.Expire?)
    case _ => false
  }

  lemma EdgeTickWork(s: State, x: nat, v: Verdict, i: nat, w: nat)
    requires Inv(s) && CanStep(s, EdgeTick(x, v)) && Serves(s, i, w)
    ensures var s' := DoStep(s, EdgeTick(x, v));
      if x == w && !s.handlers[w].worker.phase.Ended? then CallWork(s', i, w) < CallWork(s, i, w)
      else CallWork(s', i, w) == CallWork(s, i, w)
  {
    var h, subject := s.handlers[x], s.calls[i].subject;
    var after := Tick(h.worker, v);
    PublishedOnSubject(h, v, subject);
    OnSubjectConcat(s.wire, Published(h, after), subject);
    WireWorkConcat(OnSubject(s.wire, subject), OnSubject(Published(h, after), subject));
    if x != w {
      assert Destination(h) != Destination(s.handlers[w]);
    } else if !h.worker.phase.Ended? {
      TickShrinks(h.worker, v);
      assert after.log[|h.worker.log|..] == Messages(Published(h, after));
    }
  }

  lemma ArrivalWork(c: Call, p: Packet, full: bool)
    requires p.subject == c.subject
    ensures Work(Receive(c, p, full).hub) <= Work(c.hub) + QueueWork([p.msg])
  {
    QueueWorkAppend(c.hub.queue, p.msg);
  }

  lemma DeliverWork(s: State, k: nat, full: bool, i: nat, w: nat)
    requires Inv(s) && CanStep(s, Deliver(k, full)) && Serves(s, i, w)
    ensures var s' := DoStep(s, Deliver(k, full));
      if s.wire[k].subject == s.calls[i].subject then CallWork(s', i, w) < CallWork(s, i, w)
      else CallWork(s', i, w) == CallWork(s, i, w)
  {
    var s', c, p := DoStep(s, Deliver(k, full)), s.calls[i], s.wire[k];
    OnSubjectWithout(s.wire, k, c.subject);
    if p.subject == c.subject {
      WireWorkConcat([p.msg], OnSubject(s'.wire, c.subject));
      assert [p.msg][1..] == [];
      ArrivalWork(c, p, full);
    } else {
      assert [] + OnSubject(s'.wire, c.subject) == OnSubject(s'.wire, c.subject);
    }
  }

  lemma HubStepWork(h: Hub, step: Step)
    requires Enabled(h, step) && !step.Arrive? && !step.Overflow?
    ensures Work(Apply(h, step)) <= Work(h) + if step.Expire? then 1 else 0
    ensures Productive(step) ==> Work(Apply(h, step)) < Work(h)
  {
    if Productive(step) {
      ProductiveStepsShrink(h, step);
    }
  }

  // Whatever else the tunnel does, it makes no work for the call.
  lemma StepWork(s: State, l: Label, i: nat, w: nat)
    requires Inv(s) && CanStep(s, l) && Serves(s, i, w)
    ensures Serves(DoStep(s, l), i, w)
    ensures CallWork(DoStep(s, l), i, w) + (if IsMove(s, l, i, w) then 1 else 0)
         <= CallWork(s, i, w) + (if IsTimeout(l, i) then 2 else 0)
  {
    StepKeepsServing(s, l, i, w);
    match l {
      case EdgeTick(x, v) => EdgeTickWork(s, x, v, i, w);
      case Deliver(k, full) => DeliverWork(s, k, full, i, w);
      case HubStep(j, step) => if j == i { HubStepWork(s.calls[i].hub, step); }
      case _ =>
    }
  }

  // ---------------------------------------------------------------------------------------------
  // Progress.

  lemma {:induction false} FirstOnSubject(ps: seq<Packet>, subject: string) returns (k: nat)
    requires OnSubject(ps, subject) != []
    ensures k < |ps| && ps[k].subject == subject && forall j :: 0 <= j < k ==> ps[j].subject != subject
  {
    if ps[0].subject == subject {
      k := 0;
    } else {
      k := FirstOnSubject(ps[1..], subject);
      k := k + 1;
    }
  }

  // While the call is open and its handler has not been refused its last publish, some step moves it on.
  lemma SomeMove(s: State, i: nat, w: nat) returns (l: Label)
    requires Inv(s) && Serves(s, i, w) && !s.calls[i].hub.stage.Closed?
    requires s.handlers[w].worker.phase != Ended(Silent)
    ensures CanStep(s, l) && IsMove(s, l, i, w) && !IsTimeout(l, i)
  {
    var h, worker, subject := s.calls[i].hub, s.handlers[w].worker, s.calls[i].subject;
    if !worker.phase.Ended? {
      l := EdgeTick(w, Accepted);
    } else if OnSubject(s.wire, subject) != [] {
      var k := FirstOnSubject(s.wire, subject);
      l := Deliver(k, false);
    } else {
      ServedPumps(s, i, w);
      l := HubStep(i, Next(h.stage));
      NextEnabled(s, i, w);
    }
  }

  // With everything delivered the pump or its reader can go on.
  lemma NextEnabled(s: State, i: nat, w: nat)
    requires Inv(s) && Serves(s, i, w) && !s.calls[i].hub.stage.Closed?
    requires s.handlers[w].worker.phase.Ended? && s.handlers[w].worker.phase != Ended(Silent)
    requires OnSubject(s.wire, s.calls[i].subject) == []
    ensures Enabled(s.calls[i].hub, Next(s.calls[i].hub.stage))
  {
    ServedLog(s, i, w);
    if !s.calls[i].hub.slow {
      SettledOnCourse(s, i, w);
      NextOnCourse(s.calls[i].hub, s.handlers[w].worker);
    }
  }

  lemma NextOnCourse(h: Hub, w: Worker)
    requires Sound(w) && w.phase.Ended? && !w.phase.how.Silent? && OnCourse(h, w.log) && !h.stage.Closed?
    ensures Enabled(h, Next(h.stage))
  {
    assert w.log[|w.log| - 1].done.Some?;
    StillComing(h, w.log);
    NeverStuck(h);
  }

  // ---------------------------------------------------------------------------------------------
  // Whole runs.

  function Timeouts(more: seq<Label>, i: nat): nat {
    if more == [] then 0
    else Timeouts(more[..|more| - 1], i) + if IsTimeout(more[|more| - 1], i) then 1 else 0
  }

  // How many steps of the continuation move the call on.
  function Moves(schemes: string -> Scheme, labels: seq<Label>, more: seq<Label>, i: nat, w: nat): nat
    decreases |more|
  {
    if more == [] then 0
    else
      var shorter, last := more[..|more| - 1], more[|more| - 1];
      Moves(schemes, labels, shorter, i, w) +
      match After(schemes, labels + shorter)
      case None => 0
      case Some(s) => if CanStep(s, last) && i < |s.calls| && w < |s.handlers| && IsMove(s, last, i, w) then 1 else 0
  }

  lemma {:induction false} MovesBounded(schemes: string -> Scheme, labels: seq<Label>, more: seq<Label>, i: nat, w: nat)
    requires After(schemes, labels).Some? && Serves(After(schemes, labels).value, i, w)
    requires After(schemes, labels + more).Some?
    ensures Serves(After(schemes, labels + more).value, i, w)
    ensures Moves(schemes, labels, more, i, w) + CallWork(After(schemes, labels + more).value, i, w)
         <= CallWork(After(schemes, labels).value, i, w) + 2 * Timeouts(more, i)
    decreases |more|
  {
    if more == [] {
      assert labels + more == labels;
    } else {
      var shorter, last := more[..|more| - 1], more[|more| - 1];
      assert (labels + more)[..|labels + more| - 1] == labels + shorter;
      MovesBounded(schemes, labels, shorter, i, w);
      ReachableInv(schemes, labels + shorter);
      StepWork(After(schemes, labels + shorter).value, last, i, w);
    }
  }

  // From any state of any run in which a call is served, however the tunnel goes on, with all its other calls:
  // the steps that move the call on are no more than its work, and two for each of its timeouts; while it is
  // open there is one to take, unless its handler's last publish was refused; and if it was not disturbed, it
  // is closed with all that its handler published and as that ended.
  lemma EveryCallEnds(schemes: string -> Scheme, labels: seq<Label>, more: seq<Label>, i: nat, w: nat)
    returns (next: Label)
    requires After(schemes, labels).Some? && Serves(After(schemes, labels).value, i, w)
    requires After(schemes, labels + more).Some?
    ensures Serves(After(schemes, labels + more).value, i, w)
    ensures Moves(schemes, labels, more, i, w) + CallWork(After(schemes, labels + more).value, i, w)
         <= CallWork(After(schemes, labels).value, i, w) + 2 * Timeouts(more, i)
    ensures var s := After(schemes, labels + more).value;
      !s.calls[i].hub.stage.Closed? && s.handlers[w].worker.phase != Ended(Silent) ==>
        CanStep(s, next) && IsMove(s, next, i, w) && !IsTimeout(next, i)
    ensures var s := After(schemes, labels + more).value;
      s.calls[i].hub.stage.Closed? && !s.calls[i].hub.slow && Undisturbed(labels + more, i) ==>
        s.handlers[w].worker.phase.Ended? && Shown(s.calls[i].hub, s.handlers[w].worker)
  {
    MovesBounded(schemes, labels, more, i, w);
    ReachableInv(schemes, labels + more);
    var s := After(schemes, labels + more).value;
    next := HubStep(i, Check);
    if !s.calls[i].hub.stage.Closed? && s.handlers[w].worker.phase != Ended(Silent) {
      next := SomeMove(s, i, w);
    }
    if Undisturbed(labels + more, i) {
      ClosedExactly(schemes, labels + more, i, w);
    }
  }
}
