// The pump again, in the steps that interleave with everything else: arrivals on its subscription,
// the two halves of NextMsg, and reads of any size at the other end of the pipe.
module PumpSteps {
  import opened Prelude
  import opened Wire
  import opened EdgeWorker
  import opened Pump

  // Waiting: about to call NextMsg. Receiving: NextMsg has checked the subscription and waits for a
  // message. Piping: taken bytes of the message have been read from the pipe.
  datatype Stage =
    | Waiting
    | Receiving
    | Piping(msg: Message, taken: nat)
    | Closed(outcome: Outcome)

  datatype Hub = Hub(
    queue: seq<Message>,    // arrived, not yet taken by NextMsg
    slow: bool,             // a message was dropped because the queue was full
    stage: Stage,
    got: seq<byte>,         // read from the pipe
    handed: seq<Message>,   // taken by NextMsg so far
    history: seq<Event>     // the turns of the loop completed so far
  )

  const FRESH: Hub := Hub([], false, Waiting, [], [], [])

  datatype Step =
    | Arrive(msg: Message)
    | Overflow                 // an arrival that finds the queue full
    | Check
    | Expire
    | Break(text: string)      // NextMsg fails otherwise
    | Take
    | Read(size: nat)
    | Hangup                   // the reader closes the pipe

  predicate Enabled(h: Hub, s: Step) {
    match s
    case Arrive(_) => true
    case Overflow => h.queue != []
    case Check => h.stage.Waiting?
    case Expire => h.stage.Receiving?
    case Break(_) => h.stage.Receiving?
    case Take => h.stage.Receiving? && h.queue != []
    case Read(_) => h.stage.Piping? && h.stage.taken <= |h.stage.msg.data|
    case Hangup => h.stage.Piping? && h.stage.taken <= |h.stage.msg.data|
  }

  function End(h: Hub, e: Event): Hub {
    h.(history := h.history + [e],
       stage := match Closes(e) case None => Waiting case Some(o) => Closed(o))
  }

  function Apply(h: Hub, s: Step): Hub
    requires Enabled(h, s)
  {
    match s
    case Arrive(m) => if h.stage.Closed? then h else h.(queue := h.queue + [m])
    case Overflow => if h.stage.Closed? then h else h.(slow := true)
    case Check => if h.slow then End(h, SubError(SLOW_CONSUMER)) else h.(stage := Receiving)
    case Expire => End(h, Timeout)
    case Break(text) => End(h, SubError(text))
    case Take =>
      h.(queue := h.queue[1..], handed := h.handed + [h.queue[0]], stage := Piping(h.queue[0], 0))
    case Read(size) =>
      var m, k := h.stage.msg, h.stage.taken;
      var k' := if k + size <= |m.data| then k + size else |m.data|;
      var h' := h.(got := h.got + m.data[k..k']);
      if k' == |m.data| then End(h', Delivered(m, None)) else h'.(stage := Piping(m, k'))
    case Hangup => End(h, Delivered(h.stage.msg, Some(h.stage.taken)))
  }

  // ---------------------------------------------------------------------------------------------
  // What the steps keep.

  // The steps so far are the loop run over the history, up to a message in the middle of the pipe.
  ghost predicate FollowsLoop(h: Hub) {
    && (forall e :: e in h.history ==> WellFormed(e))
    && var run := PumpRun(h.history);
       match h.stage
       case Waiting => run == Pumped(h.got, None)
       case Receiving => run == Pumped(h.got, None)
       case Piping(m, k) => k <= |m.data| && run.closed.None? && h.got == run.bytes + m.data[..k]
       case Closed(o) => run == Pumped(h.got, Some(o))
  }

  lemma EndFollows(h: Hub, e: Event)
    requires forall x :: x in h.history ==> WellFormed(x)
    requires WellFormed(e) && PumpRun(h.history).closed.None?
    requires h.got == PumpRun(h.history).bytes + Bytes(e)
    ensures FollowsLoop(End(h, e))
  {
    PumpRunAppend(h.history, e);
  }

  lemma StepFollows(h: Hub, s: Step)
    requires FollowsLoop(h) && Enabled(h, s)
    ensures FollowsLoop(Apply(h, s))
  {
    var run := PumpRun(h.history);
    match s {
      case Check => if h.slow { assert run.bytes + [] == run.bytes; EndFollows(h, SubError(SLOW_CONSUMER)); }
      case Expire => assert run.bytes + [] == run.bytes; EndFollows(h, Timeout);
      case Break(text) => assert run.bytes + [] == run.bytes; EndFollows(h, SubError(text));
      case Read(size) =>
        var m, k := h.stage.msg, h.stage.taken;
        var k' := if k + size <= |m.data| then k + size else |m.data|;
        assert h.got + m.data[k..k'] == run.bytes + m.data[..k'];
        if k' == |m.data| {
          assert m.data[..k'] == m.data;
          EndFollows(h.(got := h.got + m.data[k..k']), Delivered(m, None));
        }
      case Hangup => EndFollows(h, Delivered(h.stage.msg, Some(h.stage.taken)));
      case _ =>
    }
  }

  // What the reader has is what was handed over, and a clean end comes only with an empty Done text
  // on the last message handed over, once all of it is read.
  ghost predicate Faithful(h: Hub) {
    match h.stage
    case Waiting => NoDone(h.handed) && h.got == Payload(h.handed)
    case Receiving => NoDone(h.handed) && h.got == Payload(h.handed)
    case Piping(m, k) =>
      && h.handed != [] && h.handed[|h.handed| - 1] == m && NoDone(h.handed[..|h.handed| - 1])
      && k <= |m.data| && h.got == Payload(h.handed[..|h.handed| - 1]) + m.data[..k]
    case Closed(Clean) =>
      OneDoneLast(h.handed) && h.handed[|h.handed| - 1].done == Some("") && h.got == Payload(h.handed)
    case Closed(Failure(_)) => h.got <= Payload(h.handed)
  }

  lemma TakeFaithful(h: Hub)
    requires Faithful(h) && Enabled(h, Take)
    ensures Faithful(Apply(h, Take))
  {
    assert (h.handed + [h.queue[0]])[..|h.handed|] == h.handed;
  }

  lemma ReadFaithful(h: Hub, size: nat)
    requires Faithful(h) && Enabled(h, Read(size))
    ensures Faithful(Apply(h, Read(size)))
  {
    var m, k := h.stage.msg, h.stage.taken;
    var before := h.handed[..|h.handed| - 1];
    if k + size < |m.data| {
      assert h.got + m.data[k..k + size] == Payload(before) + m.data[..k + size];
    } else {
      ReadToEnd(h, before, m, k);
    }
  }

  lemma PayloadReadToEnd(before: seq<Message>, m: Message, k: nat)
    requires k <= |m.data|
    ensures Payload(before) + m.data[..k] + m.data[k..|m.data|] == Payload(before + [m])
  {
    SplitAt(Payload(before), m.data, k);
    PayloadAppend(before, m);
  }

  // A further message keeps the list free of Done headers, or ends it with the one it has.
  lemma OneMore(before: seq<Message>, m: Message)
    requires NoDone(before)
    ensures if m.done.None? then NoDone(before + [m]) else OneDoneLast(before + [m])
  {
    assert (before + [m])[..|before|] == before;
  }

  lemma ReadToEnd(h: Hub, before: seq<Message>, m: Message, k: nat)
    requires h.handed == before + [m] && NoDone(before) && k <= |m.data| && h.got == Payload(before) + m.data[..k]
    ensures Faithful(End(h.(got := h.got + m.data[k..|m.data|]), Delivered(m, None)))
  {
    PayloadReadToEnd(before, m, k);
    OneMore(before, m);
  }

  lemma HangupFaithful(h: Hub)
    requires Faithful(h) && Enabled(h, Hangup)
    ensures Faithful(Apply(h, Hangup))
  {
    var before := h.handed[..|h.handed| - 1];
    assert h.handed == before + [h.stage.msg];
    PayloadAppend(before, h.stage.msg);
    assert h.got <= Payload(before) + h.stage.msg.data;
  }

  lemma StepFaithful(h: Hub, s: Step)
    requires Faithful(h) && Enabled(h, s)
    ensures Faithful(Apply(h, s))
  {
    match s {
      case Take => TakeFaithful(h);
      case Read(size) => ReadFaithful(h, size);
      case Hangup => HangupFaithful(h);
      case _ =>
    }
  }

  lemma FreshHub()
    ensures FollowsLoop(FRESH) && Faithful(FRESH)
  {
  }

  // ---------------------------------------------------------------------------------------------
  // Progress. Timeouts aside, the pump and a draining reader come to an end.

  // A bound on the steps that are left: for each message queued, one for each byte and four more, and
  // then those that the stage still has to go through.
  function Work(h: Hub): nat {
    QueueWork(h.queue) + StageWork(h.stage)
  }

  function QueueWork(q: seq<Message>): nat {
    if q == [] then 0 else |q[0].data| + 4 + QueueWork(q[1..])
  }

  function StageWork(s: Stage): nat {
    match s
    case Piping(m, k) => 3 + if k <= |m.data| then |m.data| - k else 0
    case Waiting => 2
    case Receiving => 1
    case Closed(_) => 0
  }

  // The steps of the loop and its reader, without timeouts and without reads of nothing.
  predicate Productive(s: Step) {
    match s
    case Arrive(_) => false
    case Overflow => false
    case Expire => false
    case Read(size) => size > 0
    case _ => true
  }

  lemma ProductiveStepsShrink(h: Hub, s: Step)
    requires Enabled(h, s) && Productive(s)
    ensures Work(Apply(h, s)) < Work(h)
  {
  }

  // A message that ends the loop is queued, or on its way through the pipe.
  ghost predicate DoneComing(h: Hub) {
    || h.stage.Closed?
    || (h.stage.Piping? && h.stage.msg.done.Some?)
    || exists i :: 0 <= i < |h.queue| && h.queue[i].done.Some?
  }

  // A step of the loop or its reader loses no message and makes none up.
  lemma StepKeepsMessages(h: Hub, s: Step)
    requires Enabled(h, s) && !s.Arrive? && !s.Overflow?
    ensures Apply(h, s).handed + Apply(h, s).queue == h.handed + h.queue
  {
    if s.Take? {
      assert h.handed + h.queue == (h.handed + [h.queue[0]]) + h.queue[1..];
    }
  }

  // The pipe, if closed, was closed by the Done text of a message that was read in full.
  ghost predicate ClosedByDone(h: Hub) {
    h.stage.Closed? ==>
      && OneDoneLast(h.handed)
      && h.got == Payload(h.handed)
      && var text := h.handed[|h.handed| - 1].done.value;
         h.stage.outcome == if text == "" then Clean else Failure(text)
  }

  lemma StepClosedByDone(h: Hub, s: Step)
    requires Faithful(h) && ClosedByDone(h) && Enabled(h, s) && (s.Check? ==> !h.slow)
    requires !s.Break? && !s.Hangup? && !s.Overflow?
    ensures ClosedByDone(Apply(h, s)) && Apply(h, s).slow == h.slow
  {
    if s.Read? {
      var m, k := h.stage.msg, h.stage.taken;
      var k' := if k + s.size <= |m.data| then k + s.size else |m.data|;
      var before := h.handed[..|h.handed| - 1];
      assert h.got + m.data[k..k'] == Payload(before) + m.data[..k'];
      assert k' == |m.data| ==> m.data[..k'] == m.data;
    }
  }
}
