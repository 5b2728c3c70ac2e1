// What the tunnel promises, for every run of it.
module Tunnel {
  import opened Prelude
  import opened Wire
  import opened Subjects
  import opened EdgeWorker
  import Pump
  import Envelope
  import opened PumpSteps
  import opened Schedules
  import opened Protocol
  import opened ProtocolSafety

  // What handler w publishes arrives on the subject of call i.
  ghost predicate Serves(s: State, i: int, w: int) {
    0 <= i < |s.calls| && 0 <= w < |s.handlers| && Destination(s.handlers[w]) == s.calls[i].subject
  }

  ghost predicate ServesSome(s: State, w: int) {
    exists i :: Serves(s, i, w)
  }

  ghost predicate Unserved(s: State, i: int) {
    0 <= i < |s.calls| && forall w :: 0 <= w < |s.handlers| ==> !Serves(s, i, w)
  }

  lemma ServedLog(s: State, i: int, w: int)
    requires Inv(s) && Serves(s, i, w)
    ensures FollowsLoop(s.calls[i].hub) && Faithful(s.calls[i].hub) && Sound(s.handlers[w].worker)
    ensures Streams(s.calls[i].hub, s.handlers[w].worker.log, OnSubject(s.wire, s.calls[i].subject))
  {
    assert CallInv(s, i);
    LogForHandler(s.handlers, w);
  }

  lemma UnservedLog(s: State, i: int)
    requires Inv(s) && Unserved(s, i)
    ensures Faithful(s.calls[i].hub) && s.calls[i].hub.handed == []
  {
    assert CallInv(s, i);
    forall w | 0 <= w < |s.handlers|
      ensures Destination(s.handlers[w]) != s.calls[i].subject
    {
      assert !Serves(s, i, w);
    }
    LogForNobody(s.handlers, s.calls[i].subject);
  }

  // No call gets anything of another, of its own link or any other: every handler serves a call, and
  // only that one, is a member for that call's link, and has taken the very request of it; a call has one
  // handler at most; its pump is handed that handler's messages, all in order from the first on, and
  // nothing when there is no handler.
  ghost predicate NoCrossTalk(s: State) {
    && (forall w :: 0 <= w < |s.handlers| ==> ServesSome(s, w))
    && (forall i, j, w :: Serves(s, i, w) && Serves(s, j, w) ==> i == j)
    && (forall i, v, w :: Serves(s, i, v) && Serves(s, i, w) ==> v == w)
    && (forall i, w :: Serves(s, i, w) ==>
          s.handlers[w].names == s.calls[i].names && s.handlers[w].request == RequestOf(s.calls[i]))
    && (forall i, w :: Serves(s, i, w) ==> s.calls[i].hub.handed <= s.handlers[w].worker.log)
    && (forall i :: Unserved(s, i) ==> s.calls[i].hub.handed == [])
  }

  // The call a handler's request was published for is the one it serves.
  lemma ServesItsCall(s: State, w: nat) returns (i: nat)
    requires Inv(s) && w < |s.handlers|
    ensures Serves(s, i, w)
    ensures s.handlers[w].names == s.calls[i].names && s.handlers[w].request == RequestOf(s.calls[i])
  {
    var h := s.handlers[w];
    assert FromCall(s, h.request);
    i :| 0 <= i < |s.calls| && h.request == RequestOf(s.calls[i]);
    AwaitedByCall(s, i);
    ArrivesWhereAwaited(s, w);
    HandlerReachedExactly(h.names, s.calls[i].names);
  }

  lemma ServesOwn(s: State, i: int, w: int)
    requires Inv(s) && Serves(s, i, w)
    ensures s.handlers[w].names == s.calls[i].names && s.handlers[w].request == RequestOf(s.calls[i])
  {
    var j := ServesItsCall(s, w);
    assert i == j;
  }

  lemma InvNoCrossTalk(s: State)
    requires Inv(s)
    ensures NoCrossTalk(s)
  {
    forall w | 0 <= w < |s.handlers|
      ensures ServesSome(s, w)
    {
      var i := ServesItsCall(s, w);
    }
    forall i, w | Serves(s, i, w)
      ensures s.calls[i].hub.handed <= s.handlers[w].worker.log
      ensures s.handlers[w].names == s.calls[i].names && s.handlers[w].request == RequestOf(s.calls[i])
    {
      ServedLog(s, i, w);
      ServesOwn(s, i, w);
    }
    forall i | Unserved(s, i)
      ensures s.calls[i].hub.handed == []
    {
      UnservedLog(s, i);
    }
  }

  lemma NeverCrossTalk(schemes: string -> Scheme, labels: seq<Label>)
    requires After(schemes, labels).Some?
    ensures NoCrossTalk(After(schemes, labels).value)
  {
    ReachableInv(schemes, labels);
    InvNoCrossTalk(After(schemes, labels).value);
  }

  // What a call publishes is what its handler decodes, whoever else is calling.
  lemma EnvelopeArrives(schemes: string -> Scheme, labels: seq<Label>, i: nat, w: nat, r: Envelope.R)
    requires After(schemes, labels).Some? && Serves(After(schemes, labels).value, i, w)
    ensures var s := After(schemes, labels).value;
      s.calls[i].data == Envelope.Marshal(r) ==> Envelope.Unmarshal(s.handlers[w].request.data) == Some(r)
  {
    ReachableInv(schemes, labels);
    ServesOwn(After(schemes, labels).value, i, w);
    Envelope.EnvelopeRoundTrip(r);
  }

  // No reply is lost: until the pump stops, or drops a message and will stop for that, whatever the
  // handler published is handed over, or queued, or on the wire, and in that order.
  lemma NoReplyLost(schemes: string -> Scheme, labels: seq<Label>, i: nat, w: nat)
    requires After(schemes, labels).Some? && Serves(After(schemes, labels).value, i, w)
    ensures var s := After(schemes, labels).value;
      var h := s.calls[i].hub;
      !h.stage.Closed? && !h.slow ==>
        h.handed + h.queue + OnSubject(s.wire, s.calls[i].subject) == s.handlers[w].worker.log
  {
    ReachableInv(schemes, labels);
    ServedLog(After(schemes, labels).value, i, w);
  }

  // What a call's reader has, in view of the worker behind it: always a prefix of the response, and at
  // a clean end all of it, unless the worker reported an error with nothing to show as its text.
  ghost predicate Transparent(h: Hub, w: Worker) {
    && h.got <= Whole(w.resp.ops)
    && (h.stage == Closed(Pump.Clean) ==>
          || (w.phase == Ended(Complete) && h.got == Whole(w.resp.ops) && w.resp.fault.None?)
          || (w.phase.Ended? && w.phase.how.Reported? && IsBlank(w.phase.how.text)))
  }

  lemma GotIsHanded(h: Hub)
    requires Faithful(h)
    ensures h.got <= Payload(h.handed)
  {
    if h.stage.Piping? {
      var before := h.handed[..|h.handed| - 1];
      PayloadAppend(before, h.stage.msg);
      assert h.handed == before + [h.stage.msg];
    }
  }

  // A Done message is the last of its worker's messages.
  lemma DoneIsLast(handed: seq<Message>, w: Worker)
    requires Sound(w) && handed <= w.log && OneDoneLast(handed)
    ensures w.log == handed && w.phase.Ended? && !w.phase.how.Silent?
  {
    var last := |handed| - 1;
    assert w.log[last] == handed[last];
  }

  lemma HubTransparent(h: Hub, w: Worker)
    requires Faithful(h) && Sound(w) && h.handed <= w.log
    ensures Transparent(h, w)
  {
    GotIsHanded(h);
    PayloadPrefix(h.handed, w.log);
    PrefixTransitive(h.got, Payload(h.handed), Payload(w.log));
    PrefixTransitive(h.got, Payload(w.log), Whole(w.resp.ops));
    if h.stage == Closed(Pump.Clean) {
      DoneIsLast(h.handed, w);
      if w.phase.how.Reported? {
        HeaderValueEmpty(w.phase.how.text);
      }
    }
  }

  // Transparency, for every run: every interleaving, every cutting of the response into pieces, every
  // refusal, timeout, drop and size of read.
  lemma Transparency(schemes: string -> Scheme, labels: seq<Label>, i: nat)
    requires After(schemes, labels).Some? && i < |After(schemes, labels).value.calls|
    ensures var s := After(schemes, labels).value;
      && (forall w :: Serves(s, i, w) ==> Transparent(s.calls[i].hub, s.handlers[w].worker))
      && (Unserved(s, i) ==> s.calls[i].hub.got == [] && s.calls[i].hub.stage != Closed(Pump.Clean))
  {
    ReachableInv(schemes, labels);
    var s := After(schemes, labels).value;
    forall w | Serves(s, i, w)
      ensures Transparent(s.calls[i].hub, s.handlers[w].worker)
    {
      ServedLog(s, i, w);
      HubTransparent(s.calls[i].hub, s.handlers[w].worker);
    }
    if Unserved(s, i) {
      UnservedLog(s, i);
    }
  }

  // ---------------------------------------------------------------------------------------------
  // Errors with a text.

  // Every error of the run says something.
  ghost predicate Speaks(l: Label) {
    match l
    case TakeRequest(_, _, resp) => resp.fault.Some? ==> !IsBlank(resp.fault.value)
    case EdgeTick(_, Refused(text)) => !IsBlank(text)
    case _ => true
  }

  ghost predicate Speaking(w: Worker) {
    && (w.resp.fault.Some? ==> !IsBlank(w.resp.fault.value))
    && (w.phase.Failed? ==> !IsBlank(w.phase.text))
    && (w.phase.Ended? && w.phase.how.Reported? ==> !IsBlank(w.phase.how.text))
  }

  lemma {:induction false} WorkersSpeak(schemes: string -> Scheme, labels: seq<Label>)
    requires After(schemes, labels).Some? && forall l :: l in labels ==> Speaks(l)
    ensures var s := After(schemes, labels).value;
      forall w :: 0 <= w < |s.handlers| ==> Speaking(s.handlers[w].worker)
  {
    if labels != [] {
      var before, l := labels[..|labels| - 1], labels[|labels| - 1];
      WorkersSpeak(schemes, before);
      assert Speaks(l);
      var s := After(schemes, before).value;
      assert After(schemes, labels).value == DoStep(s, l);
    }
  }

  // If every error says something, a clean end is the whole response, and no response that was cut
  // short, by a refusal or by a fault of its own, ends cleanly.
  lemma CleanIsWhole(schemes: string -> Scheme, labels: seq<Label>, i: nat, w: nat)
    requires After(schemes, labels).Some? && Serves(After(schemes, labels).value, i, w)
    requires forall l :: l in labels ==> Speaks(l)
    ensures var s := After(schemes, labels).value;
      s.calls[i].hub.stage == Closed(Pump.Clean) ==>
        && s.handlers[w].worker.phase == Ended(Complete)
        && s.calls[i].hub.got == Whole(s.handlers[w].worker.resp.ops)
  {
    Transparency(schemes, labels, i);
    WorkersSpeak(schemes, labels);
  }

  // A call for the link that has just begun, and the handler that has just taken its request.
  function FirstCall(schemes: string -> Scheme, link: string): Call {
    var names := Home(schemes, link);
    Call(names, "u", ResponseSubjects(names, "u").hub, ResponseSubjects(names, "u").edge, [], Pumping, FRESH)
  }

  function FirstHandler(schemes: string -> Scheme, link: string, resp: Response): Handler {
    var c := FirstCall(schemes, link);
    Handler(c.names, RequestOf(c), Start(c.reply, resp, 0))
  }

  lemma FirstServed(schemes: string -> Scheme, link: string, resp: Response)
    ensures Destination(FirstHandler(schemes, link, resp)) == FirstCall(schemes, link).subject
  {
    ImportedResponse(Home(schemes, link), "u");
  }

  // The run that gets there.
  lemma Begun(schemes: string -> Scheme, link: string, resp: Response) returns (labels: seq<Label>)
    ensures After(schemes, labels)
         == Some(State(schemes, [FirstCall(schemes, link)], [], [FirstHandler(schemes, link, resp)], []))
    ensures forall l :: l in labels ==> !l.HubStep?
  {
    var call := FirstCall(schemes, link);
    var steps := [Subscribe(link, "u", []), PublishRequest(0), TakeRequest(0, link, resp)];
    HandlerReachedExactly(call.names, call.names);
    var s;
    labels, s := [], Initial(schemes);
    for k := 0 to 3
      invariant After(schemes, labels) == Some(s) && forall l :: l in labels ==> !l.HubStep?
      invariant k == 0 ==> s == Initial(schemes)
      invariant k == 1 ==> s == State(schemes, [call.(progress := Listening)], [], [], [])
      invariant k == 2 ==> s == State(schemes, [call], [RequestOf(call)], [], [])
      invariant k == 3 ==> s == State(schemes, [call], [], [FirstHandler(schemes, link, resp)], [])
    {
      AfterAppend(schemes, labels, steps[k]);
      labels, s := labels + [steps[k]], DoStep(s, steps[k]);
    }
  }

  // The edge's part of one run: the byte of the response stays in the edge's buffer, a fault with an
  // empty text follows, and its report is all that is published.
  lemma BlankReport(schemes: string -> Scheme, link: string, resp: Response) returns (labels: seq<Label>, s: State)
    requires |resp.ops| == 1 && resp.ops[0].mode == Slice && |resp.ops[0].bytes| == 1 && resp.fault == Some("")
    ensures After(schemes, labels) == Some(s)
    ensures |s.calls| == 1 && s.calls[0].hub == FRESH && s.calls[0].progress == Pumping
    ensures |s.handlers| == 1 && Destination(s.handlers[0]) == s.calls[0].subject
    ensures s.handlers[0].worker.resp == resp
    ensures s.wire == [Packet(s.calls[0].subject, Message([], Some("")))]
  {
    labels := Begun(schemes, link, resp);
    s := After(schemes, labels).value;
    FirstServed(schemes, link, resp);
    for k := 0 to 2
      invariant After(schemes, labels) == Some(s) && s.calls == [FirstCall(schemes, link)]
      invariant |s.handlers| == 1 && Destination(s.handlers[0]) == s.calls[0].subject
      invariant s.handlers[0].worker.resp == resp
      invariant k == 0 ==> s.handlers == [FirstHandler(schemes, link, resp)]
      invariant k <= 1 ==> s.wire == [] && s.handlers[0].worker.phase == Writing && s.handlers[0].worker.log == []
      invariant k == 1 ==> s.handlers[0].worker.ops == []
      invariant k == 2 ==> s.wire == [Packet(s.calls[0].subject, Message([], Some("")))]
    {
      AfterAppend(schemes, labels, EdgeTick(0, Accepted));
      labels, s := labels + [EdgeTick(0, Accepted)], DoStep(s, EdgeTick(0, Accepted));
    }
  }

  // Without that a cut response can end cleanly.
  lemma BlankErrorEndsCleanly(schemes: string -> Scheme, link: string, byte0: byte) returns (labels: seq<Label>)
    ensures After(schemes, labels).Some?
    ensures var s := After(schemes, labels).value;
      && Serves(s, 0, 0)
      && Whole(s.handlers[0].worker.resp.ops) == [byte0] && s.calls[0].hub.got == []
      && s.calls[0].hub.stage == Closed(Pump.Clean)
  {
    var resp := Response([Op(Slice, [byte0])], Some(""));
    var m := Message([], Some(""));
    var steps := [Deliver(0, false), HubStep(0, Check), HubStep(0, Take), HubStep(0, Read(1))];
    var s;
    labels, s := BlankReport(schemes, link, resp);
    for k := 0 to 4
      invariant After(schemes, labels) == Some(s)
      invariant |s.calls| == 1 && s.calls[0].progress == Pumping && |s.handlers| == 1
      invariant Destination(s.handlers[0]) == s.calls[0].subject && s.handlers[0].worker.resp == resp
      invariant k == 0 ==> s.wire == [Packet(s.calls[0].subject, m)] && s.calls[0].hub == FRESH
      invariant s.calls[0].hub.got == [] && !s.calls[0].hub.slow
      invariant 1 <= k <= 2 ==> s.calls[0].hub.queue == [m]
      invariant s.calls[0].hub.stage == (
        if k <= 1 then Waiting else if k == 2 then Receiving else if k == 3 then Piping(m, 0) else Closed(Pump.Clean))
    {
      AfterAppend(schemes, labels, steps[k]);
      labels, s := labels + [steps[k]], DoStep(s, steps[k]);
    }
    assert Whole(resp.ops[1..]) == [] && [byte0] + [] == [byte0];
  }

  // ---------------------------------------------------------------------------------------------
  // How calls end.

  // Nothing but the messages ends the call's loop: its subscription does not fail, its reader does not
  // hang up.
  ghost predicate Undisturbed(labels: seq<Label>, i: nat) {
    forall l :: l in labels && l.HubStep? && l.call == i ==> !l.step.Break? && !l.step.Hangup?
  }

  ghost predicate EndsOnlyByDone(h: Hub) {
    h.slow || ClosedByDone(h)
  }

  lemma ReceiveEndsByDone(c: Call, p: Packet, full: bool)
    requires EndsOnlyByDone(c.hub)
    ensures EndsOnlyByDone(Receive(c, p, full).hub)
  {
  }

  lemma StepEndsByDone(s: State, l: Label, i: nat)
    requires Inv(s) && CanStep(s, l) && i < |s.calls| && EndsOnlyByDone(s.calls[i].hub)
    requires l.HubStep? && l.call == i ==> !l.step.Break? && !l.step.Hangup?
    ensures EndsOnlyByDone(DoStep(s, l).calls[i].hub)
  {
    match l {
      case HubStep(j, step) =>
        if j == i && !s.calls[i].hub.slow {
          assert CallInv(s, i);
          StepClosedByDone(s.calls[i].hub, step);
        }
      case Deliver(k, full) => ReceiveEndsByDone(s.calls[i], s.wire[k], full);
      case _ =>
    }
  }

  // Such a call, unless it drops a message, is closed by a Done text or not at all.
  lemma {:induction false} EndsByDone(schemes: string -> Scheme, labels: seq<Label>, i: nat)
    requires After(schemes, labels).Some? && i < |After(schemes, labels).value.calls| && Undisturbed(labels, i)
    ensures EndsOnlyByDone(After(schemes, labels).value.calls[i].hub)
  {
    if labels != [] {
      var before, l := labels[..|labels| - 1], labels[|labels| - 1];
      ReachableInv(schemes, before);
      var s := After(schemes, before).value;
      assert Undisturbed(before, i) && l in labels;
      if i < |s.calls| {
        EndsByDone(schemes, before, i);
        StepEndsByDone(s, l, i);
      }
    }
  }

  // When it is closed, exactly: the worker has ended, the reader has all it published, and sees how it
  // ended, cleanly if and only if the response is complete or the error reported has a blank text. If the
  // last publish was refused, the call is never closed, however long the run and whatever its timeouts.
  lemma ClosedExactly(schemes: string -> Scheme, labels: seq<Label>, i: nat, w: nat)
    requires After(schemes, labels).Some? && Serves(After(schemes, labels).value, i, w) && Undisturbed(labels, i)
    ensures var s := After(schemes, labels).value;
      var h, worker := s.calls[i].hub, s.handlers[w].worker;
      && (h.stage.Closed? && !h.slow ==> worker.phase.Ended? && Shown(h, worker))
      && (worker.phase == Ended(Silent) && !h.slow ==> !h.stage.Closed?)
  {
    ReachableInv(schemes, labels);
    var s := After(schemes, labels).value;
    ServedLog(s, i, w);
    EndsByDone(schemes, labels, i);
    var h := s.calls[i].hub;
    if h.stage.Closed? && !h.slow {
      ClosedShows(h, s.handlers[w].worker);
    }
  }

  lemma {:induction false} AfterPrefix(schemes: string -> Scheme, labels: seq<Label>, more: seq<Label>)
    requires After(schemes, labels + more).Some?
    ensures After(schemes, labels).Some?
  {
    if more == [] {
      assert labels + more == labels;
    } else {
      assert (labels + more)[..|labels + more| - 1] == labels + more[..|more| - 1];
      AfterPrefix(schemes, labels, more[..|more| - 1]);
    }
  }

  // A handler goes on serving its call, and once it has ended it stays as it is.
  lemma StepKeepsServing(s: State, l: Label, i: int, w: int)
    requires CanStep(s, l) && Serves(s, i, w)
    ensures Serves(DoStep(s, l), i, w)
    ensures s.handlers[w].worker.phase.Ended? ==> DoStep(s, l).handlers[w].worker == s.handlers[w].worker
  {
    if l.EdgeTick? {
      TickGrows(s.handlers[l.handler].worker, l.verdict);
    }
  }

  lemma {:induction false} KeepsServing(schemes: string -> Scheme, labels: seq<Label>, more: seq<Label>, i: int, w: int)
    requires After(schemes, labels + more).Some?
    requires After(schemes, labels).Some? && Serves(After(schemes, labels).value, i, w)
    ensures Serves(After(schemes, labels + more).value, i, w)
    ensures var before := After(schemes, labels).value.handlers[w].worker;
      before.phase.Ended? ==> After(schemes, labels + more).value.handlers[w].worker == before
  {
    if more == [] {
      assert labels + more == labels;
    } else {
      var shorter := labels + more[..|more| - 1];
      assert (labels + more)[..|labels + more| - 1] == shorter;
      AfterPrefix(schemes, shorter, [more[|more| - 1]]);
      KeepsServing(schemes, labels, more[..|more| - 1], i, w);
      StepKeepsServing(After(schemes, shorter).value, more[|more| - 1], i, w);
    }
  }

  // Once a handler's last publish has been refused, no continuation of the run closes its call.
  lemma SilentNeverCloses(schemes: string -> Scheme, labels: seq<Label>, more: seq<Label>, i: nat, w: nat)
    requires After(schemes, labels).Some? && Serves(After(schemes, labels).value, i, w)
    ensures
      (&& After(schemes, labels).value.handlers[w].worker.phase == Ended(Silent)
       && After(schemes, labels + more).Some? && Undisturbed(labels + more, i)) ==>
        var s := After(schemes, labels + more).value;
        Serves(s, i, w) && (!s.calls[i].hub.slow ==> !s.calls[i].hub.stage.Closed?)
  {
    if After(schemes, labels + more).Some? && Undisturbed(labels + more, i) {
      KeepsServing(schemes, labels, more, i, w);
      ClosedExactly(schemes, labels + more, i, w);
    }
  }

  // A run that gets there: an empty response, whose one publish is refused.
  lemma RefusedLastPublish(schemes: string -> Scheme, link: string) returns (labels: seq<Label>)
    ensures After(schemes, labels).Some? && Undisturbed(labels, 0)
    ensures var s := After(schemes, labels).value;
      Serves(s, 0, 0) && s.calls[0].progress.Pumping? && s.handlers[0].worker.phase == Ended(Silent)
  {
    var resp, tick := Response([], None), EdgeTick(0, Refused("refused"));
    labels := Begun(schemes, link, resp);
    FirstServed(schemes, link, resp);
    AfterAppend(schemes, labels, tick);
    labels := labels + [tick];
  }

  // So not every call ends: however this run goes on, with any number of timeouts, the pipe stays open.
  lemma NotEveryCallEnds(schemes: string -> Scheme, link: string) returns (labels: seq<Label>)
    ensures After(schemes, labels).Some? && Serves(After(schemes, labels).value, 0, 0)
    ensures After(schemes, labels).value.calls[0].progress.Pumping?
    ensures forall more :: After(schemes, labels + more).Some? && Undisturbed(more, 0) ==>
      var s := After(schemes, labels + more).value;
      Serves(s, 0, 0) && (!s.calls[0].hub.slow ==> !s.calls[0].hub.stage.Closed?)
  {
    labels := RefusedLastPublish(schemes, link);
    forall more | After(schemes, labels + more).Some? && Undisturbed(more, 0)
      ensures var s := After(schemes, labels + more).value;
        Serves(s, 0, 0) && (!s.calls[0].hub.slow ==> !s.calls[0].hub.stage.Closed?)
    {
      SilentNeverCloses(schemes, labels, more, 0, 0);
    }
  }

  // A call whose request has not been published reads nothing.
  ghost predicate IdleCalls(s: State) {
    forall i :: 0 <= i < |s.calls| && !s.calls[i].progress.Pumping? ==>
      s.calls[i].hub.stage == Waiting && s.calls[i].hub.got == [] && s.calls[i].hub.handed == []
  }

  // If publishing its request is refused, that stays so: it gets no handler, and nothing is read.
  lemma {:induction false} RefusedCall(schemes: string -> Scheme, labels: seq<Label>, i: nat)
    requires After(schemes, labels).Some?
    ensures var s := After(schemes, labels).value;
      && IdleCalls(s)
      && (RefuseRequest(i) in labels ==>
            i < |s.calls| && s.calls[i].progress.Aborted? && Unserved(s, i) && s.calls[i].hub.got == []
            && !s.calls[i].hub.stage.Closed?)
  {
    ReachableInv(schemes, labels);
    if labels != [] {
      var before, last := labels[..|labels| - 1], labels[|labels| - 1];
      assert labels == before + [last];
      RefusedCall(schemes, before, i);
      RefusedStep(After(schemes, before).value, last, i);
    }
  }

  lemma RefusedStep(s: State, l: Label, i: nat)
    requires CanStep(s, l) && IdleCalls(s)
    ensures IdleCalls(DoStep(s, l))
    ensures (i < |s.calls| && s.calls[i].progress.Aborted?) || l == RefuseRequest(i) ==>
      i < |DoStep(s, l).calls| && DoStep(s, l).calls[i].progress.Aborted?
  {
  }

  // A call that is served has published its request.
  lemma ServedPumps(s: State, i: int, w: int)
    requires Inv(s) && Serves(s, i, w)
    ensures s.calls[i].progress.Pumping?
  {
  }

  function OfCall(i: nat, steps: seq<Step>): (labels: seq<Label>)
    ensures |labels| == |steps|
  {
    if steps == [] then [] else [HubStep(i, steps[0])] + OfCall(i, steps[1..])
  }

  function WithHub(s: State, i: nat, h: Hub): State
    requires i < |s.calls|
  {
    s.(calls := s.calls[i := s.calls[i].(hub := h)])
  }

  lemma HubStepIs(s: State, i: nat, step: Step)
    requires i < |s.calls| && s.calls[i].progress.Pumping? && Drains(step) && Enabled(s.calls[i].hub, step)
    ensures CanStep(s, HubStep(i, step)) && DoStep(s, HubStep(i, step)) == WithHub(s, i, Apply(s.calls[i].hub, step))
  {
  }

  lemma WithHubTwice(s: State, i: nat, h: Hub, h': Hub)
    requires i < |s.calls|
    ensures WithHub(WithHub(s, i, h), i, h') == WithHub(s, i, h') && WithHub(s, i, s.calls[i].hub) == s
  {
    assert s.calls[i := s.calls[i]] == s.calls;
  }

  lemma OneStepMore(schemes: string -> Scheme, labels: seq<Label>, s: State, i: nat, step: Step)
    requires After(schemes, labels) == Some(s) && i < |s.calls| && s.calls[i].progress.Pumping?
    requires Drains(step) && Enabled(s.calls[i].hub, step)
    ensures After(schemes, labels + [HubStep(i, step)]) == Some(WithHub(s, i, Apply(s.calls[i].hub, step)))
  {
    HubStepIs(s, i, step);
    AfterAppend(schemes, labels, HubStep(i, step));
  }

  lemma OneStepFirst(labels: seq<Label>, i: nat, steps: seq<Step>)
    requires steps != []
    ensures labels + OfCall(i, steps) == (labels + [HubStep(i, steps[0])]) + OfCall(i, steps[1..])
  {
  }

  // A schedule of one call's loop and reader is a continuation of the run.
  lemma {:induction false} ScheduleIsRun(schemes: string -> Scheme, labels: seq<Label>, s: State, i: nat,
                                         steps: seq<Step>)
    requires After(schemes, labels) == Some(s) && i < |s.calls| && s.calls[i].progress.Pumping?
    requires Play(s.calls[i].hub, steps).Some? && forall step :: step in steps ==> Drains(step)
    ensures After(schemes, labels + OfCall(i, steps)) == Some(WithHub(s, i, Play(s.calls[i].hub, steps).value))
    decreases |steps|
  {
    WithHubTwice(s, i, s.calls[i].hub, s.calls[i].hub);
    if steps == [] {
      assert labels + [] == labels;
    } else {
      var first, rest := steps[0], steps[1..];
      assert Drains(first);
      OneStepMore(schemes, labels, s, i, first);
      OneStepFirst(labels, i, steps);
      var h := Apply(s.calls[i].hub, first);
      var s' := WithHub(s, i, h);
      assert s'.calls[i] == s.calls[i].(hub := h);
      assert forall step :: step in rest ==> step in steps;
      ScheduleIsRun(schemes, labels + [HubStep(i, first)], s', i, rest);
      WithHubTwice(s, i, h, Play(h, rest).value);
    }
  }

  // All is said: the worker has ended, what it published has arrived, and nothing was dropped.
  ghost predicate Settled(s: State, i: int, w: int) {
    && Serves(s, i, w) && s.handlers[w].worker.phase.Ended?
    && OnSubject(s.wire, s.calls[i].subject) == [] && !s.calls[i].hub.slow
  }

  lemma SettledOnCourse(s: State, i: int, w: int)
    requires Inv(s) && Settled(s, i, w) && ClosedByDone(s.calls[i].hub)
    ensures OnCourse(s.calls[i].hub, s.handlers[w].worker.log) && Sound(s.handlers[w].worker)
  {
    ServedLog(s, i, w);
    var h := s.calls[i].hub;
    assert h.handed + h.queue + [] == h.handed + h.queue;
  }

  lemma SettledOutcome(s: State, i: int, w: int, steps: seq<Step>)
    requires Inv(s) && Settled(s, i, w) && ClosedByDone(s.calls[i].hub)
    requires Play(s.calls[i].hub, steps).Some? && forall step :: step in steps ==> Drains(step)
    ensures Outcome(s.calls[i].hub, steps, s.handlers[w].worker)
  {
    SettledOnCourse(s, i, w);
    EverySchedule(s.calls[i].hub, steps, s.handlers[w].worker);
  }

  // From then on every schedule of loop and reader continues the run, and ends. It can take no more steps
  // than there is work, timeouts aside; it can go on until the pipe is closed; and then the reader has
  // every byte published and sees the ending. Only after a refused last publish is the pipe never closed.
  lemma EverySchedulingEnds(schemes: string -> Scheme, labels: seq<Label>, i: nat, w: nat, steps: seq<Step>)
    requires After(schemes, labels).Some? && Settled(After(schemes, labels).value, i, w) && Undisturbed(labels, i)
    requires Play(After(schemes, labels).value.calls[i].hub, steps).Some?
    requires forall step :: step in steps ==> Drains(step)
    ensures var s := After(schemes, labels).value;
      && After(schemes, labels + OfCall(i, steps)) == Some(WithHub(s, i, Play(s.calls[i].hub, steps).value))
      && Outcome(s.calls[i].hub, steps, s.handlers[w].worker)
  {
    ReachableInv(schemes, labels);
    ServedPumps(After(schemes, labels).value, i, w);
    ScheduleIsRun(schemes, labels, After(schemes, labels).value, i, steps);
    EndsByDone(schemes, labels, i);
    SettledOutcome(After(schemes, labels).value, i, w, steps);
  }
}
