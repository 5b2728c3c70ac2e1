// Every step of the tunnel keeps its invariant.
module ProtocolSafety {
  import opened Prelude
  import opened Wire
  import opened Subjects
  import opened EdgeWorker
  import opened PumpSteps
  import opened Protocol

  lemma InitialInv(schemes: string -> Scheme)
    ensures Inv(Initial(schemes))
  {
  }

  // Calls that were there are still there, with the same subject and the same request.
  ghost predicate CallsStay(s: State, s': State) {
    && s'.schemes == s.schemes && |s.calls| <= |s'.calls|
    && (forall i :: 0 <= i < |s.calls| ==>
          s'.calls[i].subject == s.calls[i].subject && RequestOf(s'.calls[i]) == RequestOf(s.calls[i]))
  }

  lemma KnownStays(s: State, s': State)
    requires CallsStay(s, s')
    ensures forall subject :: KnownSubject(s, subject) ==> KnownSubject(s', subject)
    ensures forall r :: FromCall(s, r) ==> FromCall(s', r)
  {
    forall subject | KnownSubject(s, subject)
      ensures KnownSubject(s', subject)
    {
      var i :| 0 <= i < |s.calls| && s.calls[i].subject == subject;
      assert s'.calls[i].subject == subject;
    }
    forall r | FromCall(s, r)
      ensures FromCall(s', r)
    {
      var i :| 0 <= i < |s.calls| && r == RequestOf(s.calls[i]);
      assert r == RequestOf(s'.calls[i]);
    }
  }

  // With nothing new on its way, everything is still known.
  lemma AllKnownStays(s: State, s': State)
    requires AllKnown(s) && CallsStay(s, s') && |s'.handlers| == |s.handlers|
    requires forall r :: 0 <= r < |s'.requests| ==> FromCall(s, s'.requests[r])
    requires forall w :: 0 <= w < |s.handlers| ==> s'.handlers[w].request == s.handlers[w].request
    requires forall p :: 0 <= p < |s'.wire| ==> KnownSubject(s, s'.wire[p].subject)
    ensures AllKnown(s')
  {
    KnownStays(s, s');
    assert forall w :: 0 <= w < |s.handlers| ==> FromCall(s, s.handlers[w].request);
  }

  // What is awaited is awaited by some call.
  lemma AwaitedKnown(s: State, r: Request)
    requires Named(s) && FromCall(s, r)
    ensures KnownSubject(s, Awaited(s.schemes, r))
  {
    var i :| 0 <= i < |s.calls| && r == RequestOf(s.calls[i]);
    AwaitedByCall(s, i);
  }

  // ---------------------------------------------------------------------------------------------
  // Calls.

  lemma FreshSubject(s: State, link: string, uid: Uid, data: seq<byte>)
    requires Named(s) && CanStep(s, Subscribe(link, uid, data))
    ensures !KnownSubject(s, ResponseSubjects(Home(s.schemes, link), uid).hub)
  {
    forall i | 0 <= i < |s.calls|
      ensures s.calls[i].subject != ResponseSubjects(Home(s.schemes, link), uid).hub
    {
      ResponseHubInjective(s.calls[i].names, s.calls[i].uid, Home(s.schemes, link), uid);
    }
  }

  // Nothing is under way for a subject that no call listens on.
  lemma UnknownSubject(s: State, subject: string)
    requires Named(s) && Placed(s) && AllKnown(s) && !KnownSubject(s, subject)
    ensures forall w :: 0 <= w < |s.handlers| ==> Destination(s.handlers[w]) != subject
    ensures forall r :: 0 <= r < |s.requests| ==> Awaited(s.schemes, s.requests[r]) != subject
    ensures forall p :: 0 <= p < |s.wire| ==> s.wire[p].subject != subject
  {
    forall w | 0 <= w < |s.handlers|
      ensures Destination(s.handlers[w]) != subject
    {
      ArrivesWhereAwaited(s, w);
      AwaitedKnown(s, s.handlers[w].request);
    }
    forall r | 0 <= r < |s.requests|
      ensures Awaited(s.schemes, s.requests[r]) != subject
    {
      AwaitedKnown(s, s.requests[r]);
    }
  }

  lemma JoinOnce(s: State, c: Call)
    requires Named(s) && Placed(s) && OnceEach(s) && AllKnown(s) && !KnownSubject(s, c.subject)
    ensures OnceEach(s.(calls := s.calls + [c]))
  {
    UnknownSubject(s, c.subject);
  }

  // A call on a subject of its own joins.
  lemma JoinKeeps(s: State, c: Call)
    requires Inv(s) && !KnownSubject(s, c.subject) && c.hub == FRESH && c.names == Home(s.schemes, c.names.linkID)
    requires c.subject == ResponseSubjects(c.names, c.uid).hub && c.reply == ResponseSubjects(c.names, c.uid).edge
    ensures Inv(s.(calls := s.calls + [c]))
  {
    var s' := s.(calls := s.calls + [c]);
    JoinOnce(s, c);
    AllKnownStays(s, s');
    UnknownSubject(s, c.subject);
    forall i | 0 <= i < |s'.calls|
      ensures CallInv(s', i)
    {
      if i < |s.calls| {
        assert CallInv(s, i);
      } else {
        NothingOnSubject(s.wire, c.subject);
        LogForNobody(s.handlers, c.subject);
        FreshHub();
      }
    }
  }

  lemma SubscribeKeeps(s: State, link: string, uid: Uid, data: seq<byte>)
    requires Inv(s) && CanStep(s, Subscribe(link, uid, data))
    ensures Inv(DoStep(s, Subscribe(link, uid, data)))
  {
    var names := Home(s.schemes, link);
    var subjects := ResponseSubjects(names, uid);
    FreshSubject(s, link, uid, data);
    JoinKeeps(s, Call(names, uid, subjects.hub, subjects.edge, data, Listening, FRESH));
  }

  // Steps that change at most how far the request of one call has come.
  lemma ProgressKeeps(s: State, s': State, call: nat)
    requires Inv(s) && call < |s.calls| && |s'.calls| == |s.calls|
    requires s'.schemes == s.schemes && s'.handlers == s.handlers && s'.wire == s.wire
    requires forall i :: 0 <= i < |s.calls| ==> s'.calls[i] == s.calls[i].(progress := s'.calls[i].progress)
    requires OnceEach(s') && forall r :: 0 <= r < |s'.requests| ==> FromCall(s, s'.requests[r])
    ensures Inv(s')
  {
    AllKnownStays(s, s');
    forall i | 0 <= i < |s'.calls|
      ensures CallInv(s', i)
    {
      assert CallInv(s, i);
    }
  }

  lemma PublishRequestOnce(s: State, i: nat)
    requires Inv(s) && CanStep(s, PublishRequest(i))
    ensures OnceEach(DoStep(s, PublishRequest(i)))
  {
    AwaitedByCall(s, i);
    RequestJoins(s, i);
  }

  lemma RequestJoins(s: State, i: nat)
    requires OnceEach(s) && i < |s.calls| && s.calls[i].progress.Listening?
    requires forall c :: 0 <= c < |s.calls| && c != i ==> s.calls[c].subject != s.calls[i].subject
    requires Awaited(s.schemes, RequestOf(s.calls[i])) == s.calls[i].subject
    ensures OnceEach(DoStep(s, PublishRequest(i)))
  {
    var s' := DoStep(s, PublishRequest(i));
    assert forall c :: 0 <= c < |s.calls| && c != i ==> s'.calls[c] == s.calls[c];
  }

  lemma PublishRequestKeeps(s: State, i: nat)
    requires Inv(s) && CanStep(s, PublishRequest(i))
    ensures Inv(DoStep(s, PublishRequest(i)))
  {
    PublishRequestOnce(s, i);
    assert FromCall(s, RequestOf(s.calls[i]));
    ProgressKeeps(s, DoStep(s, PublishRequest(i)), i);
  }

  lemma RefuseRequestKeeps(s: State, i: nat)
    requires Inv(s) && CanStep(s, RefuseRequest(i))
    ensures Inv(DoStep(s, RefuseRequest(i)))
  {
    var s' := DoStep(s, RefuseRequest(i));
    assert OnceEach(s');
    ProgressKeeps(s, s', i);
  }

  // ---------------------------------------------------------------------------------------------
  // Requests.

  lemma WithoutKeeps<T>(xs: seq<T>, k: nat)
    requires k < |xs|
    ensures forall i :: 0 <= i < |Without(xs, k)| ==> Without(xs, k)[i] == xs[if i < k then i else i + 1]
  {
  }

  // With one request gone, the others are as before, and none of them awaits the same response.
  lemma OnceWithout(s: State, r: nat)
    requires OnceEach(s) && r < |s.requests|
    ensures OnceEach(s.(requests := Without(s.requests, r)))
    ensures forall i :: 0 <= i < |Without(s.requests, r)| ==>
      Awaited(s.schemes, Without(s.requests, r)[i]) != Awaited(s.schemes, s.requests[r])
  {
    WithoutKeeps(s.requests, r);
  }

  lemma LoseRequestKnown(s: State, r: nat)
    requires AllKnown(s) && CanStep(s, LoseRequest(r))
    ensures AllKnown(DoStep(s, LoseRequest(r)))
  {
    WithoutKeeps(s.requests, r);
    AllKnownStays(s, DoStep(s, LoseRequest(r)));
  }

  lemma LoseRequestKeeps(s: State, r: nat)
    requires Inv(s) && CanStep(s, LoseRequest(r))
    ensures Inv(DoStep(s, LoseRequest(r)))
  {
    var s' := DoStep(s, LoseRequest(r));
    OnceWithout(s, r);
    LoseRequestKnown(s, r);
    forall i | 0 <= i < |s'.calls|
      ensures CallInv(s', i)
    {
      assert CallInv(s, i);
    }
  }

  // The handler is a member for the request's link, and its messages arrive where they are awaited.
  lemma TakeRequestPlaced(s: State, r: nat, link: string, resp: Response)
    requires Placed(s) && CanStep(s, TakeRequest(r, link, resp))
    ensures var s' := DoStep(s, TakeRequest(r, link, resp));
      Placed(s') && Destination(s'.handlers[|s.handlers|]) == Awaited(s.schemes, s.requests[r])
  {
    var s' := DoStep(s, TakeRequest(r, link, resp));
    assert Placed(s');
    ArrivesWhereAwaited(s', |s.handlers|);
  }

  lemma TakeRequestOnce(s: State, r: nat, link: string, resp: Response)
    requires Placed(s) && OnceEach(s) && CanStep(s, TakeRequest(r, link, resp))
    ensures OnceEach(DoStep(s, TakeRequest(r, link, resp)))
  {
    OnceWithout(s, r);
    TakeRequestPlaced(s, r, link, resp);
    var without := s.(requests := Without(s.requests, r));
    TakerJoins(without, DoStep(s, TakeRequest(r, link, resp)).handlers[|s.handlers|]);
  }

  lemma TakerJoins(s: State, h: Handler)
    requires OnceEach(s)
    requires forall r :: 0 <= r < |s.requests| ==> Awaited(s.schemes, s.requests[r]) != Destination(h)
    requires forall w :: 0 <= w < |s.handlers| ==> Destination(s.handlers[w]) != Destination(h)
    requires forall c :: 0 <= c < |s.calls| && !s.calls[c].progress.Pumping? ==> s.calls[c].subject != Destination(h)
    ensures OnceEach(s.(handlers := s.handlers + [h]))
  {
  }

  lemma TakeRequestKnown(s: State, r: nat, link: string, resp: Response)
    requires AllKnown(s) && CanStep(s, TakeRequest(r, link, resp))
    ensures AllKnown(DoStep(s, TakeRequest(r, link, resp)))
  {
    WithoutKeeps(s.requests, r);
    assert FromCall(s, s.requests[r]);
    KnownStays(s, DoStep(s, TakeRequest(r, link, resp)));
  }

  // A new handler has published nothing.
  lemma LogForStart(hs: seq<Handler>, h: Handler, subject: string)
    requires h.worker.log == [] && forall i :: 0 <= i < |hs| ==> Destination(hs[i]) != Destination(h)
    ensures LogFor(hs + [h], subject) == LogFor(hs, subject)
  {
    assert (hs + [h])[..|hs|] == hs;
    LogForNobody(hs, Destination(h));
  }

  lemma TakeRequestCall(s: State, r: nat, link: string, resp: Response, i: nat)
    requires Inv(s) && CanStep(s, TakeRequest(r, link, resp)) && i < |s.calls|
    ensures CallInv(DoStep(s, TakeRequest(r, link, resp)), i)
  {
    assert CallInv(s, i);
    TakeRequestPlaced(s, r, link, resp);
    LogForStart(s.handlers, DoStep(s, TakeRequest(r, link, resp)).handlers[|s.handlers|], s.calls[i].subject);
  }

  lemma TakeRequestKeeps(s: State, r: nat, link: string, resp: Response)
    requires Inv(s) && CanStep(s, TakeRequest(r, link, resp))
    ensures Inv(DoStep(s, TakeRequest(r, link, resp)))
  {
    var s' := DoStep(s, TakeRequest(r, link, resp));
    TakeRequestOnce(s, r, link, resp);
    TakeRequestPlaced(s, r, link, resp);
    TakeRequestKnown(s, r, link, resp);
    StartSound(s.requests[r].reply, resp, 0);
    forall i | 0 <= i < |s'.calls|
      ensures CallInv(s', i)
    {
      TakeRequestCall(s, r, link, resp, i);
    }
  }

  // ---------------------------------------------------------------------------------------------
  // Handlers.

  // A longer log keeps the streams, when what it gained is what the wire gained.
  lemma StreamsGrow(h: Hub, log: seq<Message>, pending: seq<Message>, more: seq<Message>)
    requires Streams(h, log, pending)
    ensures Streams(h, log + more, pending + more)
  {
    assert log <= log + more;
    if !h.stage.Closed? && !h.slow {
      assert h.handed + h.queue + (pending + more) == (h.handed + h.queue + pending) + more;
    }
  }

  function Messages(ps: seq<Packet>): seq<Message> {
    seq(|ps|, i requires 0 <= i < |ps| => ps[i].msg)
  }

  // What a step of the handler adds to its log goes out on its own subject, and on no other.
  lemma PublishedOnSubject(h: Handler, v: Verdict, subject: string)
    ensures var after := Tick(h.worker, v);
      && after.log == h.worker.log + Messages(Published(h, after))
      && OnSubject(Published(h, after), subject)
         == if subject == Destination(h) then Messages(Published(h, after)) else []
  {
    var before, after := h.worker, Tick(h.worker, v);
    TickGrows(before, v);
    var ps := Published(h, after);
    if ps != [] {
      assert ps[1..] == [];
      assert after.log[..|before.log|] == before.log;
      assert after.log == after.log[..|before.log|] + [after.log[|before.log|]];
    } else {
      assert after.log == before.log;
    }
  }

  // The message a handler publishes joins the log and the wire of the one call it is for; those of every
  // other call stay as they are.
  lemma EdgeTickStreams(s: State, w: nat, v: Verdict, subject: string)
    requires OnceEach(s) && CanStep(s, EdgeTick(w, v))
    ensures var s' := DoStep(s, EdgeTick(w, v));
      var more := if subject == Destination(s.handlers[w])
        then Messages(Published(s.handlers[w], Tick(s.handlers[w].worker, v))) else [];
      && LogFor(s'.handlers, subject) == LogFor(s.handlers, subject) + more
      && OnSubject(s'.wire, subject) == OnSubject(s.wire, subject) + more
  {
    var h, after := s.handlers[w], Tick(s.handlers[w].worker, v);
    TickGrows(h.worker, v);
    PublishedOnSubject(h, v, subject);
    OnSubjectConcat(s.wire, Published(h, after), subject);
    LogForUpdate(s.handlers, w, h.(worker := after), subject);
    LogForHandler(s.handlers, w);
    assert LogFor(s.handlers, subject) + [] == LogFor(s.handlers, subject);
  }

  lemma EdgeTickCall(s: State, w: nat, v: Verdict, i: nat)
    requires Inv(s) && CanStep(s, EdgeTick(w, v)) && i < |s.calls|
    ensures CallInv(DoStep(s, EdgeTick(w, v)), i)
  {
    assert CallInv(s, i);
    var subject := s.calls[i].subject;
    var more := if subject == Destination(s.handlers[w])
      then Messages(Published(s.handlers[w], Tick(s.handlers[w].worker, v))) else [];
    EdgeTickStreams(s, w, v, subject);
    StreamsGrow(s.calls[i].hub, LogFor(s.handlers, subject), OnSubject(s.wire, subject), more);
  }

  // A handler keeps its place and request, and publishes on no other subject.
  lemma EdgeTickSubjects(s: State, w: nat, v: Verdict)
    requires CanStep(s, EdgeTick(w, v))
    ensures var s' := DoStep(s, EdgeTick(w, v));
      && (forall i :: 0 <= i < |s.handlers| ==>
            && s'.handlers[i].names == s.handlers[i].names && s'.handlers[i].request == s.handlers[i].request
            && s'.handlers[i].worker.reply == s.handlers[i].worker.reply)
      && (forall p :: 0 <= p < |s'.wire| ==>
            s'.wire[p] in s.wire || s'.wire[p].subject == Destination(s.handlers[w]))
  {
    TickGrows(s.handlers[w].worker, v);
  }

  lemma EdgeTickKnown(s: State, w: nat, v: Verdict)
    requires Inv(s) && CanStep(s, EdgeTick(w, v))
    ensures AllKnown(DoStep(s, EdgeTick(w, v)))
  {
    EdgeTickSubjects(s, w, v);
    ArrivesWhereAwaited(s, w);
    AwaitedKnown(s, s.handlers[w].request);
    AllKnownStays(s, DoStep(s, EdgeTick(w, v)));
  }

  lemma EdgeTickOnce(s: State, w: nat, v: Verdict)
    requires OnceEach(s) && CanStep(s, EdgeTick(w, v))
    ensures OnceEach(DoStep(s, EdgeTick(w, v)))
  {
    var s' := DoStep(s, EdgeTick(w, v));
    EdgeTickSubjects(s, w, v);
    assert forall i :: 0 <= i < |s.handlers| ==> Destination(s'.handlers[i]) == Destination(s.handlers[i]);
  }

  lemma EdgeTickKeeps(s: State, w: nat, v: Verdict)
    requires Inv(s) && CanStep(s, EdgeTick(w, v))
    ensures Inv(DoStep(s, EdgeTick(w, v)))
  {
    EdgeTickKnown(s, w, v);
    EdgeTickOnce(s, w, v);
    EdgeTickSubjects(s, w, v);
    TickSound(s.handlers[w].worker, v);
    forall i | 0 <= i < |s.calls|
      ensures CallInv(DoStep(s, EdgeTick(w, v)), i)
    {
      EdgeTickCall(s, w, v, i);
    }
  }

  // ---------------------------------------------------------------------------------------------
  // The hub.

  // Steps that change no more than the hub side of calls, and consume what is on the wire.
  ghost predicate HubsOnly(s: State, s': State) {
    && |s'.calls| == |s.calls| && s'.schemes == s.schemes && s'.requests == s.requests && s'.handlers == s.handlers
    && (forall i :: 0 <= i < |s.calls| ==> s'.calls[i] == s.calls[i].(hub := s'.calls[i].hub))
    && (forall p :: 0 <= p < |s'.wire| ==> s'.wire[p] in s.wire)
  }

  lemma HubsOnlyKeeps(s: State, s': State)
    requires Inv(s) && HubsOnly(s, s')
    ensures Named(s') && Placed(s') && OnceEach(s') && AllKnown(s')
  {
    AllKnownStays(s, s');
    HubsOnlyOnce(s, s');
  }

  lemma HubsOnlyOnce(s: State, s': State)
    requires OnceEach(s) && HubsOnly(s, s')
    ensures OnceEach(s')
  {
  }

  lemma ArrivalStreams(h: Hub, m: Message, full: bool, log: seq<Message>, pending: seq<Message>)
    requires Streams(h, log, [m] + pending)
    ensures Streams(Apply(h, if full && h.queue != [] then Overflow else Arrive(m)), log, pending)
  {
    if !h.stage.Closed? && !h.slow {
      assert h.handed + h.queue + ([m] + pending) == h.handed + (h.queue + [m]) + pending;
      if h.queue != [] {
        assert h.handed + h.queue + ([m] + pending)
            == (h.handed + [h.queue[0]]) + (h.queue[1..] + ([m] + pending));
      }
    }
  }

  // A packet that can be delivered is the next message for one call, and no other call notices.
  lemma OneReceiver(s: State, k: nat, full: bool) returns (i: nat)
    requires Inv(s) && CanStep(s, Deliver(k, full))
    ensures i < |s.calls| && s.calls[i].subject == s.wire[k].subject
    ensures OnSubject(s.wire, s.calls[i].subject)
         == [s.wire[k].msg] + OnSubject(DoStep(s, Deliver(k, full)).wire, s.calls[i].subject)
    ensures forall j :: 0 <= j < |s.calls| && j != i ==>
      && DoStep(s, Deliver(k, full)).calls[j] == s.calls[j]
      && OnSubject(DoStep(s, Deliver(k, full)).wire, s.calls[j].subject) == OnSubject(s.wire, s.calls[j].subject)
  {
    assert KnownSubject(s, s.wire[k].subject);
    i :| 0 <= i < |s.calls| && s.calls[i].subject == s.wire[k].subject;
    OnSubjectWithout(s.wire, k, s.calls[i].subject);
    forall j | 0 <= j < |s.calls| && j != i
      ensures s.calls[j].subject != s.wire[k].subject
      ensures OnSubject(Without(s.wire, k), s.calls[j].subject) == OnSubject(s.wire, s.calls[j].subject)
    {
      assert if i < j then s.calls[i].subject != s.calls[j].subject else s.calls[j].subject != s.calls[i].subject;
      OnSubjectWithout(s.wire, k, s.calls[j].subject);
    }
  }

  lemma ReceiveKeeps(c: Call, p: Packet, full: bool, log: seq<Message>, pending: seq<Message>)
    requires FollowsLoop(c.hub) && Faithful(c.hub) && Streams(c.hub, log, [p.msg] + pending) && p.subject == c.subject
    ensures var h := Receive(c, p, full).hub; FollowsLoop(h) && Faithful(h) && Streams(h, log, pending)
  {
    var step := if full && c.hub.queue != [] then Overflow else Arrive(p.msg);
    StepFollows(c.hub, step);
    StepFaithful(c.hub, step);
    ArrivalStreams(c.hub, p.msg, full, log, pending);
  }

  lemma DeliverCall(s: State, k: nat, full: bool, i: nat)
    requires Inv(s) && CanStep(s, Deliver(k, full)) && i < |s.calls|
    ensures CallInv(DoStep(s, Deliver(k, full)), i)
  {
    assert CallInv(s, i);
    var s', subject := DoStep(s, Deliver(k, full)), s.calls[i].subject;
    OnSubjectWithout(s.wire, k, subject);
    assert s'.calls[i] == Receive(s.calls[i], s.wire[k], full) && s'.wire == Without(s.wire, k);
    if s.wire[k].subject != subject {
      assert [] + OnSubject(s'.wire, subject) == OnSubject(s'.wire, subject);
    } else {
      ReceiveKeeps(s.calls[i], s.wire[k], full, LogFor(s.handlers, subject), OnSubject(Without(s.wire, k), subject));
    }
  }

  lemma DeliverKeeps(s: State, k: nat, full: bool)
    requires Inv(s) && CanStep(s, Deliver(k, full))
    ensures Inv(DoStep(s, Deliver(k, full)))
  {
    var s' := DoStep(s, Deliver(k, full));
    WithoutKeeps(s.wire, k);
    HubsOnlyKeeps(s, s');
    forall i | 0 <= i < |s'.calls|
      ensures CallInv(s', i)
    {
      DeliverCall(s, k, full, i);
    }
  }

  lemma HubStreams(h: Hub, step: Step, log: seq<Message>, pending: seq<Message>)
    requires Enabled(h, step) && !step.Arrive? && !step.Overflow?
    requires Streams(h, log, pending)
    ensures Streams(Apply(h, step), log, pending)
  {
    if step.Take? {
      assert h.handed + h.queue + pending == (h.handed + [h.queue[0]]) + h.queue[1..] + pending;
      if !h.slow {
        assert h.handed + h.queue + pending == (h.handed + [h.queue[0]]) + (h.queue[1..] + pending);
      }
    }
  }

  lemma HubStepCall(s: State, i: nat, step: Step, j: nat)
    requires Inv(s) && CanStep(s, HubStep(i, step)) && j < |s.calls|
    ensures CallInv(DoStep(s, HubStep(i, step)), j)
  {
    assert CallInv(s, j);
    if j == i {
      var c := s.calls[i];
      StepFollows(c.hub, step);
      StepFaithful(c.hub, step);
      HubStreams(c.hub, step, LogFor(s.handlers, c.subject), OnSubject(s.wire, c.subject));
    }
  }

  lemma HubStepKeeps(s: State, i: nat, step: Step)
    requires Inv(s) && CanStep(s, HubStep(i, step))
    ensures Inv(DoStep(s, HubStep(i, step)))
  {
    HubsOnlyKeeps(s, DoStep(s, HubStep(i, step)));
    forall j | 0 <= j < |s.calls|
      ensures CallInv(DoStep(s, HubStep(i, step)), j)
    {
      HubStepCall(s, i, step, j);
    }
  }

  lemma StepKeepsInv(s: State, l: Label)
    requires Inv(s) && CanStep(s, l)
    ensures Inv(DoStep(s, l))
  {
    match l {
      case Subscribe(link, uid, data) => SubscribeKeeps(s, link, uid, data);
      case PublishRequest(i) => PublishRequestKeeps(s, i);
      case RefuseRequest(i) => RefuseRequestKeeps(s, i);
      case TakeRequest(r, link, resp) => TakeRequestKeeps(s, r, link, resp);
      case LoseRequest(r) => LoseRequestKeeps(s, r);
      case EdgeTick(w, v) => EdgeTickKeeps(s, w, v);
      case Deliver(k, full) => DeliverKeeps(s, k, full);
      case HubStep(i, step) => HubStepKeeps(s, i, step);
    }
  }

  lemma {:induction false} ReachableInv(schemes: string -> Scheme, labels: seq<Label>)
    requires After(schemes, labels).Some?
    ensures Inv(After(schemes, labels).value) && After(schemes, labels).value.schemes == schemes
  {
    if labels == [] {
      InitialInv(schemes);
    } else {
      var before := labels[..|labels| - 1];
      ReachableInv(schemes, before);
      StepKeepsInv(After(schemes, before).value, labels[|labels| - 1]);
    }
  }
}
