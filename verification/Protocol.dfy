// The whole tunnel as a step system: any number of calls at one hub, for any number of links; any
// number of request handlers at the edge of each link; and their messages on the way to the hub.
module Protocol {
  import opened Prelude
  import opened Wire
  import opened Subjects
  import opened EdgeWorker
  import opened PumpSteps

  // Listening: subscribed, the request not yet published. Aborted: publishing it was refused.
  datatype Progress = Listening | Pumping | Aborted

  // data is the envelope, as published.
  datatype Call = Call(
    names: Names, uid: Uid, subject: string, reply: string, data: seq<byte>, progress: Progress, hub: Hub)

  // subject is the one the hub publishes the request on.
  datatype Request = Request(subject: string, reply: string, data: seq<byte>)

  datatype Handler = Handler(names: Names, request: Request, worker: Worker)

  datatype State = State(
    schemes: string -> Scheme,  // the naming scheme of each link
    calls: seq<Call>,
    requests: seq<Request>,     // published and not yet taken
    handlers: seq<Handler>,     // one for each request taken by a member of its link's queue group
    wire: seq<Packet>           // published by an edge and not yet delivered, the subject as the hub sees it
  )

  datatype Label =
    | Subscribe(link: string, uid: Uid, data: seq<byte>)
    | PublishRequest(call: nat)
    | RefuseRequest(call: nat)
    | TakeRequest(request: nat, link: string, resp: Response)  // a member for the link takes it
    | LoseRequest(request: nat)
    | EdgeTick(handler: nat, verdict: Verdict)
    | Deliver(packet: nat, full: bool)                         // full: so is the queue, and it is dropped
    | HubStep(call: nat, step: Step)

  function Home(schemes: string -> Scheme, link: string): Names {
    Names(schemes(link), link)
  }

  function Initial(schemes: string -> Scheme): State {
    State(schemes, [], [], [], [])
  }

  // A request goes to members that listen where its subject leads. Packets on one subject come from one
  // connection, which keeps them in order; across subjects they may overtake each other.
  predicate CanStep(s: State, l: Label) {
    match l
    case Subscribe(link, uid, _) =>
      forall i :: 0 <= i < |s.calls| ==> s.calls[i].names.linkID != link || s.calls[i].uid != uid
    case PublishRequest(i) => i < |s.calls| && s.calls[i].progress.Listening?
    case RefuseRequest(i) => i < |s.calls| && s.calls[i].progress.Listening?
    case TakeRequest(r, link, _) =>
      var edge := Home(s.schemes, link);
      r < |s.requests| && ReachesEdge(edge, s.requests[r].subject, HandlerSubjects(edge).edge)
    case LoseRequest(r) => r < |s.requests|
    case EdgeTick(w, _) => w < |s.handlers|
    case Deliver(k, _) => k < |s.wire| && forall j :: 0 <= j < k ==> s.wire[j].subject != s.wire[k].subject
    case HubStep(i, step) =>
      i < |s.calls| && s.calls[i].progress.Pumping? && !step.Arrive? && !step.Overflow? && Enabled(s.calls[i].hub, step)
  }

  function RequestOf(c: Call): Request {
    Request(HandlerSubjects(c.names).hub, c.reply, c.data)
  }

  // Where the handler's messages arrive at the hub.
  function Destination(h: Handler): string {
    Imported(h.names, h.worker.reply)
  }

  // A subscription gets every message on its subject.
  function Receive(c: Call, p: Packet, full: bool): Call {
    if p.subject != c.subject then c
    else if full && c.hub.queue != [] then c.(hub := Apply(c.hub, Overflow))
    else c.(hub := Apply(c.hub, Arrive(p.msg)))
  }

  function Published(before: Handler, after: Worker): seq<Packet> {
    if |before.worker.log| < |after.log| then [Packet(Destination(before), after.log[|after.log| - 1])] else []
  }

  function DoStep(s: State, l: Label): State
    requires CanStep(s, l)
  {
    match l
    case Subscribe(link, uid, data) =>
      var names := Home(s.schemes, link);
      var subjects := ResponseSubjects(names, uid);
      s.(calls := s.calls + [Call(names, uid, subjects.hub, subjects.edge, data, Listening, FRESH)])
    case PublishRequest(i) =>
      s.(calls := s.calls[i := s.calls[i].(progress := Pumping)], requests := s.requests + [RequestOf(s.calls[i])])
    case RefuseRequest(i) =>
      s.(calls := s.calls[i := s.calls[i].(progress := Aborted)])
    case TakeRequest(r, link, resp) =>
      var request := s.requests[r];
      s.(requests := Without(s.requests, r),
         handlers := s.handlers + [Handler(Home(s.schemes, link), request, Start(request.reply, resp, 0))])
    case LoseRequest(r) =>
      s.(requests := Without(s.requests, r))
    case EdgeTick(w, v) =>
      var after := Tick(s.handlers[w].worker, v);
      s.(handlers := s.handlers[w := s.handlers[w].(worker := after)], wire := s.wire + Published(s.handlers[w], after))
    case Deliver(k, full) =>
      s.(wire := Without(s.wire, k),
         calls := seq(|s.calls|, i requires 0 <= i < |s.calls| => Receive(s.calls[i], s.wire[k], full)))
    case HubStep(i, step) =>
      s.(calls := s.calls[i := s.calls[i].(hub := Apply(s.calls[i].hub, step))])
  }

  // The state after a run, if every step of it is possible.
  function After(schemes: string -> Scheme, labels: seq<Label>): Option<State> {
    if labels == [] then Some(Initial(schemes))
    else
      match After(schemes, labels[..|labels| - 1])
      case None => None
      case Some(s) => if CanStep(s, labels[|labels| - 1]) then Some(DoStep(s, labels[|labels| - 1])) else None
  }

  lemma AfterAppend(schemes: string -> Scheme, labels: seq<Label>, l: Label)
    requires After(schemes, labels).Some? && CanStep(After(schemes, labels).value, l)
    ensures After(schemes, labels + [l]) == Some(DoStep(After(schemes, labels).value, l))
  {
    assert (labels + [l])[..|labels|] == labels;
  }

  // ---------------------------------------------------------------------------------------------
  // What every step keeps.

  // Where the response to a request arrives.
  function Awaited(schemes: string -> Scheme, r: Request): string {
    Imported(Home(schemes, LinkOf(r.subject)), r.reply)
  }

  ghost predicate KnownSubject(s: State, subject: string) {
    exists i :: 0 <= i < |s.calls| && s.calls[i].subject == subject
  }

  ghost predicate FromCall(s: State, r: Request) {
    exists i :: 0 <= i < |s.calls| && r == RequestOf(s.calls[i])
  }

  // Calls have the subjects of their link and request ID, and no two listen on the same one.
  ghost predicate Named(s: State) {
    && (forall i :: 0 <= i < |s.calls| ==>
          var c := s.calls[i];
          && c.names == Home(s.schemes, c.names.linkID)
          && c.subject == ResponseSubjects(c.names, c.uid).hub && c.reply == ResponseSubjects(c.names, c.uid).edge)
    && (forall i, j :: 0 <= i < j < |s.calls| ==> s.calls[i].subject != s.calls[j].subject)
  }

  // Handlers are members for the link their request was published for.
  ghost predicate Placed(s: State) {
    forall w :: 0 <= w < |s.handlers| ==>
      var h := s.handlers[w];
      && h.names == Home(s.schemes, h.names.linkID)
      && ReachesEdge(h.names, h.request.subject, HandlerSubjects(h.names).edge)
      && h.worker.reply == h.request.reply
  }

  // A response is awaited by at most one request on its way or one handler, and only for a call that has
  // published its request.
  ghost predicate OnceEach(s: State) {
    && (forall i, j :: 0 <= i < j < |s.requests| ==>
          Awaited(s.schemes, s.requests[i]) != Awaited(s.schemes, s.requests[j]))
    && (forall i, j :: 0 <= i < j < |s.handlers| ==> Destination(s.handlers[i]) != Destination(s.handlers[j]))
    && (forall i, j :: 0 <= i < |s.requests| && 0 <= j < |s.handlers| ==>
          Awaited(s.schemes, s.requests[i]) != Destination(s.handlers[j]))
    && (forall c :: 0 <= c < |s.calls| && !s.calls[c].progress.Pumping? ==>
          (forall r :: 0 <= r < |s.requests| ==> Awaited(s.schemes, s.requests[r]) != s.calls[c].subject)
          && (forall w :: 0 <= w < |s.handlers| ==> Destination(s.handlers[w]) != s.calls[c].subject))
  }

  // Every request, taken or not, is one that a call published; every packet is for a call.
  ghost predicate AllKnown(s: State) {
    && (forall r :: 0 <= r < |s.requests| ==> FromCall(s, s.requests[r]))
    && (forall w :: 0 <= w < |s.handlers| ==> FromCall(s, s.handlers[w].request))
    && (forall p :: 0 <= p < |s.wire| ==> KnownSubject(s, s.wire[p].subject))
  }

  function LogFor(hs: seq<Handler>, subject: string): seq<Message> {
    if hs == [] then []
    else if Destination(hs[|hs| - 1]) == subject then hs[|hs| - 1].worker.log
    else LogFor(hs[..|hs| - 1], subject)
  }

  // What a call has and will get is its handler's log, in order: handed to the pump, queued, on the
  // wire. A drop ends the agreement, but the pump takes at most one more message, and that is the next.
  ghost predicate Streams(h: Hub, log: seq<Message>, pending: seq<Message>) {
    && h.handed <= log
    && (!h.stage.Closed? && !h.slow ==> h.handed + h.queue + pending == log)
    && (h.slow && h.stage.Receiving? ==> h.queue != [] && h.handed + [h.queue[0]] <= log)
  }

  ghost predicate CallInv(s: State, i: nat)
    requires i < |s.calls|
  {
    var c := s.calls[i];
    && FollowsLoop(c.hub) && Faithful(c.hub)
    && Streams(c.hub, LogFor(s.handlers, c.subject), OnSubject(s.wire, c.subject))
  }

  ghost predicate Inv(s: State) {
    && Named(s) && Placed(s) && OnceEach(s) && AllKnown(s)
    && (forall w :: 0 <= w < |s.handlers| ==> Sound(s.handlers[w].worker))
    && (forall i :: 0 <= i < |s.calls| ==> CallInv(s, i))
  }

  // ---------------------------------------------------------------------------------------------
  // Subjects.

  // The response to a call's request is awaited where the call listens, and nowhere else.
  lemma AwaitedByCall(s: State, i: nat)
    requires Named(s) && i < |s.calls|
    ensures Awaited(s.schemes, RequestOf(s.calls[i])) == s.calls[i].subject
  {
    LinkOfHandler(s.calls[i].names);
    ImportedResponse(s.calls[i].names, s.calls[i].uid);
  }

  // A handler's messages arrive where the response to its request is awaited.
  lemma ArrivesWhereAwaited(s: State, w: nat)
    requires Placed(s) && w < |s.handlers|
    ensures Destination(s.handlers[w]) == Awaited(s.schemes, s.handlers[w].request)
  {
    RequestReachesExactly(s.handlers[w].names, s.handlers[w].request.subject);
    LinkOfHandler(s.handlers[w].names);
  }

  // ---------------------------------------------------------------------------------------------
  // The logs of the handlers.

  lemma {:induction false} LogForHandler(hs: seq<Handler>, w: nat)
    requires w < |hs|
    requires forall i, j :: 0 <= i < j < |hs| ==> Destination(hs[i]) != Destination(hs[j])
    ensures LogFor(hs, Destination(hs[w])) == hs[w].worker.log
  {
    if w < |hs| - 1 {
      LogForHandler(hs[..|hs| - 1], w);
    }
  }

  lemma {:induction false} LogForNobody(hs: seq<Handler>, subject: string)
    requires forall i :: 0 <= i < |hs| ==> Destination(hs[i]) != subject
    ensures LogFor(hs, subject) == []
  {
    if hs != [] {
      LogForNobody(hs[..|hs| - 1], subject);
    }
  }

  lemma {:induction false} LogForUpdate(hs: seq<Handler>, w: nat, h: Handler, subject: string)
    requires w < |hs| && Destination(h) == Destination(hs[w])
    requires forall i, j :: 0 <= i < j < |hs| ==> Destination(hs[i]) != Destination(hs[j])
    ensures LogFor(hs[w := h], subject) == if subject == Destination(h) then h.worker.log else LogFor(hs, subject)
  {
    var last := |hs| - 1;
    if w < last {
      assert hs[w := h][..last] == hs[..last][w := h];
      LogForUpdate(hs[..last], w, h, subject);
    } else {
      assert hs[w := h][..last] == hs[..last];
    }
  }
}
