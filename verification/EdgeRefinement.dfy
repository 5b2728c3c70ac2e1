// Handlers that share pooled writers do what the tunnel's handlers do, each of which has a worker of its
// own: every run of the former is matched, step by step, by steps of the latter.
module EdgeRefinement {
  import opened Prelude
  import opened Wire
  import opened Subjects
  import opened EdgeWorker
  import HandlerRuns
  import opened Protocol

  // ---------------------------------------------------------------------------------------------
  // The tunnel's handlers.

  // How the steps of handler w were answered.
  function VerdictsFor(labels: seq<Label>, w: nat): seq<Verdict> {
    if labels == [] then []
    else
      var l := labels[|labels| - 1];
      VerdictsFor(labels[..|labels| - 1], w) + if l.EdgeTick? && l.handler == w then [l.verdict] else []
  }

  lemma {:induction false} NoVerdictsYet(schemes: string -> Scheme, labels: seq<Label>, w: nat)
    requires After(schemes, labels).Some? && w >= |After(schemes, labels).value.handlers|
    ensures VerdictsFor(labels, w) == []
  {
    if labels != [] {
      NoVerdictsYet(schemes, labels[..|labels| - 1], w);
    }
  }

  lemma TicksAppend(start: Worker, vs: seq<Verdict>, v: Verdict)
    ensures Ticks(start, vs + [v]) == Tick(Ticks(start, vs), v)
  {
    assert (vs + [v])[..|vs|] == vs;
  }

  ghost predicate IsTicks(h: Handler, vs: seq<Verdict>) {
    h.worker == Ticks(Start(h.request.reply, h.worker.resp, 0), vs)
  }

  lemma StepIsTicks(s: State, l: Label, w: nat, vs: seq<Verdict>)
    requires CanStep(s, l) && w < |s.handlers| && IsTicks(s.handlers[w], vs)
    ensures IsTicks(DoStep(s, l).handlers[w], vs + if l.EdgeTick? && l.handler == w then [l.verdict] else [])
  {
    var h := s.handlers[w];
    if l.EdgeTick? && l.handler == w {
      TickGrows(h.worker, l.verdict);
      TicksAppend(Start(h.request.reply, h.worker.resp, 0), vs, l.verdict);
    } else {
      assert vs + [] == vs && DoStep(s, l).handlers[w] == h;
    }
  }

  // In every run a handler is a worker for its request, after as many steps as the run has for it.
  lemma {:induction false} HandlerIsTicks(schemes: string -> Scheme, labels: seq<Label>, w: nat)
    requires After(schemes, labels).Some? && w < |After(schemes, labels).value.handlers|
    ensures IsTicks(After(schemes, labels).value.handlers[w], VerdictsFor(labels, w))
  {
    if labels != [] {
      var before, l := labels[..|labels| - 1], labels[|labels| - 1];
      var s := After(schemes, before).value;
      if w < |s.handlers| {
        HandlerIsTicks(schemes, before, w);
        StepIsTicks(s, l, w, VerdictsFor(before, w));
      } else {
        NoVerdictsYet(schemes, before, w);
        assert VerdictsFor(labels, w) == [];
      }
    }
  }

  // So a handler with a shared writer, in any run of its own, and a handler of the tunnel, in any run of
  // that, have published the same if they have the same request and response and were answered the same.
  lemma SamePublished(edge: seq<HandlerRuns.Label>, c: nat, schemes: string -> Scheme, labels: seq<Label>, w: nat)
    requires After(schemes, labels).Some? && w < |After(schemes, labels).value.handlers|
    ensures HandlerRuns.After(edge).Some? && c in HandlerRuns.After(edge).value.callers ==>
      var caller := HandlerRuns.After(edge).value.callers[c];
      var h := After(schemes, labels).value.handlers[w];
      caller.job == Job(h.request.reply, h.worker.resp) && caller.verdicts == VerdictsFor(labels, w) ==>
        && HandlerRuns.Alone(caller) == h.worker
        && OnSubject(HandlerRuns.After(edge).value.log, h.request.reply) == h.worker.log
  {
    HandlerRuns.EachAsAlone(edge);
    HandlerIsTicks(schemes, labels, w);
    if HandlerRuns.After(edge).Some? && c in HandlerRuns.After(edge).value.callers {
      assert HandlerRuns.PublishesAsAlone(HandlerRuns.After(edge).value, c);
    }
  }

  // ---------------------------------------------------------------------------------------------
  // Step by step.

  // Each handler with a shared writer has its own handler in the tunnel, at the same point.
  ghost predicate Mirrors(hs: HandlerRuns.State, s: State, at: map<nat, nat>) {
    && at.Keys == hs.callers.Keys
    && (forall c :: c in at ==>
          at[c] < |s.handlers| && s.handlers[at[c]].worker == HandlerRuns.Alone(hs.callers[c])
          && s.handlers[at[c]].request.reply == hs.callers[c].job.reply)
    && (forall c, d :: c in at && d in at && c != d ==> at[c] != at[d])
  }

  lemma MirrorsStay(hs: HandlerRuns.State, hs': HandlerRuns.State, s: State, at: map<nat, nat>)
    requires Mirrors(hs, s, at) && hs'.callers.Keys == hs.callers.Keys
    requires forall c :: c in hs.callers ==>
      hs'.callers[c].job == hs.callers[c].job && hs'.callers[c].verdicts == hs.callers[c].verdicts
    ensures Mirrors(hs', s, at)
  {
  }

  lemma MirrorsTick(hs: HandlerRuns.State, hs': HandlerRuns.State, s: State, at: map<nat, nat>, c: nat, v: Verdict)
    requires Mirrors(hs, s, at) && c in hs.callers && c in hs'.callers
    requires hs'.callers == hs.callers[c := hs'.callers[c]] && hs'.callers[c].job == hs.callers[c].job
    requires HandlerRuns.Alone(hs'.callers[c]) == Tick(HandlerRuns.Alone(hs.callers[c]), v)
    ensures CanStep(s, EdgeTick(at[c], v)) && Mirrors(hs', DoStep(s, EdgeTick(at[c], v)), at)
  {
    var s' := DoStep(s, EdgeTick(at[c], v));
    assert forall w :: 0 <= w < |s.handlers| && w != at[c] ==> s'.handlers[w] == s.handlers[w];
    assert forall d :: d in at && d != c ==> hs'.callers[d] == hs.callers[d] && at[d] != at[c];
  }

  // What a step adds to the connection of the edge, the tunnel's step adds to its wire, under the subject as
  // the hub sees it.
  lemma WorkMirrored(hs: HandlerRuns.State, s: State, at: map<nat, nat>, c: nat, v: Verdict,
                     leftover: HandlerRuns.Writer) returns (more: seq<Message>)
    requires HandlerRuns.Inv(hs) && Mirrors(hs, s, at) && HandlerRuns.CanStep(hs, HandlerRuns.Work(c, v, leftover))
    ensures CanStep(s, EdgeTick(at[c], v))
    ensures var hs', s' := HandlerRuns.WorkOf(hs, c, v, leftover), DoStep(s, EdgeTick(at[c], v));
      && Mirrors(hs', s', at)
      && hs'.log == hs.log + Addressed(hs.callers[c].job.reply, more)
      && s'.wire == s.wire + Addressed(Destination(s.handlers[at[c]]), more)
  {
    var caller, h := hs.callers[c], s.handlers[at[c]];
    var after := Tick(h.worker, v);
    TickGrows(h.worker, v);
    more := after.log[|h.worker.log|..];
    WorkLog(hs, c, v, leftover);
    HandlerRuns.WorkIsTick(hs, c, v, leftover);
    MirrorsTick(hs, HandlerRuns.WorkOf(hs, c, v, leftover), s, at, c, v);
    PublishedAddressed(h, after);
  }

  lemma WorkLog(hs: HandlerRuns.State, c: nat, v: Verdict, leftover: HandlerRuns.Writer)
    requires HandlerRuns.Inv(hs) && HandlerRuns.CanStep(hs, HandlerRuns.Work(c, v, leftover))
    ensures var alone := HandlerRuns.Alone(hs.callers[c]);
      && alone.log <= Tick(alone, v).log
      && HandlerRuns.WorkOf(hs, c, v, leftover).log
         == hs.log + Addressed(hs.callers[c].job.reply, Tick(alone, v).log[|alone.log|..])
  {
    var caller, wr := hs.callers[c], hs.writers[hs.pool.held[c]];
    assert HandlerRuns.AsAlone(caller, wr, OnSubject(hs.log, caller.job.reply));
    TickGrows(HandlerRuns.Alone(caller), v);
  }

  lemma PublishedAddressed(h: Handler, after: Worker)
    requires h.worker.log <= after.log && |after.log| <= |h.worker.log| + 1
    ensures Published(h, after) == Addressed(Destination(h), after.log[|h.worker.log|..])
  {
  }

  lemma NoVerdictsBeforeAttaching(hs: HandlerRuns.State, c: nat)
    requires HandlerRuns.Inv(hs) && HandlerRuns.CanStep(hs, HandlerRuns.Attach(c))
    ensures hs.callers[c].verdicts == []
  {
    assert HandlerRuns.AsAlone(hs.callers[c], hs.writers[hs.pool.held[c]],
                               OnSubject(hs.log, hs.callers[c].job.reply));
  }

  // Attaching and putting back writers, and dropping free ones, are no steps of the tunnel.
  lemma OthersMirrored(hs: HandlerRuns.State, s: State, at: map<nat, nat>, l: HandlerRuns.Label)
    requires HandlerRuns.Inv(hs) && Mirrors(hs, s, at) && HandlerRuns.CanStep(hs, l) && !l.Begin? && !l.Work?
    ensures Mirrors(HandlerRuns.DoStep(hs, l), s, at) && HandlerRuns.DoStep(hs, l).log == hs.log
  {
    if l.Attach? {
      NoVerdictsBeforeAttaching(hs, l.call);
    }
    OthersKeepCallers(hs, l);
    MirrorsStay(hs, HandlerRuns.DoStep(hs, l), s, at);
  }

  lemma OthersKeepCallers(hs: HandlerRuns.State, l: HandlerRuns.Label)
    requires HandlerRuns.Wellformed(hs) && HandlerRuns.CanStep(hs, l) && !l.Begin? && !l.Work?
    requires l.Attach? ==> hs.callers[l.call].verdicts == []
    ensures var hs' := HandlerRuns.DoStep(hs, l);
      && hs'.log == hs.log && hs'.callers.Keys == hs.callers.Keys
      && forall c :: c in hs.callers ==>
           hs'.callers[c].job == hs.callers[c].job && hs'.callers[c].verdicts == hs.callers[c].verdicts
  {
  }

  // A handler begins when the tunnel's queue group gives it a request.
  lemma BeginMirrored(hs: HandlerRuns.State, s: State, at: map<nat, nat>, c: nat, job: Job, index: nat,
                      r: nat, link: string)
    requires HandlerRuns.Inv(hs) && Mirrors(hs, s, at) && HandlerRuns.CanStep(hs, HandlerRuns.Begin(c, job, index))
    requires CanStep(s, TakeRequest(r, link, job.resp)) && s.requests[r].reply == job.reply
    ensures Mirrors(HandlerRuns.DoStep(hs, HandlerRuns.Begin(c, job, index)),
                    DoStep(s, TakeRequest(r, link, job.resp)), at[c := |s.handlers|])
  {
  }
}
