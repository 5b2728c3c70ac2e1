// Every schedule of the pump and a draining reader, and how it ends.
module Schedules {
  import opened Prelude
  import opened Wire
  import opened EdgeWorker
  import opened Pump
  import opened PumpSteps

  // A step of the loop, or a read by a reader that drains the pipe. Nothing fails and nobody hangs up.
  predicate Drains(s: Step) {
    s.Check? || s.Expire? || s.Take? || (s.Read? && s.size > 0)
  }

  function Play(h: Hub, steps: seq<Step>): Option<Hub>
    decreases |steps|
  {
    if steps == [] then Some(h)
    else if Enabled(h, steps[0]) then Play(Apply(h, steps[0]), steps[1..])
    else None
  }

  function Expiries(steps: seq<Step>): nat {
    if steps == [] then 0 else (if steps[0].Expire? then 1 else 0) + Expiries(steps[1..])
  }

  // No schedule goes on for ever: apart from timeouts, each step uses up work, and a timeout adds one.
  lemma {:induction false} ScheduleEnds(h: Hub, steps: seq<Step>)
    requires Play(h, steps).Some? && forall step :: step in steps ==> Drains(step)
    ensures |steps| + Work(Play(h, steps).value) <= Work(h) + 2 * Expiries(steps)
    decreases |steps|
  {
    if steps != [] {
      assert Drains(steps[0]);
      if !steps[0].Expire? {
        ProductiveStepsShrink(h, steps[0]);
      }
      ScheduleEnds(Apply(h, steps[0]), steps[1..]);
    }
  }

  // The step that makes progress in a stage.
  function Next(s: Stage): Step
    requires !s.Closed?
  {
    match s
    case Waiting => Check
    case Receiving => Take
    case Piping(_, _) => Read(1)
  }

  // And none gets stuck before the end, if a Done message is coming.
  lemma NeverStuck(h: Hub)
    requires FollowsLoop(h) && DoneComing(h) && !h.stage.Closed?
    ensures Drains(Next(h.stage)) && Productive(Next(h.stage)) && Enabled(h, Next(h.stage))
  {
  }

  // What a hub keeps along a schedule: the loop is followed, no message lost or made up while the pipe is
  // open, and if it is closed, it was closed by a Done text.
  ghost predicate OnCourse(h: Hub, all: seq<Message>) {
    && FollowsLoop(h) && Faithful(h) && ClosedByDone(h) && !h.slow
    && h.handed <= all && (!h.stage.Closed? ==> h.handed + h.queue == all)
  }

  lemma {:induction false} ScheduleKeeps(h: Hub, steps: seq<Step>, all: seq<Message>)
    requires OnCourse(h, all) && Play(h, steps).Some? && forall step :: step in steps ==> Drains(step)
    ensures OnCourse(Play(h, steps).value, all)
    decreases |steps|
  {
    if steps != [] {
      var s := steps[0];
      assert Drains(s);
      StepFollows(h, s);
      StepFaithful(h, s);
      StepClosedByDone(h, s);
      StepKeepsMessages(h, s);
      ScheduleKeeps(Apply(h, s), steps[1..], all);
    }
  }

  // A message with a Done header is coming as long as one is among all and the pipe is open.
  lemma StillComing(h: Hub, all: seq<Message>)
    requires OnCourse(h, all) && !NoDone(all) && !h.stage.Closed?
    ensures DoneComing(h)
  {
    var i :| 0 <= i < |all| && all[i].done.Some?;
    if i < |h.handed| {
      assert h.handed[i].done.Some?;
    } else {
      assert h.queue[i - |h.handed|].done.Some?;
    }
  }

  // How the reader's end of the pipe looks once the loop is over, given how the worker ended.
  predicate Shown(h: Hub, w: Worker)
    requires w.phase.Ended?
  {
    match w.phase.how
    case Silent => false
    case Complete => h.stage == Closed(Clean) && h.got == Whole(w.resp.ops)
    case Reported(text) =>
      && h.stage == Closed(if IsBlank(text) then Clean else Failure(HeaderValue(text)))
      && h.got == Payload(w.log)
  }

  // A pipe closed by a Done text shows exactly that worker's ending.
  lemma ClosedShows(h: Hub, w: Worker)
    requires h.stage.Closed? && ClosedByDone(h) && Sound(w) && h.handed <= w.log
    ensures w.phase.Ended? && Shown(h, w) && h.handed == w.log
  {
    var last := |h.handed| - 1;
    assert w.log[last] == h.handed[last] && w.log[last].done.Some?;
    assert w.phase.Ended? && !w.phase.how.Silent?;
    assert last == |w.log| - 1 && h.handed == w.log;
    if w.phase.Ended? && w.phase.how.Reported? {
      HeaderValueEmpty(w.phase.how.text);
    }
  }

  // Every schedule after the worker has ended and all it published has arrived. It is bounded. If the
  // last publish was refused, the pipe stays open whatever happens. Otherwise the schedule can go on
  // until the pipe is closed, and then the reader has all that was published and sees the ending.
  ghost predicate Outcome(h: Hub, steps: seq<Step>, w: Worker)
    requires w.phase.Ended? && Play(h, steps).Some?
  {
    var h' := Play(h, steps).value;
    && |steps| + Work(h') <= Work(h) + 2 * Expiries(steps)
    && (w.phase.how.Silent? ==> !h'.stage.Closed?)
    && (!w.phase.how.Silent? && !h'.stage.Closed? ==> Enabled(h', Next(h'.stage)) && Productive(Next(h'.stage)))
    && (h'.stage.Closed? ==> Shown(h', w))
  }

  lemma EverySchedule(h: Hub, steps: seq<Step>, w: Worker)
    requires Sound(w) && w.phase.Ended? && OnCourse(h, w.log)
    requires Play(h, steps).Some? && forall step :: step in steps ==> Drains(step)
    ensures Outcome(h, steps, w)
  {
    var h' := Play(h, steps).value;
    ScheduleEnds(h, steps);
    ScheduleKeeps(h, steps, w.log);
    if h'.stage.Closed? {
      ClosedShows(h', w);
    } else if !w.phase.how.Silent? {
      assert w.log[|w.log| - 1].done.Some?;
      StillComing(h', w.log);
      NeverStuck(h');
    }
  }
}
