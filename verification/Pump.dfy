// The hub's pump: a goroutine that moves the messages of one reply subscription into a pipe until the
// Done header, an error, or a reader that went away.
module Pump {
  import opened Prelude
  import opened Wire
  import opened EdgeWorker

  datatype Outcome = Clean | Failure(text: string)

  const CLOSED_PIPE: string := "io: read/write on closed pipe"
  const SLOW_CONSUMER: string := "nats: slow consumer, messages dropped"

  // What one turn of the loop meets. A message is written to the pipe: the write returns when all its
  // bytes are read, or fails when the reader closes, broken then being the number of bytes it had read.
  datatype Event =
    | Timeout
    | SubError(text: string)
    | Delivered(msg: Message, broken: Option<nat>)

  datatype Pumped = Pumped(bytes: seq<byte>, closed: Option<Outcome>)

  predicate WellFormed(e: Event) {
    e.Delivered? && e.broken.Some? ==> e.broken.value <= |e.msg.data|
  }

  // How an event ends the loop, if it does.
  function Closes(e: Event): Option<Outcome> {
    match e
    case Timeout => None
    case SubError(text) => Some(Failure(text))
    case Delivered(msg, Some(_)) => Some(Failure(CLOSED_PIPE))
    case Delivered(msg, None) =>
      match msg.done
      case None => None
      case Some(text) => if text != "" then Some(Failure(text)) else Some(Clean)
  }

  function Bytes(e: Event): seq<byte>
    requires WellFormed(e)
  {
    match e
    case Delivered(msg, None) => msg.data
    case Delivered(msg, Some(k)) => msg.data[..k]
    case _ => []
  }

  // The loop over a list of events: what reaches the reader, and how the pipe is closed if it is.
  function PumpRun(events: seq<Event>): Pumped
    requires forall e :: e in events ==> WellFormed(e)
  {
    if events == [] then Pumped([], None)
    else
      var before := PumpRun(events[..|events| - 1]);
      if before.closed.Some? then before
      else Pumped(before.bytes + Bytes(events[|events| - 1]), Closes(events[|events| - 1]))
  }

  lemma PumpRunAppend(events: seq<Event>, e: Event)
    requires WellFormed(e) && forall x :: x in events ==> WellFormed(x)
    ensures PumpRun(events + [e]) ==
      if PumpRun(events).closed.Some? then PumpRun(events)
      else Pumped(PumpRun(events).bytes + Bytes(e), Closes(e))
  {
    assert (events + [e])[..|events|] == events;
  }

  lemma {:induction false} PumpRunAbsorbs(a: seq<Event>, b: seq<Event>)
    requires forall e :: e in a + b ==> WellFormed(e)
    requires PumpRun(a).closed.Some?
    ensures PumpRun(a + b) == PumpRun(a)
  {
    if b == [] {
      assert a + b == a;
    } else {
      var b' := b[..|b| - 1];
      assert a + b == (a + b') + [b[|b| - 1]];
      PumpRunAbsorbs(a, b');
      PumpRunAppend(a + b', b[|b| - 1]);
    }
  }

  // ---------------------------------------------------------------------------------------------
  // The loop itself.

  class Subscription {
    const script: seq<Event>  // what the calls of NextMsg meet, one after the other
    var next: nat
    var active: bool

    constructor (script: seq<Event>)
      ensures this.script == script && next == 0 && active
    {
      this.script, next, active := script, 0, true;
    }

    method NextMsg() returns (msg: Option<Message>, timedOut: bool, err: Option<string>)
      requires next < |script|
      modifies this`next
      ensures next == old(next) + 1
      ensures match script[old(next)]
        case Timeout => timedOut
        case SubError(text) => !timedOut && err == Some(text)
        case Delivered(m, _) => !timedOut && err == None && msg == Some(m)
    {
      msg, timedOut, err := None, false, None;
      match script[next] {
        case Timeout => timedOut := true;
        case SubError(text) => err := Some(text);
        case Delivered(m, _) => msg := Some(m);
      }
      next := next + 1;
    }

    // What the reader does with the message just received.
    function Reader(): Option<nat>
      reads this
      requires 0 < next <= |script| && script[next - 1].Delivered?
    {
      script[next - 1].broken
    }

    method Unsubscribe()
      modifies this`active
      ensures !active
    {
      active := false;
    }
  }

  class Pipe {
    var bytes: seq<byte>          // read from the other end
    var outcome: Option<Outcome>  // as the reader sees it
    var closes: nat

    constructor ()
      ensures bytes == [] && outcome == None && closes == 0
    {
      bytes, outcome, closes := [], None, 0;
    }

    method Write(data: seq<byte>, reader: Option<nat>) returns (err: Option<string>)
      requires reader.Some? ==> reader.value <= |data|
      modifies this`bytes
      ensures reader.None? ==> err == None && bytes == old(bytes) + data
      ensures reader.Some? ==> err == Some(CLOSED_PIPE) && bytes == old(bytes) + data[..reader.value]
    {
      match reader {
        case None => bytes := bytes + data; err := None;
        case Some(k) => bytes := bytes + data[..k]; err := Some(CLOSED_PIPE);
      }
    }

    // The first outcome stays.
    method Close(o: Outcome)
      modifies this`outcome, this`closes
      ensures closes == old(closes) + 1
      ensures outcome == if old(outcome).Some? then old(outcome) else Some(o)
    {
      outcome := if outcome.Some? then outcome else Some(o);
      closes := closes + 1;
    }
  }

  // One turn of the loop: whether it breaks, and e2 as it then stands.
  method Turn(sub: Subscription, pipe: Pipe) returns (breaks: bool, e2: Option<string>)
    requires sub.next < |sub.script| && WellFormed(sub.script[sub.next])
    modifies sub`next, pipe`bytes
    ensures sub.next == old(sub.next) + 1
    ensures var e := sub.script[old(sub.next)];
      && pipe.bytes == old(pipe.bytes) + Bytes(e)
      && (breaks <==> Closes(e).Some?)
      && e2 == match Closes(e) case Some(Failure(text)) => Some(text) case _ => None
  {
    var msg, timedOut, err := sub.NextMsg();
    e2 := err;
    if timedOut {
      return false, None;
    }
    if e2.Some? {
      return true, e2;
    }
    e2 := pipe.Write(msg.value.data, sub.Reader());
    if e2.Some? {
      return true, e2;
    }
    match msg.value.done {
      case None => return false, None;
      case Some(text) =>
        if text != "" {
          e2 := Some(text);
        }
        return true, e2;
    }
  }

  // Runs until the loop breaks, or until the script is used up and the goroutine waits.
  method PumpLoop(sub: Subscription, pipe: Pipe) returns (waiting: bool)
    requires sub.next == 0 && sub.active && pipe.bytes == [] && pipe.outcome == None && pipe.closes == 0
    requires forall e :: e in sub.script ==> WellFormed(e)
    modifies sub, pipe
    ensures pipe.bytes == PumpRun(sub.script).bytes && pipe.outcome == PumpRun(sub.script).closed
    ensures waiting <==> pipe.outcome.None?
    ensures !waiting ==> pipe.closes == 1 && !sub.active
    ensures waiting ==> pipe.closes == 0 && sub.active && sub.next == |sub.script|
  {
    while sub.next < |sub.script|
      invariant sub.next <= |sub.script| && sub.active && pipe.outcome == None && pipe.closes == 0
      invariant PumpRun(sub.script[..sub.next]) == Pumped(pipe.bytes, None)
    {
      ghost var before, i := sub.script[..sub.next], sub.next;
      PumpRunAppend(before, sub.script[i]);
      assert sub.script[..i + 1] == before + [sub.script[i]];
      var breaks, e2 := Turn(sub, pipe);
      if breaks {
        assert sub.script == sub.script[..i + 1] + sub.script[i + 1..];
        PumpRunAbsorbs(sub.script[..i + 1], sub.script[i + 1..]);
        Stop(sub, pipe, e2);
        return false;
      }
    }
    assert sub.script[..sub.next] == sub.script;
    return true;
  }

  // What is deferred to the end of the goroutine.
  method Stop(sub: Subscription, pipe: Pipe, e2: Option<string>)
    modifies sub`active, pipe`outcome, pipe`closes
    ensures !sub.active && pipe.closes == old(pipe.closes) + 1
    ensures pipe.outcome == if old(pipe.outcome).Some? then old(pipe.outcome)
      else Some(if e2.Some? then Failure(e2.value) else Clean)
  {
    if e2.Some? {
      pipe.Close(Failure(e2.value));
    } else {
      pipe.Close(Clean);
    }
    sub.Unsubscribe();
  }

  // ---------------------------------------------------------------------------------------------
  // What the loop computes.

  function WithoutTimeouts(events: seq<Event>): seq<Event> {
    if events == [] then []
    else
      var before := WithoutTimeouts(events[..|events| - 1]);
      if events[|events| - 1].Timeout? then before else before + [events[|events| - 1]]
  }

  lemma {:induction false} WithoutTimeoutsKeeps(events: seq<Event>)
    ensures forall e :: e in WithoutTimeouts(events) ==> e in events
  {
    if events != [] {
      WithoutTimeoutsKeeps(events[..|events| - 1]);
    }
  }

  // Timeouts change nothing.
  lemma {:induction false} TimeoutsStutter(events: seq<Event>)
    requires forall e :: e in events ==> WellFormed(e)
    ensures forall e :: e in WithoutTimeouts(events) ==> WellFormed(e)
    ensures PumpRun(WithoutTimeouts(events)) == PumpRun(events)
  {
    WithoutTimeoutsKeeps(events);
    if events != [] {
      var before, last := events[..|events| - 1], events[|events| - 1];
      TimeoutsStutter(before);
      if last.Timeout? {
        assert PumpRun(before).bytes + [] == PumpRun(before).bytes;
      } else {
        PumpRunAppend(WithoutTimeouts(before), last);
      }
    }
  }

  // Event i is the first one that ends the loop.
  ghost predicate EndsAt(events: seq<Event>, i: int) {
    0 <= i < |events| && Closes(events[i]).Some? && forall j :: 0 <= j < i ==> Closes(events[j]).None?
  }

  // The loop ends exactly when some event ends it, and then as the first such event says. So a stream
  // with a Done message ends the loop, whatever timeouts come before it.
  lemma {:induction false} FirstClosingEventDecides(events: seq<Event>)
    requires forall e :: e in events ==> WellFormed(e)
    ensures PumpRun(events).closed.None? <==> forall i :: 0 <= i < |events| ==> Closes(events[i]).None?
    ensures PumpRun(events).closed.Some? ==> exists i :: EndsAt(events, i)
    ensures forall i :: EndsAt(events, i) ==> PumpRun(events).closed == Closes(events[i])
  {
    if events != [] {
      var before, last := events[..|events| - 1], events[|events| - 1];
      assert forall j :: 0 <= j < |before| ==> before[j] == events[j];
      FirstClosingEventDecides(before);
      forall i | EndsAt(events, i)
        ensures PumpRun(events).closed == Closes(events[i])
      {
        assert i < |before| ==> EndsAt(before, i);
      }
      if PumpRun(before).closed.Some? {
        var i :| EndsAt(before, i);
        assert EndsAt(events, i);
      } else if Closes(last).Some? {
        assert EndsAt(events, |before|);
      }
    }
  }

  // Why event e fails the loop: with the subscription's own error, with the pipe's if the reader went away,
  // or with the text of the Done header.
  predicate FailsWith(e: Event, text: string) {
    match e
    case Timeout => false
    case SubError(error) => text == error
    case Delivered(_, Some(_)) => text == "io: read/write on closed pipe"
    case Delivered(msg, None) => msg.done == Some(text) && text != ""
  }

  // The reader sees a failure exactly when the first event that ends the loop fails it with that text.
  lemma FailureExactly(events: seq<Event>, text: string)
    requires forall e :: e in events ==> WellFormed(e)
    ensures PumpRun(events).closed == Some(Failure(text)) <==>
      exists i :: EndsAt(events, i) && FailsWith(events[i], text)
  {
    FirstClosingEventDecides(events);
    if PumpRun(events).closed == Some(Failure(text)) {
      var i :| EndsAt(events, i);
      assert FailsWith(events[i], text);
    }
  }

  // The reader sees a clean end exactly when the first event that ends the loop is a fully read
  // message with an empty Done text.
  lemma CleanExactly(events: seq<Event>)
    requires forall e :: e in events ==> WellFormed(e)
    ensures PumpRun(events).closed == Some(Clean) <==>
      exists i :: EndsAt(events, i) && events[i].Delivered? && events[i].broken.None? && events[i].msg.done == Some("")
  {
    FirstClosingEventDecides(events);
    if PumpRun(events).closed == Some(Clean) {
      var i :| EndsAt(events, i);
      assert events[i].Delivered? && events[i].broken.None? && events[i].msg.done == Some("");
    }
  }
}
