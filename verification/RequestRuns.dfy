// Any number of concurrent requests at the hub, through one pool of buffers: each takes a buffer in
// whatever state it is, writes its request, slices it, writes the envelope over it, publishes, and puts
// the buffer back when it is done. Their steps interleave freely, over one store of arrays.
module RequestRuns {
  import opened Prelude
  import opened Timeouts
  import opened TlsSettings
  import Envelope
  import SharedPool
  import RoundTripper

  // What one request has to send: the pieces of its serialisation, ended by an error if there is one.
  datatype Job = Job(
    pieces: seq<seq<byte>>, failure: Option<string>, tls: Option<PersistableTLS>,
    configured: Duration, deadline: Option<int>, now: int, disableCompression: bool)

  function EnvelopeAround(job: Job, request: seq<byte>): Envelope.R {
    Envelope.R(request, job.tls, Shipped(HubTimeout(job.configured, job.deadline, job.now)), job.disableCompression)
  }

  function Own(job: Job): Envelope.R {
    EnvelopeAround(job, RoundTripper.Concat(job.pieces))
  }

  // A slice: the first n bytes of an array, whoever writes it.
  datatype Alias = Alias(store: nat, n: nat)

  datatype Buffer = Buffer(store: nat, len: nat)

  // Rendered: the encoder has put its text together. Failed: writing the request failed. Over: the buffer
  // is back in the pool.
  datatype Stage =
    | Taken
    | Writing(written: nat)
    | Sliced(request: Alias)
    | Cleared(request: Alias)
    | Rendered(text: seq<byte>)
    | Encoded
    | Published(data: seq<byte>)
    | Failed(error: string)
    | Over(result: Result<seq<byte>, string>)

  datatype Caller = Caller(job: Job, stage: Stage)

  datatype State = State(
    pool: SharedPool.State,          // which buffers are free, and which call holds which
    buffers: map<nat, Buffer>,
    arrays: map<nat, seq<byte>>,
    unused: nat,                   // the next array
    callers: map<nat, Caller>)

  datatype Label =
    | Begin(call: nat, job: Job, index: nat)
    | Step(call: nat, slack: seq<byte>)    // slack: what a new array holds past the bytes written
    | Drop(index: nat)

  const INITIAL: State := State(SharedPool.INITIAL, map[], map[], 0, map[])

  // The buffers that are there, and arrays to hold them.
  ghost predicate Stored(s: State) {
    && (forall b: nat :: b in s.buffers <==> b < s.pool.made)
    && (forall b :: b in s.buffers ==>
          s.buffers[b].store in s.arrays && s.buffers[b].len <= |s.arrays[s.buffers[b].store]|)
    && (forall a :: a in s.arrays ==> a < s.unused)
    && (forall b, b' :: b in s.buffers && b' in s.buffers && b != b' ==> s.buffers[b].store != s.buffers[b'].store)
  }

  ghost predicate HoldersAre(s: State) {
    && (forall c: nat :: c in s.pool.held <==> c in s.callers && !s.callers[c].stage.Over?)
    && (forall c :: c in s.pool.held ==> s.pool.held[c] in s.buffers)
  }

  function Contents(s: State, b: nat): seq<byte>
    requires b in s.buffers && s.buffers[b].store in s.arrays
    requires s.buffers[b].len <= |s.arrays[s.buffers[b].store]|
  {
    s.arrays[s.buffers[b].store][..s.buffers[b].len]
  }

  // In place while the array lasts, into a new one from then on.
  function Append(s: State, b: nat, p: seq<byte>, slack: seq<byte>): State
    requires Stored(s) && b in s.buffers
  {
    var buf := s.buffers[b];
    var bytes := s.arrays[buf.store];
    if buf.len + |p| <= |bytes| then
      s.(arrays := s.arrays[buf.store := RoundTripper.Overwrite(bytes, buf.len, p)],
         buffers := s.buffers[b := buf.(len := buf.len + |p|)])
    else
      s.(arrays := s.arrays[s.unused := bytes[..buf.len] + p + slack],
         buffers := s.buffers[b := Buffer(s.unused, buf.len + |p|)],
         unused := s.unused + 1)
  }

  function Reset(s: State, b: nat): State
    requires b in s.buffers
  {
    s.(buffers := s.buffers[b := s.buffers[b].(len := 0)])
  }

  function Moved(s: State, c: nat, stage: Stage): State
    requires c in s.callers
  {
    s.(callers := s.callers[c := s.callers[c].(stage := stage)])
  }

  predicate CanStep(s: State, l: Label) {
    match l
    case Begin(c, _, _) => c !in s.callers
    case Step(c, _) => c in s.callers && !s.callers[c].stage.Over?
    case Drop(i) => i < |s.pool.free|
  }

  // Whoever holds a buffer holds it alone.
  ghost predicate Wellformed(s: State) {
    SharedPool.Exclusive(s.pool) && SharedPool.Made(s.pool) && Stored(s) && HoldersAre(s)
  }

  function GiveBack(s: State, c: nat, result: Result<seq<byte>, string>): State
    requires c in s.callers && c in s.pool.held
  {
    Moved(s.(pool := SharedPool.DoStep(s.pool, SharedPool.GiveBack(c))), c, Over(result))
  }

  // ---------------------------------------------------------------------------------------------
  // What every step keeps: each request's data, from its first byte to its envelope, is its own.

  // What a caller has in its buffer, of which bytes is the array. A slice is still of that array.
  ghost predicate HoldsOwn(c: Caller, buf: Buffer, bytes: seq<byte>) {
    && buf.len <= |bytes|
    && (c.stage.Sliced? || c.stage.Cleared? || c.stage.Rendered? || c.stage.Encoded? || c.stage.Published? ==>
          c.job.failure.None?)
    && match c.stage
       case Taken => true
       case Writing(k) => k <= |c.job.pieces| && bytes[..buf.len] == RoundTripper.Concat(c.job.pieces[..k])
       case Sliced(r) => ShowsRequest(r, c.job, buf, bytes)
       case Cleared(r) => ShowsRequest(r, c.job, buf, bytes) && buf.len == 0
       case Rendered(text) => text == Envelope.Marshal(Own(c.job)) && buf.len == 0
       case Encoded => bytes[..buf.len] == Envelope.Marshal(Own(c.job))
       case Published(data) => data == Envelope.Marshal(Own(c.job))
       case Failed(e) => c.job.failure == Some(e)
       case Over(_) => false
  }

  ghost predicate ShowsRequest(r: Alias, job: Job, buf: Buffer, bytes: seq<byte>) {
    r.store == buf.store && r.n <= |bytes| && bytes[..r.n] == RoundTripper.Concat(job.pieces)
  }

  // What a request publishes: the envelope around its own bytes, unless serialising it failed.
  function Answer(job: Job): Result<seq<byte>, string> {
    match job.failure
    case Some(e) => Err(e)
    case None => Ok(Envelope.Marshal(Own(job)))
  }

  ghost predicate AllOwn(s: State)
    requires Wellformed(s)
  {
    && (forall c :: c in s.pool.held ==>
          var buf := s.buffers[s.pool.held[c]]; HoldsOwn(s.callers[c], buf, s.arrays[buf.store]))
    && (forall c :: c in s.callers && s.callers[c].stage.Over? ==>
          s.callers[c].stage.result == Answer(s.callers[c].job))
  }

  ghost predicate Inv(s: State) {
    Wellformed(s) && AllOwn(s)
  }

  ghost function StepOf(s: State, c: nat, slack: seq<byte>): State
    requires Inv(s) && c in s.callers && !s.callers[c].stage.Over?
  {
    var job, b := s.callers[c].job, s.pool.held[c];
    match s.callers[c].stage
    case Taken => Moved(Reset(s, b), c, Writing(0))
    case Writing(k) =>
      if k < |job.pieces| then Moved(Append(s, b, job.pieces[k], slack), c, Writing(k + 1))
      else if job.failure.Some? then Moved(s, c, Failed(job.failure.value))
      else Moved(s, c, Sliced(Alias(s.buffers[b].store, s.buffers[b].len)))
    case Sliced(r) => Moved(Reset(s, b), c, Cleared(r))
    case Cleared(r) => Moved(s, c, Rendered(Envelope.Marshal(EnvelopeAround(job, s.arrays[r.store][..r.n]))))
    case Rendered(text) => Moved(Append(s, b, text, slack), c, Encoded)
    case Encoded => Moved(s, c, Published(Contents(s, b)))
    case Published(data) => GiveBack(s, c, Ok(data))
    case Failed(e) => GiveBack(s, c, Err(e))
  }

  ghost function DoStep(s: State, l: Label): State
    requires Inv(s) && CanStep(s, l)
  {
    match l
    case Begin(c, job, index) =>
      var taken := s.(pool := SharedPool.DoStep(s.pool, SharedPool.Take(c, index)),
                      callers := s.callers[c := Caller(job, Taken)]);
      if index < |s.pool.free| then taken
      else
        taken.(buffers := s.buffers[s.pool.made := Buffer(s.unused, 0)],
               arrays := s.arrays[s.unused := []], unused := s.unused + 1)
    case Step(c, slack) => StepOf(s, c, slack)
    case Drop(i) => s.(pool := SharedPool.DoStep(s.pool, SharedPool.Drop(i)))
  }

  // ---------------------------------------------------------------------------------------------
  // Steps on the store.

  // Buffer b may have changed; every other one, and what it holds, is as it was.
  ghost predicate OnlyBuffer(s: State, s': State, b: nat)
    requires Stored(s) && Stored(s')
  {
    && s'.pool == s.pool && s'.callers == s.callers && s'.buffers.Keys == s.buffers.Keys
    && (forall b' :: b' in s.buffers && b' != b ==>
          s'.buffers[b'] == s.buffers[b'] && s'.arrays[s.buffers[b'].store] == s.arrays[s.buffers[b'].store])
  }

  lemma AppendKeeps(s: State, b: nat, p: seq<byte>, slack: seq<byte>)
    requires Stored(s) && b in s.buffers
    ensures var s' := Append(s, b, p, slack);
      && Stored(s') && OnlyBuffer(s, s', b)
      && s'.buffers[b].len == s.buffers[b].len + |p| && Contents(s', b) == Contents(s, b) + p
  {
    var buf := s.buffers[b];
    var bytes := s.arrays[buf.store];
    if buf.len + |p| <= |bytes| {
      assert RoundTripper.Overwrite(bytes, buf.len, p)[..buf.len + |p|] == bytes[..buf.len] + p;
    } else {
      assert (bytes[..buf.len] + p + slack)[..buf.len + |p|] == bytes[..buf.len] + p;
    }
  }

  lemma ResetKeeps(s: State, b: nat)
    requires Stored(s) && b in s.buffers
    ensures Stored(Reset(s, b)) && OnlyBuffer(s, Reset(s, b), b)
  {
  }

  lemma OwnStepWellformed(s: State, t: State, c: nat, stage: Stage)
    requires Wellformed(s) && c in s.pool.held && Stored(t) && OnlyBuffer(s, t, s.pool.held[c]) && !stage.Over?
    ensures Wellformed(Moved(t, c, stage))
  {
  }

  // A step that changes at most the caller's own buffer, and its stage.
  lemma OwnStep(s: State, t: State, c: nat, stage: Stage)
    requires Inv(s) && c in s.pool.held && Stored(t) && OnlyBuffer(s, t, s.pool.held[c]) && !stage.Over?
    requires var buf := t.buffers[s.pool.held[c]];
      HoldsOwn(s.callers[c].(stage := stage), buf, t.arrays[buf.store])
    ensures Inv(Moved(t, c, stage))
  {
    var s' := Moved(t, c, stage);
    OwnStepWellformed(s, t, c, stage);
    forall d | d in s'.pool.held
      ensures var buf := s'.buffers[s'.pool.held[d]]; HoldsOwn(s'.callers[d], buf, s'.arrays[buf.store])
    {
      if d != c {
        assert s.pool.held[d] != s.pool.held[c];
        assert HoldsOwn(s.callers[d], s.buffers[s.pool.held[d]], s.arrays[s.buffers[s.pool.held[d]].store]);
      }
    }
  }

  lemma OnePieceMore(pieces: seq<seq<byte>>, k: nat)
    requires k < |pieces|
    ensures RoundTripper.Concat(pieces[..k + 1]) == RoundTripper.Concat(pieces[..k]) + pieces[k]
  {
    assert pieces[..k + 1][..k] == pieces[..k];
  }

  lemma WriteStep(s: State, c: nat, k: nat, slack: seq<byte>)
    requires Inv(s) && c in s.pool.held && s.callers[c].stage == Writing(k) && k < |s.callers[c].job.pieces|
    ensures Inv(StepOf(s, c, slack))
  {
    var pieces, b := s.callers[c].job.pieces, s.pool.held[c];
    assert HoldsOwn(s.callers[c], s.buffers[b], s.arrays[s.buffers[b].store]);
    AppendKeeps(s, b, pieces[k], slack);
    OnePieceMore(pieces, k);
    OwnStep(s, Append(s, b, pieces[k], slack), c, Writing(k + 1));
  }

  // The text put together goes into the emptied buffer.
  lemma EncodedOwn(c: Caller, text: seq<byte>, emptied: Buffer, before: seq<byte>, buf: Buffer, bytes: seq<byte>)
    requires c.stage == Rendered(text) && HoldsOwn(c, emptied, before)
    requires buf.len <= |bytes| && bytes[..buf.len] == before[..emptied.len] + text
    ensures HoldsOwn(c.(stage := Encoded), buf, bytes)
  {
    assert before[..0] + text == text;
  }

  lemma EncodeStep(s: State, c: nat, text: seq<byte>, slack: seq<byte>)
    requires Inv(s) && c in s.pool.held && s.callers[c].stage == Rendered(text)
    ensures Inv(StepOf(s, c, slack))
  {
    var b := s.pool.held[c];
    var t := Append(s, b, text, slack);
    AppendKeeps(s, b, text, slack);
    EncodedOwn(s.callers[c], text, s.buffers[b], s.arrays[s.buffers[b].store],
               t.buffers[b], t.arrays[t.buffers[b].store]);
    OwnStep(s, t, c, Encoded);
  }

  lemma ResetStep(s: State, c: nat, slack: seq<byte>)
    requires Inv(s) && c in s.pool.held && (s.callers[c].stage.Taken? || s.callers[c].stage.Sliced?)
    ensures Inv(StepOf(s, c, slack))
  {
    var b, stage := s.pool.held[c], s.callers[c].stage;
    assert HoldsOwn(s.callers[c], s.buffers[b], s.arrays[s.buffers[b].store]);
    ResetKeeps(s, b);
    OwnStep(s, Reset(s, b), c, if stage.Taken? then Writing(0) else Cleared(stage.request));
  }

  lemma OnlyMoves(s: State, c: nat, slack: seq<byte>)
    requires Inv(s) && c in s.pool.held
    requires var caller := s.callers[c];
      || (caller.stage.Writing? && caller.stage.written == |caller.job.pieces|)
      || caller.stage.Cleared? || caller.stage.Encoded?
    ensures Inv(StepOf(s, c, slack))
  {
    var pieces, b := s.callers[c].job.pieces, s.pool.held[c];
    assert HoldsOwn(s.callers[c], s.buffers[b], s.arrays[s.buffers[b].store]);
    assert pieces[..|pieces|] == pieces;
    OwnStep(s, s, c, StepOf(s, c, slack).callers[c].stage);
  }

  lemma GiveBackKeeps(s: State, c: nat, result: Result<seq<byte>, string>)
    requires Inv(s) && c in s.pool.held && result == Answer(s.callers[c].job)
    ensures Inv(GiveBack(s, c, result))
  {
    var s' := GiveBack(s, c, result);
    SharedPool.StepExclusive(s.pool, SharedPool.GiveBack(c));
    assert Wellformed(s');
    forall d | d in s'.pool.held
      ensures var buf := s'.buffers[s'.pool.held[d]]; HoldsOwn(s'.callers[d], buf, s'.arrays[buf.store])
    {
      assert HoldsOwn(s.callers[d], s.buffers[s.pool.held[d]], s.arrays[s.buffers[s.pool.held[d]].store]);
    }
  }

  lemma GiveBackStep(s: State, c: nat, slack: seq<byte>)
    requires Inv(s) && c in s.pool.held && (s.callers[c].stage.Published? || s.callers[c].stage.Failed?)
    ensures Inv(StepOf(s, c, slack))
  {
    var b := s.pool.held[c];
    assert HoldsOwn(s.callers[c], s.buffers[b], s.arrays[s.buffers[b].store]);
    GiveBackKeeps(s, c, Answer(s.callers[c].job));
  }

  lemma BeginReused(s: State, c: nat, job: Job, index: nat)
    requires Inv(s) && CanStep(s, Begin(c, job, index)) && index < |s.pool.free|
    ensures Inv(DoStep(s, Begin(c, job, index)))
  {
    var s' := DoStep(s, Begin(c, job, index));
    SharedPool.TakeExclusive(s.pool, c, index);
    BeginHolders(s, c, job, index);
    assert s'.pool.held.Keys == s.pool.held.Keys + {c};
    OthersHoldOwn(s, s', c);
  }

  lemma BeginNew(s: State, c: nat, job: Job, index: nat)
    requires Inv(s) && CanStep(s, Begin(c, job, index)) && index >= |s.pool.free|
    ensures Inv(DoStep(s, Begin(c, job, index)))
  {
    var s' := DoStep(s, Begin(c, job, index));
    NewBufferStored(s, c, job, index);
    BeginHolders(s, c, job, index);
    SharedPool.TakeExclusive(s.pool, c, index);
    assert Wellformed(s') && s'.pool.held == s.pool.held[c := s.pool.made];
    OthersHoldOwn(s, s', c);
  }

  lemma BeginHolders(s: State, c: nat, job: Job, index: nat)
    requires Inv(s) && CanStep(s, Begin(c, job, index))
    ensures HoldersAre(DoStep(s, Begin(c, job, index)))
  {
    if index < |s.pool.free| {
      assert s.pool.free[index] < s.pool.made;
    }
  }

  lemma NewBufferStored(s: State, c: nat, job: Job, index: nat)
    requires Inv(s) && CanStep(s, Begin(c, job, index)) && index >= |s.pool.free|
    ensures var s' := DoStep(s, Begin(c, job, index));
      && Stored(s') && KeepsStore(s, s')
  {
  }

  // Every buffer there was is there still, and what it holds.
  ghost predicate KeepsStore(s: State, s': State)
    requires Stored(s) && Stored(s')
  {
    forall b :: b in s.buffers ==>
      && b in s'.buffers && s'.buffers[b] == s.buffers[b]
      && s'.arrays[s.buffers[b].store] == s.arrays[s.buffers[b].store]
  }

  // When a call begins, the others hold what they held.
  lemma OthersHoldOwn(s: State, s': State, c: nat)
    requires Inv(s) && c !in s.callers && c in s'.callers && s'.callers == s.callers[c := s'.callers[c]]
    requires s'.pool.held.Keys == s.pool.held.Keys + {c} && s'.callers[c].stage.Taken?
    requires Wellformed(s')
    requires forall d :: d in s.pool.held ==> s'.pool.held[d] == s.pool.held[d]
    requires KeepsStore(s, s')
    ensures AllOwn(s')
  {
    forall d | d in s'.pool.held
      ensures var buf := s'.buffers[s'.pool.held[d]]; HoldsOwn(s'.callers[d], buf, s'.arrays[buf.store])
    {
      if d != c {
        assert HoldsOwn(s.callers[d], s.buffers[s.pool.held[d]], s.arrays[s.buffers[s.pool.held[d]].store]);
      }
    }
  }

  lemma DropStep(s: State, i: nat)
    requires Inv(s) && CanStep(s, Drop(i))
    ensures Inv(DoStep(s, Drop(i)))
  {
    SharedPool.StepExclusive(s.pool, SharedPool.Drop(i));
  }

  lemma StepKeepsInv(s: State, l: Label)
    requires Inv(s) && CanStep(s, l)
    ensures Inv(DoStep(s, l))
  {
    match l {
      case Begin(c, job, index) =>
        if index < |s.pool.free| { BeginReused(s, c, job, index); } else { BeginNew(s, c, job, index); }
      case Drop(i) => DropStep(s, i);
      case Step(c, slack) => CallerStep(s, c, slack);
    }
  }

  lemma CallerStep(s: State, c: nat, slack: seq<byte>)
    requires Inv(s) && c in s.pool.held
    ensures Inv(StepOf(s, c, slack))
  {
    var b := s.pool.held[c];
    assert HoldsOwn(s.callers[c], s.buffers[b], s.arrays[s.buffers[b].store]);
    match s.callers[c].stage {
      case Taken => ResetStep(s, c, slack);
      case Sliced(_) => ResetStep(s, c, slack);
      case Writing(k) =>
        if k < |s.callers[c].job.pieces| { WriteStep(s, c, k, slack); } else { OnlyMoves(s, c, slack); }
      case Cleared(_) => OnlyMoves(s, c, slack);
      case Encoded => OnlyMoves(s, c, slack);
      case Rendered(text) => EncodeStep(s, c, text, slack);
      case Published(_) => GiveBackStep(s, c, slack);
      case Failed(_) => GiveBackStep(s, c, slack);
    }
  }

  // ---------------------------------------------------------------------------------------------
  // Whole runs.

  // The state after a run, if every step of it is possible.
  ghost function After(labels: seq<Label>): (r: Option<State>)
    ensures r.Some? ==> Inv(r.value)
  {
    if labels == [] then Some(INITIAL)
    else
      match After(labels[..|labels| - 1])
      case None => None
      case Some(s) =>
        var l := labels[|labels| - 1];
        if CanStep(s, l) then
          StepKeepsInv(s, l);
          Some(DoStep(s, l))
        else None
  }

  // A call that has its buffer to itself: it is not free, and no other call has it, nor its array.
  ghost predicate HasItsOwnBuffer(s: State, c: nat)
    requires Wellformed(s) && c in s.pool.held
  {
    && s.pool.held[c] !in s.pool.free
    && forall d :: d in s.pool.held && d != c ==>
         s.pool.held[d] != s.pool.held[c] && s.buffers[s.pool.held[d]].store != s.buffers[s.pool.held[c]].store
  }

  // A call keeps its buffer until it has its answer, publishes the envelope around its own request, which
  // the edge can read, and gets nothing published when its request cannot be serialised.
  ghost predicate PublishesItsOwn(s: State, c: nat)
    requires Wellformed(s) && c in s.callers
  {
    var job, stage := s.callers[c].job, s.callers[c].stage;
    && (!stage.Over? ==> c in s.pool.held && HasItsOwnBuffer(s, c))
    && (stage.Published? ==> Ok(stage.data) == Answer(job))
    && (stage.Over? ==> stage.result == Answer(job))
    && (job.failure.Some? ==> Answer(job) == Err(job.failure.value))
    && (job.failure.None? ==>
          && Answer(job).Ok?
          && Envelope.Unmarshal(Answer(job).value)
             == Some(Envelope.R(RoundTripper.Concat(job.pieces), job.tls,
                                Shipped(HubTimeout(job.configured, job.deadline, job.now)), job.disableCompression)))
  }

  // In every run, whatever the calls do to the pooled buffers and whenever arrays are replaced, that holds of
  // every call: no buffer is in the pool while a call reads or writes it or waits for its response.
  lemma EachPublishesItsOwn(labels: seq<Label>)
    ensures After(labels).Some? ==>
      forall c :: c in After(labels).value.callers ==> PublishesItsOwn(After(labels).value, c)
  {
    if After(labels).Some? {
      var s := After(labels).value;
      forall c | c in s.callers
        ensures PublishesItsOwn(s, c)
      {
        OwnPublished(s, c);
      }
    }
  }

  lemma OwnPublished(s: State, c: nat)
    requires Inv(s) && c in s.callers
    ensures PublishesItsOwn(s, c)
  {
    Envelope.EnvelopeRoundTrip(Own(s.callers[c].job));
    if c in s.pool.held {
      assert HoldsOwn(s.callers[c], s.buffers[s.pool.held[c]], s.arrays[s.buffers[s.pool.held[c]].store]);
    }
  }
}
