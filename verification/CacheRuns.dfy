// Any number of concurrent calls of get, as far as the lock lets them interleave: making the key is
// outside the lock, looking up, building and storing is one step under it. Files change at will.
module CacheRuns {
  import opened Prelude
  import opened Subjects
  import opened TlsSettings
  import opened TlsCache

  // maker: the call made a transport, rather than finding one or failing.
  datatype Finished = Finished(call: Call, fsBuild: Files, result: Result<Entry, Error>, maker: bool)

  datatype State = State(cache: map<Key, Entry>, made: nat, pending: map<nat, Call>, finished: map<nat, Finished>)

  datatype Label =
    | Begin(id: nat, call: Call)
    | Finish(id: nat, fsBuild: Files)

  const INITIAL: State := State(map[], 0, map[], map[])

  predicate CanStep(s: State, l: Label) {
    match l
    case Begin(id, _) => id !in s.pending && id !in s.finished
    case Finish(id, _) => id in s.pending && id !in s.finished
  }

  function DoStep(s: State, l: Label, pairs: KeyPairCheck): State
    requires CanStep(s, l)
  {
    match l
    case Begin(id, c) => s.(pending := s.pending[id := c])
    case Finish(id, fs) =>
      var c := s.pending[id];
      var locked := Serve(s.cache, s.made, c, fs, pairs);
      State(locked.cache, locked.made, s.pending - {id}, 
            s.finished[id := Finished(c, fs, locked.result, locked.made > s.made)])
  }

  function After(labels: seq<Label>, pairs: KeyPairCheck): Option<State> {
    if labels == [] then Some(INITIAL)
    else
      match After(labels[..|labels| - 1], pairs)
      case None => None
      case Some(s) => if CanStep(s, labels[|labels| - 1]) then Some(DoStep(s, labels[|labels| - 1], pairs)) else None
  }

  // ---------------------------------------------------------------------------------------------
  // The cache refines building afresh.

  // What the call would get with no cache at all.
  function Fresh(c: Call, fsBuild: Files, pairs: KeyPairCheck): Result<Settings, Error> {
    var loaded := Load(c.tls, c.fsKey);
    if loaded.err.Some? then Err(loaded.err.value)
    else
      match Build(loaded.tls, fsBuild, pairs).result
      case Err(e) => Err(e)
      case Ok(settings) => Ok(Settings(settings, c.names.linkID, c.disableCompression))
  }

  function SettingsOf(r: Result<Entry, Error>): Result<Settings, Error> {
    match r
    case Ok(e) => Ok(e.settings)
    case Err(e) => Err(e)
  }

  ghost predicate PlainCall(c: Call) {
    Plain(c.tls, c.fsKey)
  }

  ghost predicate PlainLabel(l: Label) {
    l.Begin? ==> PlainCall(l.call)
  }

  // Every entry is what its key says.
  ghost predicate KeyedSettings(cache: map<Key, Entry>, pairs: KeyPairCheck) {
    forall k :: k in cache ==>
      && BuildFromKey(k, pairs) == Ok(cache[k].settings.tls)
      && cache[k].settings.linkID == k.linkID && cache[k].settings.disableCompression == k.disableCompression
  }

  // And every result is the uncached one.
  ghost predicate Refined(s: State, pairs: KeyPairCheck) {
    && (forall id :: id in s.pending ==> PlainCall(s.pending[id]))
    && KeyedSettings(s.cache, pairs)
    && (forall id :: id in s.finished ==>
          SettingsOf(s.finished[id].result) == Fresh(s.finished[id].call, s.finished[id].fsBuild, pairs))
  }

  lemma ServeRefined(cache: map<Key, Entry>, made: nat, c: Call, fs: Files, pairs: KeyPairCheck)
    requires KeyedSettings(cache, pairs) && PlainCall(c)
    ensures KeyedSettings(Serve(cache, made, c, fs, pairs).cache, pairs)
    ensures SettingsOf(Serve(cache, made, c, fs, pairs).result) == Fresh(c, fs, pairs)
  {
    if Load(c.tls, c.fsKey).err.None? {
      KeyDeterminesSettings(c.tls, c.fsKey, fs, c.names.linkID, c.disableCompression, pairs);
      assert Build(Load(c.tls, c.fsKey).tls, fs, pairs).result == BuildFromKey(KeyFor(c), pairs);
    }
  }

  lemma StepRefined(s: State, l: Label, pairs: KeyPairCheck)
    requires Refined(s, pairs) && CanStep(s, l) && PlainLabel(l)
    ensures Refined(DoStep(s, l, pairs), pairs)
  {
    if l.Finish? {
      ServeRefined(s.cache, s.made, s.pending[l.id], l.fsBuild, pairs);
    }
  }

  // Over any run of plain calls: a call that succeeds has the settings, link and compression flag an
  // uncached build would give it, and a call fails exactly when that would, with the same error.
  lemma {:induction false} CacheRefinesFreshBuild(labels: seq<Label>, pairs: KeyPairCheck)
    requires After(labels, pairs).Some? && forall l :: l in labels ==> PlainLabel(l)
    ensures Refined(After(labels, pairs).value, pairs)
  {
    if labels != [] {
      var before, last := labels[..|labels| - 1], labels[|labels| - 1];
      CacheRefinesFreshBuild(before, pairs);
      assert PlainLabel(last);
      StepRefined(After(before, pairs).value, last, pairs);
    }
  }

  // ---------------------------------------------------------------------------------------------
  // One transport per key, for ever: with or without the hypotheses.

  // No two keys share a transport, and none is one still to be made.
  ghost predicate Distinct(cache: map<Key, Entry>, made: nat) {
    && (forall k :: k in cache ==> cache[k].id < made)
    && (forall k, k' :: k in cache && k' in cache && k != k' ==> cache[k].id != cache[k'].id)
  }

  // The call's success, if it is one, is the cache's transport for its key.
  ghost predicate FromCache(cache: map<Key, Entry>, c: Call, result: Result<Entry, Error>) {
    result.Ok? && !c.proxy ==> KeyFor(c) in cache && result.value == cache[KeyFor(c)]
  }

  ghost predicate Contains(a: map<Key, Entry>, b: map<Key, Entry>) {
    forall k :: k in a ==> k in b && b[k] == a[k]
  }

  ghost predicate OneEach(s: State) {
    && Distinct(s.cache, s.made)
    && (forall id :: id in s.finished ==> FromCache(s.cache, s.finished[id].call, s.finished[id].result))
  }

  ghost predicate Extends(a: State, b: State) {
    Contains(a.cache, b.cache)
  }

  // What a call adds: at most its own key, with a transport newly made for its own connection, names and
  // timeout; a failed one adds nothing.
  ghost predicate AddsAtMostOwn(cache: map<Key, Entry>, made: nat, c: Call, locked: Locked) {
    if locked.made == made then locked.cache == cache
    else
      && locked.made == made + 1 && locked.result.Ok? && locked.result.value.id == made
      && MadeFor(locked.result.value, c)
      && (c.proxy ==> locked.cache == cache)
      && (!c.proxy ==> KeyFor(c) !in cache && locked.cache == cache[KeyFor(c) := locked.result.value])
  }

  lemma ServeShape(cache: map<Key, Entry>, made: nat, c: Call, fs: Files, pairs: KeyPairCheck)
    ensures var locked := Serve(cache, made, c, fs, pairs);
      AddsAtMostOwn(cache, made, c, locked) && FromCache(locked.cache, c, locked.result)
  {
  }

  lemma ServeOneEach(cache: map<Key, Entry>, made: nat, c: Call, fs: Files, pairs: KeyPairCheck)
    requires Distinct(cache, made)
    ensures var locked := Serve(cache, made, c, fs, pairs);
      && AddsAtMostOwn(cache, made, c, locked)
      && Distinct(locked.cache, locked.made) && Contains(cache, locked.cache)
      && FromCache(locked.cache, c, locked.result)
      && (locked.result.Err? ==> locked.cache == cache)
  {
    ServeShape(cache, made, c, fs, pairs);
  }

  lemma StepOneEach(s: State, l: Label, pairs: KeyPairCheck)
    requires OneEach(s) && CanStep(s, l)
    ensures OneEach(DoStep(s, l, pairs)) && Extends(s, DoStep(s, l, pairs))
  {
    if l.Finish? {
      ServeOneEach(s.cache, s.made, s.pending[l.id], l.fsBuild, pairs);
      var s' := DoStep(s, l, pairs);
      forall id | id in s'.finished
        ensures FromCache(s'.cache, s'.finished[id].call, s'.finished[id].result)
      {
        if id != l.id {
          assert FromCache(s.cache, s.finished[id].call, s.finished[id].result);
        }
      }
    }
  }

  lemma {:induction false} ReachableOneEach(labels: seq<Label>, pairs: KeyPairCheck)
    requires After(labels, pairs).Some?
    ensures OneEach(After(labels, pairs).value)
  {
    if labels != [] {
      ReachableOneEach(labels[..|labels| - 1], pairs);
      StepOneEach(After(labels[..|labels| - 1], pairs).value, labels[|labels| - 1], pairs);
    }
  }

  lemma AfterLast(labels: seq<Label>, l: Label, pairs: KeyPairCheck)
    requires After(labels + [l], pairs).Some?
    ensures After(labels, pairs).Some? && CanStep(After(labels, pairs).value, l)
    ensures After(labels + [l], pairs).value == DoStep(After(labels, pairs).value, l, pairs)
  {
    assert (labels + [l])[..|labels|] == labels;
  }

  // As a run goes on, entries are added, and none is ever replaced.
  lemma {:induction false} OneTransportPerKey(labels: seq<Label>, more: seq<Label>, pairs: KeyPairCheck)
    requires After(labels + more, pairs).Some?
    ensures After(labels, pairs).Some?
    ensures Extends(After(labels, pairs).value, After(labels + more, pairs).value)
  {
    if more == [] {
      assert labels + more == labels;
    } else {
      var shorter, last := more[..|more| - 1], more[|more| - 1];
      assert labels + more == (labels + shorter) + [last];
      AfterLast(labels + shorter, last, pairs);
      OneTransportPerKey(labels, shorter, pairs);
      ReachableOneEach(labels + shorter, pairs);
      StepOneEach(After(labels + shorter, pairs).value, last, pairs);
    }
  }

  // Two calls that succeed with the same key, whenever in the run, have the same transport object;
  // two with different keys have different ones.
  lemma SameKeySameTransport(labels: seq<Label>, pairs: KeyPairCheck, a: nat, b: nat)
    requires After(labels, pairs).Some?
    requires var f := After(labels, pairs).value.finished;
      a in f && b in f && f[a].result.Ok? && f[b].result.Ok? && !f[a].call.proxy && !f[b].call.proxy
    ensures var f := After(labels, pairs).value.finished;
      KeyFor(f[a].call) == KeyFor(f[b].call) <==> f[a].result.value.id == f[b].result.value.id
    ensures var f := After(labels, pairs).value.finished;
      KeyFor(f[a].call) == KeyFor(f[b].call) ==> f[a].result == f[b].result
  {
    ReachableOneEach(labels, pairs);
    var s := After(labels, pairs).value;
    assert FromCache(s.cache, s.finished[a].call, s.finished[a].result);
    assert FromCache(s.cache, s.finished[b].call, s.finished[b].result);
  }

  // And two calls have one transport exactly when their loaded configurations agree, and link and flag.
  lemma SharedExactly(labels: seq<Label>, pairs: KeyPairCheck, a: nat, b: nat)
    requires After(labels, pairs).Some?
    requires var f := After(labels, pairs).value.finished;
      a in f && b in f && f[a].result.Ok? && f[b].result.Ok? && !f[a].call.proxy && !f[b].call.proxy
    ensures var f := After(labels, pairs).value.finished;
      var c, d := f[a].call, f[b].call;
      f[a].result.value.id == f[b].result.value.id <==>
        && Agree(Load(c.tls, c.fsKey).tls, Load(d.tls, d.fsKey).tls)
        && c.names.linkID == d.names.linkID && c.disableCompression == d.disableCompression
  {
    var f := After(labels, pairs).value.finished;
    var c, d := f[a].call, f[b].call;
    SameKeySameTransport(labels, pairs, a, b);
    KeysAgreeExactly(Load(c.tls, c.fsKey).tls, Load(d.tls, d.fsKey).tls, c.names.linkID, d.names.linkID,
                     c.disableCompression, d.disableCompression);
  }

  // In particular, callers whose certificates come from different files never share one.
  lemma FilesApart(labels: seq<Label>, pairs: KeyPairCheck, a: nat, b: nat)
    requires After(labels, pairs).Some?
    requires var f := After(labels, pairs).value.finished;
      a in f && b in f && f[a].result.Ok? && f[b].result.Ok? && !f[a].call.proxy && !f[b].call.proxy
    ensures var f := After(labels, pairs).value.finished;
      var t, t' := f[a].call.tls, f[b].call.tls;
      t.certFile != "" && t.keyFile != "" && t.cert == [] && t.key == [] &&
      t'.certFile != "" && t'.keyFile != "" && t'.cert == [] && t'.key == [] &&
      (t.certFile != t'.certFile || t.keyFile != t'.keyFile) ==>
        f[a].result.value.id != f[b].result.value.id
  {
    var f := After(labels, pairs).value.finished;
    SharedExactly(labels, pairs, a, b);
    LoadExactly(f[a].call.tls, f[a].call.fsKey);
    LoadExactly(f[b].call.tls, f[b].call.fsKey);
    ReachableLoaded(labels, pairs);
  }

  // A call that succeeded has loaded its files.
  lemma {:induction false} ReachableLoaded(labels: seq<Label>, pairs: KeyPairCheck)
    requires After(labels, pairs).Some?
    ensures var f := After(labels, pairs).value.finished;
      forall a :: a in f && f[a].result.Ok? ==> Load(f[a].call.tls, f[a].call.fsKey).err.None?
  {
    if labels != [] {
      ReachableLoaded(labels[..|labels| - 1], pairs);
    }
  }

  // ---------------------------------------------------------------------------------------------
  // Whose connection, names and timeout a transport has.

  // The finished call made the entry: for its key, and with what is its own.
  ghost predicate MadeBy(k: Key, e: Entry, f: Finished) {
    f.maker && !f.call.proxy && KeyFor(f.call) == k && f.result == Ok(e) && MadeFor(e, f.call)
  }

  ghost predicate EveryEntryMade(s: State) {
    forall k :: k in s.cache ==> exists m :: m in s.finished && MadeBy(k, s.cache[k], s.finished[m])
  }

  // A maker has a transport of its own; a call without a key is always the maker of what it gets.
  ghost predicate MakersOwn(s: State) {
    && (forall m :: m in s.finished && s.finished[m].maker ==>
          && s.finished[m].result.Ok? && s.finished[m].result.value.id < s.made
          && MadeFor(s.finished[m].result.value, s.finished[m].call))
    && (forall m :: m in s.finished && s.finished[m].call.proxy && s.finished[m].result.Ok? ==> s.finished[m].maker)
    && (forall m, n :: m in s.finished && n in s.finished && s.finished[m].maker && s.finished[n].maker && m != n ==>
          s.finished[m].result != s.finished[n].result)
  }

  lemma FinishMakersOwn(s: State, id: nat, fs: Files, pairs: KeyPairCheck)
    requires MakersOwn(s) && CanStep(s, Finish(id, fs))
    ensures MakersOwn(DoStep(s, Finish(id, fs), pairs))
  {
    ServeShape(s.cache, s.made, s.pending[id], fs, pairs);
  }

  lemma FinishEveryEntryMade(s: State, id: nat, fs: Files, pairs: KeyPairCheck)
    requires EveryEntryMade(s) && CanStep(s, Finish(id, fs))
    ensures EveryEntryMade(DoStep(s, Finish(id, fs), pairs))
  {
    var c, s' := s.pending[id], DoStep(s, Finish(id, fs), pairs);
    ServeShape(s.cache, s.made, c, fs, pairs);
    forall k | k in s'.cache
      ensures exists m :: m in s'.finished && MadeBy(k, s'.cache[k], s'.finished[m])
    {
      if k in s.cache && s'.cache[k] == s.cache[k] {
        var m :| m in s.finished && MadeBy(k, s.cache[k], s.finished[m]);
        assert m in s'.finished && s'.finished[m] == s.finished[m];
      } else {
        assert MadeBy(k, s'.cache[k], s'.finished[id]);
      }
    }
  }

  lemma {:induction false} ReachableMade(labels: seq<Label>, pairs: KeyPairCheck)
    requires After(labels, pairs).Some?
    ensures EveryEntryMade(After(labels, pairs).value) && MakersOwn(After(labels, pairs).value)
  {
    if labels != [] {
      var before, last := labels[..|labels| - 1], labels[|labels| - 1];
      ReachableMade(before, pairs);
      if last.Finish? {
        FinishMakersOwn(After(before, pairs).value, last.id, last.fsBuild, pairs);
        FinishEveryEntryMade(After(before, pairs).value, last.id, last.fsBuild, pairs);
      }
    }
  }

  ghost predicate MakerFor(f: map<nat, Finished>, m: nat, k: Key) {
    m in f && f[m].maker && !f[m].call.proxy && KeyFor(f[m].call) == k
  }

  // The finished call m made the transport that call a got.
  ghost predicate MakerOf(f: map<nat, Finished>, m: nat, a: nat) {
    && m in f && a in f && f[m].maker && f[m].result.Ok? && f[m].result == f[a].result
    && MadeFor(f[m].result.value, f[m].call)
  }

  // The transport a call gets is that of the one call of the run that made it (for the same key, if it has
  // one), with that call's connection, names and timeout. So the caller has its own of each exactly when it
  // is the maker's.
  lemma OwnExactly(labels: seq<Label>, pairs: KeyPairCheck, a: nat) returns (m: nat)
    requires After(labels, pairs).Some?
    requires var f := After(labels, pairs).value.finished; a in f && f[a].result.Ok?
    ensures var f := After(labels, pairs).value.finished;
      && MakerOf(f, m, a) && (forall n :: MakerOf(f, n, a) ==> n == m)
      && (f[a].maker <==> m == a) && (f[a].call.proxy ==> m == a)
      && (!f[a].call.proxy ==> MakerFor(f, m, KeyFor(f[a].call)))
      && (!f[a].call.proxy ==> forall n :: MakerFor(f, n, KeyFor(f[a].call)) ==> n == m)
    ensures var f := After(labels, pairs).value.finished;
      var e, own, made := f[a].result.value, f[a].call, f[m].call;
      && (e.conn == own.conn <==> made.conn == own.conn)
      && (e.names == own.names <==> made.names == own.names)
      && (e.timeout == own.timeout <==> made.timeout == own.timeout)
  {
    ReachableOneEach(labels, pairs);
    ReachableMade(labels, pairs);
    var s := After(labels, pairs).value;
    if s.finished[a].call.proxy {
      m := a;
    } else {
      m := MakerOfEntry(s, a);
    }
  }

  lemma MakerOfEntry(s: State, a: nat) returns (m: nat)
    requires OneEach(s) && EveryEntryMade(s) && MakersOwn(s)
    requires a in s.finished && s.finished[a].result.Ok? && !s.finished[a].call.proxy
    ensures MakerOf(s.finished, m, a) && MakerFor(s.finished, m, KeyFor(s.finished[a].call))
    ensures forall n :: MakerFor(s.finished, n, KeyFor(s.finished[a].call)) ==> n == m
  {
    var k := KeyFor(s.finished[a].call);
    assert FromCache(s.cache, s.finished[a].call, s.finished[a].result);
    m :| m in s.finished && MadeBy(k, s.cache[k], s.finished[m]);
    forall n | MakerFor(s.finished, n, k)
      ensures n == m
    {
      assert FromCache(s.cache, s.finished[n].call, s.finished[n].result);
    }
  }

  // So a caller does not always get its own: here the second one gets the connection, the naming scheme and
  // the timeout of the first.
  lemma OthersTransport(linkID: string, first: Conn, second: Conn, pairs: KeyPairCheck) returns (labels: seq<Label>)
    requires first != second
    ensures After(labels, pairs).Some? && forall l :: l in labels ==> PlainLabel(l)
    ensures var f := After(labels, pairs).value.finished;
      && 1 in f && f[1].result.Ok?
      && f[1].call.conn == second && f[1].result.value.conn == first
      && f[1].call.names == Names(SameAccount, linkID) && f[1].result.value.names == Names(CrossAccount, linkID)
      && f[1].call.timeout == 2 && f[1].result.value.timeout == 1
  {
    var maker := Call(NO_TLS, first, Names(CrossAccount, linkID), 1, false, false, NO_FILES);
    var other := Call(NO_TLS, second, Names(SameAccount, linkID), 2, false, false, NO_FILES);
    var steps := [Begin(0, maker), Finish(0, NO_FILES), Begin(1, other), Finish(1, NO_FILES)];
    var s;
    labels, s := [], INITIAL;
    for i := 0 to 4
      invariant After(labels, pairs) == Some(s) && forall l :: l in labels ==> PlainLabel(l)
      invariant i == 0 ==> s == INITIAL
      invariant i == 1 ==> s.pending == map[0 := maker]
      invariant i <= 1 ==> s.finished == map[] && s.cache == map[]
      invariant i == 2 ==> 1 !in s.pending && 1 !in s.finished
      invariant i == 3 ==> 1 in s.pending && s.pending[1] == other && 1 !in s.finished
      invariant i >= 2 ==> KeyFor(other) in s.cache && MadeFor(s.cache[KeyFor(other)], maker)
      invariant i == 4 ==> 1 in s.finished && s.finished[1].call == other
      invariant i == 4 ==> s.finished[1].result == Ok(s.cache[KeyFor(other)])
    {
      assert KeyFor(maker) == KeyFor(other);
      assert (labels + [steps[i]])[..|labels|] == labels;
      labels, s := labels + [steps[i]], DoStep(s, steps[i], pairs);
    }
  }
}
