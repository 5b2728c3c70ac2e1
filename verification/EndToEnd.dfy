// From a cached transport to the edge: what a caller's configuration comes to when its request is sent
// with a transport that some other caller may have made.
module EndToEnd {
  import opened Prelude
  import opened Subjects
  import opened Timeouts
  import opened TlsSettings
  import opened TlsCache
  import opened CacheRuns
  import opened Envelope
  import opened EdgeRespond

  // The envelope that a transport puts around a request.
  function Ship(e: Entry, request: seq<byte>, deadline: Option<int>, now: int): R {
    R(request, e.settings.tls, Shipped(HubTimeout(e.timeout, deadline, now)), e.settings.disableCompression)
  }

  // The caller's configuration, as the edge should have it, and how the request then fares there.
  ghost predicate Served(c: Call, e: Entry, request: seq<byte>, deadline: Option<int>, now: int,
                         readable: seq<byte> -> bool, roots: seq<byte> -> bool, pairs: KeyPairCheck) {
    var u := Load(c.tls, c.fsKey).tls;
    var shipped, hub := Ship(e, request, deadline, now), HubTimeout(e.timeout, deadline, now);
    Handled(Marshal(shipped), readable, roots, pairs) ==
      if !readable(request) then BadRequest(shipped)
      else if u.ca != [] && e.settings.tls.Some? && !roots(u.ca) then BadSettings(shipped, BadRoots)
      else Sent(shipped, Intended(u), e.settings.tls.Some? && c.disableCompression,
                if hub > MARGIN then hub - MARGIN else DEFAULT_TIMEOUT)
  }

  lemma FreshServes(c: Call, fsBuild: Files, e: Entry, request: seq<byte>, deadline: Option<int>, now: int,
                    readable: seq<byte> -> bool, roots: seq<byte> -> bool, pairs: KeyPairCheck)
    requires PlainCall(c) && Fresh(c, fsBuild, pairs) == Ok(e.settings) && NeedsBoth(pairs)
    ensures Served(c, e, request, deadline, now, readable, roots, pairs)
  {
    var u := Load(c.tls, c.fsKey).tls;
    FreshBuild(c, fsBuild, pairs);
    RequestTrip(request, u, fsBuild, readable, roots, pairs, e.timeout, deadline, now, c.disableCompression);
  }

  // Where the edge of a link is: over which connection, and under which naming scheme.
  datatype Place = Place(conn: Conn, scheme: Scheme)

  // A request sent with the transport gets to the edge of its link, and what that publishes arrives where
  // the transport listens.
  ghost predicate Answered(e: Entry, uid: Uid, places: string -> Place) {
    var place := places(e.names.linkID);
    var edge := Names(place.scheme, e.names.linkID);
    && e.conn == place.conn
    && ReachesEdge(edge, HandlerSubjects(e.names).hub, HandlerSubjects(edge).edge)
    && ReachesHub(edge, ResponseSubjects(e.names, uid).edge, ResponseSubjects(e.names, uid).hub)
  }

  // The caller has the link's connection and scheme.
  predicate WellPlaced(c: Call, places: string -> Place) {
    c.conn == places(c.names.linkID).conn && c.names.scheme == places(c.names.linkID).scheme
  }

  // In any run, whoever made the transport: it is for the caller's own link, and a request sent with it is
  // answered exactly when its maker, whose connection and names it has, had the link's. For a caller that
  // has the link's itself, that is when the maker's connection and scheme are its own.
  lemma AnsweredExactly(labels: seq<Label>, pairs: KeyPairCheck, a: nat, uid: Uid, places: string -> Place)
    returns (m: nat)
    requires After(labels, pairs).Some?
    requires a in After(labels, pairs).value.finished && After(labels, pairs).value.finished[a].result.Ok?
    ensures var f := After(labels, pairs).value.finished;
      var e, own := f[a].result.value, f[a].call;
      && MakerOf(f, m, a) && e.names.linkID == own.names.linkID
      && (Answered(e, uid, places) <==> WellPlaced(f[m].call, places))
      && (WellPlaced(own, places) ==>
            (Answered(e, uid, places) <==> f[m].call.conn == own.conn && f[m].call.names.scheme == own.names.scheme))
  {
    m := OwnExactly(labels, pairs, a);
    var e := After(labels, pairs).value.finished[a].result.value;
    var edge := Names(places(e.names.linkID).scheme, e.names.linkID);
    ResponseArrivesExactly(e.names, edge, uid);
    ResponseOnRightPrefix(e.names, uid);
    ImportedExactly(edge, ResponseSubjects(e.names, uid).edge, ResponseSubjects(e.names, uid).hub);
    HandlerReachedExactly(edge, e.names);
  }

  // When every caller has the connection and scheme of its link, every request is answered.
  lemma {:induction false} CallersWellPlaced(labels: seq<Label>, pairs: KeyPairCheck, places: string -> Place)
    requires After(labels, pairs).Some?
    requires forall l :: l in labels && l.Begin? ==> WellPlaced(l.call, places)
    ensures var s := After(labels, pairs).value;
      && (forall a :: a in s.pending ==> WellPlaced(s.pending[a], places))
      && (forall a :: a in s.finished ==> WellPlaced(s.finished[a].call, places))
  {
    if labels != [] {
      var before, last := labels[..|labels| - 1], labels[|labels| - 1];
      CallersWellPlaced(before, pairs, places);
      assert last in labels;
      var s := After(before, pairs).value;
      assert After(labels, pairs).value == DoStep(s, last, pairs);
    }
  }

  lemma AllAnswered(labels: seq<Label>, pairs: KeyPairCheck, a: nat, uid: Uid, places: string -> Place)
    requires After(labels, pairs).Some?
    requires forall l :: l in labels && l.Begin? ==> WellPlaced(l.call, places)
    requires a in After(labels, pairs).value.finished && After(labels, pairs).value.finished[a].result.Ok?
    ensures Answered(After(labels, pairs).value.finished[a].result.value, uid, places)
  {
    CallersWellPlaced(labels, pairs, places);
    var m := AnsweredExactly(labels, pairs, a, uid, places);
  }

  // But one caller with the wrong connection or scheme can spoil it for the others: here the second has the
  // link's own, finds the transport of the first, and is not answered.
  lemma NotAnswered(linkID: string, uid: Uid, pairs: KeyPairCheck)
    returns (labels: seq<Label>, places: string -> Place)
    ensures After(labels, pairs).Some? && forall l :: l in labels ==> PlainLabel(l)
    ensures var f := After(labels, pairs).value.finished;
      && 1 in f && f[1].result.Ok? && f[1].call.names.linkID == linkID
      && WellPlaced(f[1].call, places) && !Answered(f[1].result.value, uid, places)
  {
    labels := OthersTransport(linkID, 0, 1, pairs);
    places := _ => Place(1, SameAccount);
  }

  // In any run of plain calls, whoever made the transport: a request sent with it, if it gets to the edge of
  // its link, has its own bytes there, and is performed over the TLS settings the caller's configuration
  // intends and with its compression flag. Of what the edge does, the timeout alone is the maker's. Whether
  // it gets there, and the response back, AnsweredExactly says.
  lemma CachedTransportServesItsCaller(labels: seq<Label>, pairs: KeyPairCheck, a: nat, request: seq<byte>,
                                       deadline: Option<int>, now: int,
                                       readable: seq<byte> -> bool, roots: seq<byte> -> bool)
    requires After(labels, pairs).Some? && NeedsBoth(pairs) && forall l :: l in labels ==> PlainLabel(l)
    requires a in After(labels, pairs).value.finished && After(labels, pairs).value.finished[a].result.Ok?
    ensures var f := After(labels, pairs).value.finished[a];
      && f.result.value.names.linkID == f.call.names.linkID
      && Served(f.call, f.result.value, request, deadline, now, readable, roots, pairs)
  {
    var f := After(labels, pairs).value.finished[a];
    var m := OwnExactly(labels, pairs, a);
    CacheRefinesFreshBuild(labels, pairs);
    OnlyPlainFinish(labels, pairs);
    FreshServes(f.call, f.fsBuild, f.result.value, request, deadline, now, readable, roots, pairs);
  }

  lemma {:induction false} OnlyPlainFinish(labels: seq<Label>, pairs: KeyPairCheck)
    requires After(labels, pairs).Some? && forall l :: l in labels ==> PlainLabel(l)
    ensures var s := After(labels, pairs).value;
      && (forall a :: a in s.pending ==> PlainCall(s.pending[a]))
      && (forall a :: a in s.finished ==> PlainCall(s.finished[a].call))
  {
    if labels != [] {
      var before, last := labels[..|labels| - 1], labels[|labels| - 1];
      OnlyPlainFinish(before, pairs);
      assert PlainLabel(last);
      var s := After(before, pairs).value;
      assert After(labels, pairs).value == DoStep(s, last, pairs);
    }
  }

  // What an uncached build gives a plain call that succeeds, and what it leaves of the configuration.
  lemma FreshBuild(c: Call, fsBuild: Files, pairs: KeyPairCheck)
    requires PlainCall(c) && Fresh(c, fsBuild, pairs).Ok?
    ensures var u, settings := Load(c.tls, c.fsKey).tls, Fresh(c, fsBuild, pairs).value;
      && Build(u, fsBuild, pairs) == Built(u, Ok(settings.tls))
      && settings.disableCompression == c.disableCompression
  {
    KeyDeterminesSettings(c.tls, c.fsKey, fsBuild, c.names.linkID, c.disableCompression, pairs);
  }
}
