// The NATS subjects of both naming schemes.
module Subjects {
  // CrossAccount: hub and edge live in different NATS accounts, and the edge does not see the link ID.
  datatype Scheme = CrossAccount | SameAccount

  datatype Names = Names(scheme: Scheme, linkID: string)

  const HANDLER: string := "k8s.proxy.handler"
  const RESP: string := "k8s.proxy.resp"

  predicate DotFree(s: string) {
    '.' !in s
  }

  // A request ID as xid makes them: letters and digits.
  type Uid = s: string | DotFree(s) witness ""

  function Dotted(prefix: string, s: string): string {
    prefix + "." + s
  }

  datatype Pair = Pair(hub: string, edge: string)

  function HandlerSubjects(n: Names): Pair {
    match n.scheme
    case CrossAccount => Pair(Dotted(HANDLER, n.linkID), HANDLER)
    case SameAccount => Pair(Dotted(HANDLER, n.linkID), Dotted(HANDLER, n.linkID))
  }

  function ResponseSubjects(n: Names, uid: string): Pair {
    match n.scheme
    case CrossAccount => Pair(Dotted(RESP, Dotted(n.linkID, uid)), Dotted(RESP, uid))
    case SameAccount => Pair(Dotted(RESP, Dotted(n.linkID, uid)), Dotted(RESP, Dotted(n.linkID, uid)))
  }

  // What the accounts' import makes of a subject the edge publishes on: with two accounts the link ID
  // is put in, with one nothing changes.
  function Imported(n: Names, edge: string): string {
    if n.scheme == CrossAccount && Dotted(RESP, "") <= edge
    then Dotted(RESP, Dotted(n.linkID, edge[|Dotted(RESP, "")|..]))
    else edge
  }

  // The link in a hub handler subject.
  function LinkOf(handler: string): string {
    if Dotted(HANDLER, "") <= handler then handler[|Dotted(HANDLER, "")|..] else ""
  }

  // The accounts' imports, by their strings: which subscriptions of the edge a request on a hub subject
  // gets to, and on which hub subjects a message of the edge arrives.
  predicate ReachesEdge(n: Names, published: string, subscribed: string) {
    match n.scheme
    case CrossAccount => published == "k8s.proxy.handler." + n.linkID && subscribed == "k8s.proxy.handler"
    case SameAccount => published == subscribed
  }

  ghost predicate ReachesHub(n: Names, published: string, subscribed: string) {
    match n.scheme
    case CrossAccount => exists id: string ::
      published == "k8s.proxy.resp." + id && subscribed == "k8s.proxy.resp." + n.linkID + "." + id
    case SameAccount => published == subscribed
  }

  // The edge listens where requests for its link get to, and only those get there.
  lemma RequestReachesExactly(n: Names, published: string)
    ensures ReachesEdge(n, published, HandlerSubjects(n).edge) <==> published == HandlerSubjects(n).hub
  {
    assert Dotted("k8s.proxy.handler", n.linkID) == "k8s.proxy.handler." + n.linkID;
  }

  lemma HandlerReachedExactly(n: Names, m: Names)
    ensures ReachesEdge(n, HandlerSubjects(m).hub, HandlerSubjects(n).edge) <==> n.linkID == m.linkID
  {
    RequestReachesExactly(n, HandlerSubjects(m).hub);
    HandlerHubInjective(n, m);
  }

  // Imported is that, for every subject that a response can have.
  lemma ImportedExactly(n: Names, published: string, subscribed: string)
    requires "k8s.proxy.resp." <= published
    ensures ReachesHub(n, published, subscribed) <==> Imported(n, published) == subscribed
  {
    if n.scheme == CrossAccount {
      var prefix := "k8s.proxy.resp.";
      var id := published[|prefix|..];
      assert Dotted(RESP, "") == prefix && published == prefix + id;
      assert Dotted(RESP, Dotted(n.linkID, id)) == prefix + n.linkID + "." + id;
      forall other: string | published == prefix + other
        ensures other == id
      {
        assert published[|prefix|..] == other;
      }
    }
  }

  lemma ResponseOnRightPrefix(n: Names, uid: Uid)
    ensures "k8s.proxy.resp." <= ResponseSubjects(n, uid).edge
  {
    assert Dotted(RESP, Dotted(n.linkID, uid)) == "k8s.proxy.resp." + Dotted(n.linkID, uid);
    assert Dotted(RESP, uid) == "k8s.proxy.resp." + uid;
  }

  // What the hub listens on and tells the edge to answer on: the edge's answers get there, and carry the
  // link and the request.
  lemma ResponseReaches(n: Names, uid: Uid)
    ensures ReachesHub(n, ResponseSubjects(n, uid).edge, ResponseSubjects(n, uid).hub)
    ensures ResponseSubjects(n, uid).hub == "k8s.proxy.resp." + n.linkID + "." + uid
  {
    assert Dotted(RESP, Dotted(n.linkID, uid)) == "k8s.proxy.resp." + n.linkID + "." + uid;
    assert Dotted(RESP, uid) == "k8s.proxy.resp." + uid;
  }

  lemma DottedInjective(prefix: string, a: string, b: string)
    ensures Dotted(prefix, a) == Dotted(prefix, b) <==> a == b
  {
    assert Dotted(prefix, a)[|prefix| + 1..] == a;
    assert Dotted(prefix, b)[|prefix| + 1..] == b;
  }

  // The last dot separates link ID from request ID, whatever dots the link ID has.
  lemma LastDotSeparates(link: string, uid: string, link': string, uid': string)
    requires DotFree(uid) && DotFree(uid')
    requires Dotted(link, uid) == Dotted(link', uid')
    ensures link == link' && uid == uid'
  {
    var s := Dotted(link, uid);
    assert s[|link|] == '.' && s[|link'|] == '.';
    assert forall i :: |link| < i < |s| ==> s[i] == uid[i - |link| - 1];
    assert forall i :: |link'| < i < |s| ==> s[i] == uid'[i - |link'| - 1];
    assert |link| == |link'|;
    assert s[..|link|] == link && Dotted(link', uid')[..|link'|] == link';
    assert s[|link| + 1..] == uid && Dotted(link', uid')[|link'| + 1..] == uid';
  }

  // Hub response subjects tell apart every link and request.
  lemma ResponseHubInjective(n: Names, uid: Uid, n': Names, uid': Uid)
    ensures ResponseSubjects(n, uid).hub == ResponseSubjects(n', uid').hub
       <==> n.linkID == n'.linkID && uid == uid'
  {
    DottedInjective(RESP, Dotted(n.linkID, uid), Dotted(n'.linkID, uid'));
    if Dotted(n.linkID, uid) == Dotted(n'.linkID, uid') {
      LastDotSeparates(n.linkID, uid, n'.linkID, uid');
    }
  }

  // The request ID may have no dot for that: here two links share a subject.
  lemma DotsInUidCollide()
    ensures ResponseSubjects(Names(CrossAccount, "a"), "b.c").hub
         == ResponseSubjects(Names(CrossAccount, "a.b"), "c").hub
  {
    assert Dotted("a", "b.c") == "a.b.c" == Dotted("a.b", "c");
  }

  // For a fixed link, the edge subject determines the request, hence the hub subject, and back.
  lemma ResponseSidesAgree(n: Names, uid: Uid, uid': Uid)
    ensures ResponseSubjects(n, uid).edge == ResponseSubjects(n, uid').edge <==> uid == uid'
    ensures ResponseSubjects(n, uid).edge == ResponseSubjects(n, uid').edge
       <==> ResponseSubjects(n, uid).hub == ResponseSubjects(n, uid').hub
  {
    ResponseHubInjective(n, uid, n, uid');
    DottedInjective(RESP, uid, uid');
  }

  // What the edge publishes for a request arrives on the subject the hub subscribed to for it.
  lemma ImportedResponse(n: Names, uid: Uid)
    ensures Imported(n, ResponseSubjects(n, uid).edge) == ResponseSubjects(n, uid).hub
  {
    if n.scheme == CrossAccount {
      var edge := ResponseSubjects(n, uid).edge;
      assert edge == Dotted(RESP, "") + uid;
      assert edge[|Dotted(RESP, "")|..] == uid;
    }
  }

  // If the hub names subjects by one scheme, and the edge of the link is reached under another, nothing the
  // edge publishes arrives where the hub listens.
  lemma ResponseArrivesExactly(hub: Names, edge: Names, uid: Uid)
    requires hub.linkID == edge.linkID
    ensures Imported(edge, ResponseSubjects(hub, uid).edge) == ResponseSubjects(hub, uid).hub
       <==> hub.scheme == edge.scheme
  {
    if hub.scheme == edge.scheme {
      ImportedResponse(hub, uid);
    } else if hub.scheme == SameAccount {
      var inner := Dotted(hub.linkID, uid);
      var subject := ResponseSubjects(hub, uid).edge;
      assert subject == Dotted(RESP, "") + inner;
      assert subject[|Dotted(RESP, "")|..] == inner;
      assert |Imported(edge, subject)| > |subject|;
    } else {
      assert |ResponseSubjects(hub, uid).edge| < |ResponseSubjects(hub, uid).hub|;
    }
  }

  // No handler subject is a response subject, on either side, in either scheme.
  lemma HandlersApart(n: Names, n': Names, uid: string)
    ensures var h, r := HandlerSubjects(n), ResponseSubjects(n', uid);
      h.hub != r.hub && h.hub != r.edge && h.edge != r.hub && h.edge != r.edge
  {
    var h, r := HandlerSubjects(n), ResponseSubjects(n', uid);
    assert h.hub[10] == 'h' && h.edge[10] == 'h' && r.hub[10] == 'r' && r.edge[10] == 'r';
  }

  // Handler subjects tell the links apart where the link is in them.
  lemma HandlerHubInjective(n: Names, n': Names)
    ensures HandlerSubjects(n).hub == HandlerSubjects(n').hub <==> n.linkID == n'.linkID
  {
    DottedInjective(HANDLER, n.linkID, n'.linkID);
  }

  lemma LinkOfHandler(n: Names)
    ensures LinkOf(HandlerSubjects(n).hub) == n.linkID
  {
    assert HandlerSubjects(n).hub == Dotted(HANDLER, "") + n.linkID;
  }
}
