// The edge's side of a request: the envelope is read and the request set up. Whether bytes are a
// readable HTTP request is a parameter; so is everything that happens once the request is sent.
module EdgeRespond {
  import opened Prelude
  import opened Timeouts
  import opened TlsSettings
  import opened Envelope

  // How far the edge gets. Sent: the request goes out, over the default transport when the envelope
  // has no TLS settings, within the timeout.
  datatype Reached =
    | BadEnvelope
    | BadRequest(envelope: R)
    | BadSettings(envelope: R, error: Error)
    | Sent(envelope: R, client: Client, disableCompression: bool, timeout: Duration)

  method Respond(data: seq<byte>, readable: seq<byte> -> bool, roots: seq<byte> -> bool, pairs: KeyPairCheck)
    returns (reached: Reached)
    ensures reached == Handled(data, readable, roots, pairs)
  {
    var envelope := Unmarshal(data);
    if envelope.None? {
      return BadEnvelope;
    }
    var r := envelope.value;
    if !readable(r.request) {
      return BadRequest(r);
    }
    var client, disableCompression := DEFAULT_CLIENT, false;
    if r.tls.Some? {
      var settings := TLSConfigFor(r.tls.value, roots, pairs);
      if settings.Err? {
        return BadSettings(r, settings.error);
      }
      client, disableCompression := ClientOf(settings.value), r.disableCompression;
    }
    var timeout := r.timeout;
    if timeout == 0 {
      timeout := DEFAULT_TIMEOUT;
    }
    return Sent(r, client, disableCompression, timeout);
  }

  function Handled(data: seq<byte>, readable: seq<byte> -> bool, roots: seq<byte> -> bool, pairs: KeyPairCheck)
    : Reached
  {
    match Unmarshal(data)
    case None => BadEnvelope
    case Some(r) =>
      if !readable(r.request) then BadRequest(r)
      else
        match AtEdge(r.tls, roots, pairs)
        case Err(e) => BadSettings(r, e)
        case Ok(client) =>
          Sent(r, ClientOf(client), r.tls.Some? && r.disableCompression, EdgeTimeout(r.timeout))
  }

  // How far any data gets, whoever sent it: exactly what must hold for the request to go out, and what it
  // then goes out with.
  lemma ReachedExactly(data: seq<byte>, readable: seq<byte> -> bool, roots: seq<byte> -> bool, pairs: KeyPairCheck)
    ensures var reached := Handled(data, readable, roots, pairs);
      match Unmarshal(data)
      case None => reached == BadEnvelope
      case Some(r) =>
        && (reached == BadRequest(r) <==> !readable(r.request))
        && ((exists e :: reached == BadSettings(r, e)) <==>
              readable(r.request) && r.tls.Some? && !Acceptable(r.tls.value, roots, pairs))
        && (reached.Sent? <==> readable(r.request) && (r.tls.Some? ==> Acceptable(r.tls.value, roots, pairs)))
        && (reached.Sent? ==>
              && reached.envelope == r
              && reached.client == (if r.tls.Some? then Asked(r.tls.value) else DEFAULT_CLIENT)
              && reached.disableCompression == (r.tls.Some? && r.disableCompression)
              && reached.timeout == if r.timeout == 0 then 30_000_000_000 else r.timeout)
  {
    var reached := Handled(data, readable, roots, pairs);
    assert reached.BadSettings? ==> reached == BadSettings(reached.envelope, reached.error);
  }

  // A request's trip, for every request, configuration and deadline: the edge has the request bytes of
  // the hub. It stops only at a request it cannot read and at root certificates that do not parse.
  // Otherwise it uses the intended TLS settings, and gives up before the hub if the hub waits more than
  // half a second. The compression flag counts only along with TLS settings.
  lemma RequestTrip(request: seq<byte>, t: TLS, fs: Files, readable: seq<byte> -> bool, roots: seq<byte> -> bool,
                    pairs: KeyPairCheck, configured: Duration, deadline: Option<int>, now: int,
                    disableCompression: bool)
    requires NeedsBoth(pairs) && Build(t, fs, pairs).result.Ok?
    ensures var hub := HubTimeout(configured, deadline, now);
      var u, tls := Build(t, fs, pairs).tls, Build(t, fs, pairs).result.value;
      var shipped := R(request, tls, Shipped(hub), disableCompression);
      Handled(Marshal(shipped), readable, roots, pairs) ==
        if !readable(request) then BadRequest(shipped)
        else if u.ca != [] && tls.Some? && !roots(u.ca) then BadSettings(shipped, BadRoots)
        else Sent(shipped, Intended(u), tls.Some? && disableCompression,
                  if hub > MARGIN then hub - MARGIN else DEFAULT_TIMEOUT)
  {
    var hub := HubTimeout(configured, deadline, now);
    EnvelopeRoundTrip(R(request, Build(t, fs, pairs).result.value, Shipped(hub), disableCompression));
    MeaningSurvives(t, fs, roots, pairs);
    EdgeTimeoutBudget(hub);
  }
}
