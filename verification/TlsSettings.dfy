// TLS settings: loaded from files into the client configuration at the hub, shipped, and rebuilt at
// the edge. Key-pair and root-certificate checks are parameters.
module TlsSettings {
  import opened Prelude

  // Readable files and their contents at one moment; reading any other file fails.
  type Snapshot = map<string, seq<byte>>

  // The files at each of the three moments at which a load reads one.
  datatype Files = Files(ca: Snapshot, cert: Snapshot, key: Snapshot)

  const NO_FILES: Files := Files(map[], map[], map[])

  datatype Error =
    | CannotRead(file: string)
    | RootsWithInsecure
    | BadKeyPair(text: string)
    | BadRoots
    | CustomTransport
    | CustomProxy

  // The TLS part of a client configuration. callback: a certificate callback is set.
  datatype TLS = TLS(
    caFile: string, certFile: string, keyFile: string, reload: bool,
    insecure: bool, serverName: string,
    ca: seq<byte>, cert: seq<byte>, key: seq<byte>,
    nextProtos: seq<string>, callback: bool)

  // None when certificate and key go together, else what is wrong with them.
  type KeyPairCheck = (seq<byte>, seq<byte>) -> Option<string>

  class Config {
    var tls: TLS
    const disableCompression: bool
    const customTransport: bool
    const proxy: bool

    constructor (tls: TLS, disableCompression: bool, customTransport: bool, proxy: bool)
      ensures this.tls == tls && this.disableCompression == disableCompression
      ensures this.customTransport == customTransport && this.proxy == proxy
    {
      this.tls, this.disableCompression := tls, disableCompression;
      this.customTransport, this.proxy := customTransport, proxy;
    }
  }

  function DataFromSliceOrFile(data: seq<byte>, file: string, fs: Snapshot): Result<seq<byte>, Error> {
    if data != [] then Ok(data)
    else if file != "" then
      if file in fs then Ok(fs[file]) else Err(CannotRead(file))
    else Ok([])
  }

  datatype Loaded = Loaded(tls: TLS, err: Option<Error>)

  // A configuration that names files only, for certificate and key both, is marked for reloading.
  predicate PurelyFromFiles(t: TLS) {
    t.certFile != "" && t.cert == [] && t.keyFile != "" && t.key == []
  }

  function Load(t: TLS, fs: Files): Loaded {
    match DataFromSliceOrFile(t.ca, t.caFile, fs.ca)
    case Err(e) => Loaded(t.(ca := []), Some(e))
    case Ok(ca) =>
      var t1 := t.(ca := ca, reload := t.reload || PurelyFromFiles(t));
      match DataFromSliceOrFile(t1.cert, t1.certFile, fs.cert)
      case Err(e) => Loaded(t1.(cert := []), Some(e))
      case Ok(cert) =>
        match DataFromSliceOrFile(t1.key, t1.keyFile, fs.key)
        case Err(e) => Loaded(t1.(cert := cert, key := []), Some(e))
        case Ok(key) => Loaded(t1.(cert := cert, key := key), None)
  }

  method LoadTLSFiles(c: Config, fs: Files) returns (err: Option<Error>)
    modifies c
    ensures Loaded(c.tls, err) == Load(old(c.tls), fs)
  {
    match DataFromSliceOrFile(c.tls.ca, c.tls.caFile, fs.ca) {
      case Err(e) =>
        c.tls := c.tls.(ca := []);
        return Some(e);
      case Ok(data) =>
        c.tls := c.tls.(ca := data);
    }
    if c.tls.certFile != "" && c.tls.cert == [] && c.tls.keyFile != "" && c.tls.key == [] {
      c.tls := c.tls.(reload := true);
    }
    match DataFromSliceOrFile(c.tls.cert, c.tls.certFile, fs.cert) {
      case Err(e) =>
        c.tls := c.tls.(cert := []);
        return Some(e);
      case Ok(data) =>
        c.tls := c.tls.(cert := data);
    }
    match DataFromSliceOrFile(c.tls.key, c.tls.keyFile, fs.key) {
      case Err(e) =>
        c.tls := c.tls.(key := []);
        return Some(e);
      case Ok(data) =>
        c.tls := c.tls.(key := data);
    }
    return None;
  }

  // What one of the three data is after loading: the data there was, else the contents of the named file.
  predicate IsLoaded(before: seq<byte>, file: string, fs: Snapshot, after: seq<byte>) {
    if before != [] then after == before
    else if file != "" then file in fs && after == fs[file]
    else after == []
  }

  predicate IsMissing(before: seq<byte>, file: string, fs: Snapshot) {
    before == [] && file != "" && file !in fs
  }

  // A load succeeds exactly when every file it needs is there; otherwise the first one missing is the error.
  // As far as it gets, each of the data is the caller's or the file's, and the configuration is marked for
  // reloading exactly when it was, or certificate and key are both named as files and neither is given as
  // data. Nothing else changes.
  lemma LoadExactly(t: TLS, fs: Files)
    ensures var noCA, noCert, noKey :=
        IsMissing(t.ca, t.caFile, fs.ca), IsMissing(t.cert, t.certFile, fs.cert), IsMissing(t.key, t.keyFile, fs.key);
      var u := Load(t, fs).tls;
      && Load(t, fs).err == (
           if noCA then Some(CannotRead(t.caFile))
           else if noCert then Some(CannotRead(t.certFile))
           else if noKey then Some(CannotRead(t.keyFile))
           else None)
      && (noCA ==> u == t)
      && (!noCA ==> IsLoaded(t.ca, t.caFile, fs.ca, u.ca))
      && (!noCA && !noCert ==> IsLoaded(t.cert, t.certFile, fs.cert, u.cert))
      && (!noCA && !noCert && !noKey ==> IsLoaded(t.key, t.keyFile, fs.key, u.key))
      && (!noCA && noCert ==> u.cert == t.cert) && ((noCert || noKey) ==> u.key == t.key)
      && (!noCA ==>
            (u.reload <==> t.reload || (t.certFile != "" && t.keyFile != "" && t.cert == [] && t.key == [])))
      && u == t.(ca := u.ca, cert := u.cert, key := u.key, reload := u.reload)
  {
  }

  // ---------------------------------------------------------------------------------------------
  // Loading twice.

  // A file that loading would read is not an empty one.
  predicate ReadsNonEmpty(data: seq<byte>, file: string, fs: Snapshot) {
    data == [] && file in fs ==> file == "" || fs[file] != []
  }

  predicate NamedFilesNonEmpty(t: TLS, fs: Files) {
    && ReadsNonEmpty(t.ca, t.caFile, fs.ca)
    && ReadsNonEmpty(t.cert, t.certFile, fs.cert)
    && ReadsNonEmpty(t.key, t.keyFile, fs.key)
  }

  // After a successful load, a second one finds nothing to read, and so changes nothing and cannot
  // fail whatever has become of the files, exactly when every file the first one read is non-empty.
  lemma SecondLoadIsIdleExactly(t: TLS, fs: Files)
    requires Load(t, fs).err.None?
    ensures NamedFilesNonEmpty(t, fs) <==> forall fs' :: Load(Load(t, fs).tls, fs') == Load(t, fs)
  {
    var once := Load(t, fs);
    if NamedFilesNonEmpty(t, fs) {
      forall fs'
        ensures Load(once.tls, fs') == once
      {
      }
    } else {
      assert Load(once.tls, NO_FILES).err.Some?;
    }
  }

  // ---------------------------------------------------------------------------------------------
  // The settings that are shipped.

  datatype PersistableTLS = PersistableTLS(
    insecure: bool, serverName: string, ca: seq<byte>, cert: seq<byte>, key: seq<byte>, nextProtos: seq<string>)

  predicate HasCA(t: TLS) {
    t.ca != [] || t.caFile != ""
  }

  predicate HasCertAuth(t: TLS) {
    (t.cert != [] || t.certFile != "") && (t.key != [] || t.keyFile != "")
  }

  datatype Built = Built(tls: TLS, result: Result<Option<PersistableTLS>, Error>)

  function Build(t: TLS, fs: Files, pairs: KeyPairCheck): Built {
    if !HasCA(t) && !HasCertAuth(t) && !t.callback && !t.insecure && t.serverName == "" && t.nextProtos == [] then
      Built(t, Ok(None))
    else if HasCA(t) && t.insecure then
      Built(t, Err(RootsWithInsecure))
    else
      var l := Load(t, fs);
      if l.err.Some? then Built(l.tls, Err(l.err.value))
      else
        var u := l.tls;
        if HasCertAuth(u) && !u.reload then
          match pairs(u.cert, u.key)
          case Some(text) => Built(u, Err(BadKeyPair(text)))
          case None => Built(u, Ok(Some(PersistableTLS(u.insecure, u.serverName, u.ca, u.cert, u.key, u.nextProtos))))
        else
          Built(u, Ok(Some(PersistableTLS(u.insecure, u.serverName, u.ca, [], [], u.nextProtos))))
  }

  method PersistableTLSConfigFor(c: Config, fs: Files, pairs: KeyPairCheck)
    returns (r: Result<Option<PersistableTLS>, Error>)
    modifies c
    ensures Built(c.tls, r) == Build(old(c.tls), fs, pairs)
  {
    if !HasCA(c.tls) && !HasCertAuth(c.tls) && !c.tls.callback && !c.tls.insecure && c.tls.serverName == ""
       && c.tls.nextProtos == [] {
      return Ok(None);
    }
    if HasCA(c.tls) && c.tls.insecure {
      return Err(RootsWithInsecure);
    }
    var err := LoadTLSFiles(c, fs);
    if err.Some? {
      return Err(err.value);
    }
    var settings := PersistableTLS(c.tls.insecure, c.tls.serverName, c.tls.ca, [], [], c.tls.nextProtos);
    if HasCertAuth(c.tls) && !c.tls.reload {
      var failure := pairs(c.tls.cert, c.tls.key);
      if failure.Some? {
        return Err(BadKeyPair(failure.value));
      }
      settings := settings.(cert := c.tls.cert, key := c.tls.key);
    }
    return Ok(Some(settings));
  }

  predicate ShipsNoPair(r: Result<Option<PersistableTLS>, Error>) {
    r.Ok? && r.value.Some? ==> r.value.value.cert == [] && r.value.value.key == []
  }

  lemma ReloadingShipsNoPair(t: TLS, fs: Files, pairs: KeyPairCheck)
    requires Load(t, fs).err.None? ==> Load(t, fs).tls.reload
    ensures ShipsNoPair(Build(t, fs, pairs).result)
  {
  }

  // A certificate and key that are only named as files are never shipped, whether or not the configuration
  // was loaded before, as it is for the cache key.
  lemma FilePairStaysHome(t: TLS, fsKey: Files, fs: Files, pairs: KeyPairCheck)
    requires t.certFile != "" && t.keyFile != "" && t.cert == [] && t.key == []
    ensures ShipsNoPair(Build(t, fs, pairs).result)
    ensures Load(t, fsKey).err.None? ==> ShipsNoPair(Build(Load(t, fsKey).tls, fs, pairs).result)
  {
    LoadExactly(t, fs);
    ReloadingShipsNoPair(t, fs, pairs);
    if Load(t, fsKey).err.None? {
      LoadExactly(t, fsKey);
      LoadExactly(Load(t, fsKey).tls, fs);
      ReloadingShipsNoPair(Load(t, fsKey).tls, fs, pairs);
    }
  }

  // ---------------------------------------------------------------------------------------------
  // The edge.

  // The edge's client settings. roots None: the system's root certificates.
  datatype Client = Client(
    insecure: bool, serverName: string, nextProtos: seq<string>,
    roots: Option<seq<byte>>, cert: Option<(seq<byte>, seq<byte>)>)

  const DEFAULT_CLIENT: Client := Client(false, "", [], None, None)

  predicate ShippedCA(p: PersistableTLS) {
    p.ca != []
  }

  predicate ShippedCertAuth(p: PersistableTLS) {
    p.cert != [] && p.key != []
  }

  // What the edge takes from the settings, when they are acceptable.
  function Asked(p: PersistableTLS): Client {
    Client(p.insecure, p.serverName, p.nextProtos,
           if ShippedCA(p) then Some(p.ca) else None,
           if ShippedCertAuth(p) then Some((p.cert, p.key)) else None)
  }

  predicate Acceptable(p: PersistableTLS, roots: seq<byte> -> bool, pairs: KeyPairCheck) {
    && (p.ca != [] ==> !p.insecure && roots(p.ca))
    && (ShippedCertAuth(p) ==> pairs(p.cert, p.key).None?)
  }

  method TLSConfigFor(p: PersistableTLS, roots: seq<byte> -> bool, pairs: KeyPairCheck)
    returns (r: Result<Option<Client>, Error>)
    ensures r == Rebuild(p, roots, pairs)
    ensures r.Ok? <==> Acceptable(p, roots, pairs)
    ensures r.Ok? ==> ClientOf(r.value) == Asked(p) && (r.value.None? <==> Asked(p) == DEFAULT_CLIENT)
  {
    if !ShippedCA(p) && !ShippedCertAuth(p) && !p.insecure && p.serverName == "" && p.nextProtos == [] {
      return Ok(None);
    }
    if ShippedCA(p) && p.insecure {
      return Err(RootsWithInsecure);
    }
    var client := Client(p.insecure, p.serverName, p.nextProtos, None, None);
    if ShippedCA(p) {
      if !roots(p.ca) {
        return Err(BadRoots);
      }
      client := client.(roots := Some(p.ca));
    }
    if ShippedCertAuth(p) {
      var failure := pairs(p.cert, p.key);
      if failure.Some? {
        return Err(BadKeyPair(failure.value));
      }
      client := client.(cert := Some((p.cert, p.key)));
    }
    return Ok(Some(client));
  }

  function Rebuild(p: PersistableTLS, roots: seq<byte> -> bool, pairs: KeyPairCheck): Result<Option<Client>, Error> {
    if !ShippedCA(p) && !ShippedCertAuth(p) && !p.insecure && p.serverName == "" && p.nextProtos == [] then Ok(None)
    else if ShippedCA(p) && p.insecure then Err(RootsWithInsecure)
    else if ShippedCA(p) && !roots(p.ca) then Err(BadRoots)
    else if ShippedCertAuth(p) && pairs(p.cert, p.key).Some? then Err(BadKeyPair(pairs(p.cert, p.key).value))
    else Ok(Some(Client(p.insecure, p.serverName, p.nextProtos,
                        if ShippedCA(p) then Some(p.ca) else None,
                        if ShippedCertAuth(p) then Some((p.cert, p.key)) else None)))
  }

  // No settings at all are the default ones.
  function ClientOf(c: Option<Client>): Client {
    match c
    case None => DEFAULT_CLIENT
    case Some(client) => client
  }

  // A key pair needs both parts.
  ghost predicate NeedsBoth(pairs: KeyPairCheck) {
    forall cert, key :: pairs(cert, key).None? ==> cert != [] && key != []
  }

  // What the settings of the hub's configuration come to after the trip: a client certificate only if
  // it is static, and then that one.
  function Intended(u: TLS): Client {
    Client(u.insecure, u.serverName, u.nextProtos,
           if u.ca != [] then Some(u.ca) else None,
           if HasCertAuth(u) && !u.reload then Some((u.cert, u.key)) else None)
  }

  // The edge's side of a request whose envelope carries these settings, or none.
  function AtEdge(p: Option<PersistableTLS>, roots: seq<byte> -> bool, pairs: KeyPairCheck)
    : Result<Option<Client>, Error>
  {
    match p
    case None => Ok(None)
    case Some(settings) => Rebuild(settings, roots, pairs)
  }

  // The meaning survives the trip: when the hub's build succeeds, the edge's settings are the intended
  // ones, and the edge can fail only, and does fail exactly, on root certificates that do not parse.
  lemma MeaningSurvives(t: TLS, fs: Files, roots: seq<byte> -> bool, pairs: KeyPairCheck)
    requires NeedsBoth(pairs) && Build(t, fs, pairs).result.Ok?
    ensures var u := Build(t, fs, pairs).tls;
      match AtEdge(Build(t, fs, pairs).result.value, roots, pairs)
      case Err(e) => u.ca != [] && !roots(u.ca) && e == BadRoots
      case Ok(client) => (u.ca == [] || roots(u.ca)) && ClientOf(client) == Intended(u)
  {
    var u := Build(t, fs, pairs).tls;
    if HasCertAuth(u) && !u.reload {
      assert pairs(u.cert, u.key).None?;
    }
  }
}
