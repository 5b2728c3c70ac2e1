// The cache of transports, keyed by what their TLS settings are made from.
module TlsCache {
  import opened Prelude
  import opened Subjects
  import opened Timeouts
  import opened TlsSettings
  import opened CommaLists

  datatype Key = Key(
    insecure: bool, ca: seq<byte>, cert: seq<byte>, key: seq<byte>, certFile: string, keyFile: string,
    serverName: string, linkID: string, nextProtos: string, disableCompression: bool)

  // The key of a loaded configuration: file names for one that reloads, contents otherwise.
  function KeyOf(t: TLS, linkID: string, disableCompression: bool): Key {
    Key(t.insecure, t.ca,
        if t.reload then [] else t.cert, if t.reload then [] else t.key,
        if t.reload then t.certFile else "", if t.reload then t.keyFile else "",
        t.serverName, linkID, Join(t.nextProtos), disableCompression)
  }

  // Two loaded configurations with one key: they agree in everything that decides the settings, in their
  // protocol names up to commas, and in link and flag. If both reload, that means the names of their files,
  // if neither does, the data; if only one does, it names no files and the other has no data.
  ghost predicate AgreeOnFiles(t: TLS, t': TLS) {
    if t.reload && t'.reload then t.certFile == t'.certFile && t.keyFile == t'.keyFile
    else if t.reload then t.certFile == "" && t.keyFile == "" && t'.cert == [] && t'.key == []
    else if t'.reload then t'.certFile == "" && t'.keyFile == "" && t.cert == [] && t.key == []
    else t.cert == t'.cert && t.key == t'.key
  }

  ghost predicate Agree(t: TLS, t': TLS) {
    && t.insecure == t'.insecure && t.ca == t'.ca && t.serverName == t'.serverName
    && Pieces(t.nextProtos) == Pieces(t'.nextProtos) && AgreeOnFiles(t, t')
  }

  lemma KeysAgreeExactly(t: TLS, t': TLS, linkID: string, linkID': string, compress: bool, compress': bool)
    ensures KeyOf(t, linkID, compress) == KeyOf(t', linkID', compress') <==>
      Agree(t, t') && linkID == linkID' && compress == compress'
  {
    JoinsAgreeExactly(t.nextProtos, t'.nextProtos);
  }

  method TlsConfigKey(c: Config, names: Names, fs: Files)
    returns (key: Option<Key>, err: Option<Error>)  // no key and no error: not cacheable
    modifies c
    ensures Loaded(c.tls, err) == Load(old(c.tls), fs)
    ensures key == if err.Some? || c.proxy then None else Some(KeyOf(c.tls, names.linkID, c.disableCompression))
  {
    err := LoadTLSFiles(c, fs);
    if err.Some? {
      return None, err;
    }
    if c.proxy {
      return None, None;
    }
    var k := Key(c.tls.insecure, c.tls.ca, [], [], "", "", c.tls.serverName, names.linkID,
                 Join(c.tls.nextProtos), c.disableCompression);
    if c.tls.reload {
      k := k.(certFile := c.tls.certFile, keyFile := c.tls.keyFile);
    } else {
      k := k.(cert := c.tls.cert, key := c.tls.key);
    }
    return Some(k), None;
  }

  // What a transport does that its TLS settings, link and compression flag decide.
  datatype Settings = Settings(tls: Option<PersistableTLS>, linkID: string, disableCompression: bool)

  // A connection, by its identity.
  type Conn = nat

  // A transport object: its identity, and what it was made with.
  datatype Entry = Entry(id: nat, conn: Conn, names: Names, timeout: Duration, settings: Settings)

  // A call, and the files it found when it made its key.
  datatype Call = Call(
    tls: TLS, conn: Conn, names: Names, timeout: Duration, disableCompression: bool, proxy: bool, fsKey: Files)

  // What a transport has from its maker that is not in the key: the link ID apart.
  predicate MadeFor(e: Entry, c: Call) {
    e.conn == c.conn && e.names == c.names && e.timeout == c.timeout
  }

  function KeyFor(c: Call): Key {
    KeyOf(Load(c.tls, c.fsKey).tls, c.names.linkID, c.disableCompression)
  }

  datatype Locked = Locked(cache: map<Key, Entry>, made: nat, result: Result<Entry, Error>)

  // The part of a call under the lock, and the end of one that has no key.
  function Serve(cache: map<Key, Entry>, made: nat, c: Call, fs: Files, pairs: KeyPairCheck): Locked {
    var loaded := Load(c.tls, c.fsKey);
    if loaded.err.Some? then Locked(cache, made, Err(loaded.err.value))
    else if !c.proxy && KeyFor(c) in cache then Locked(cache, made, Ok(cache[KeyFor(c)]))
    else
      match Build(loaded.tls, fs, pairs).result
      case Err(e) => Locked(cache, made, Err(e))
      case Ok(settings) =>
        var e := Entry(made, c.conn, c.names, c.timeout,
                       Settings(settings, c.names.linkID, c.disableCompression));
        Locked(if c.proxy then cache else cache[KeyFor(c) := e], made + 1, Ok(e))
  }

  // What has become of the caller's configuration: loaded, and loaded again if settings were made.
  function TlsAfter(cache: map<Key, Entry>, c: Call, fs: Files, pairs: KeyPairCheck): TLS {
    var loaded := Load(c.tls, c.fsKey);
    if loaded.err.Some? || (!c.proxy && KeyFor(c) in cache) then loaded.tls else Build(loaded.tls, fs, pairs).tls
  }

  class NatsTransport {
    ghost const id: nat
    const conn: Conn
    const names: Names
    const timeout: Duration
    const settings: Settings

    ghost function Value(): Entry {
      Entry(id, conn, names, timeout, settings)
    }

    constructor (ghost id: nat, conn: Conn, names: Names, timeout: Duration, settings: Settings)
      ensures Value() == Entry(id, conn, names, timeout, settings)
    {
      this.id, this.conn, this.names, this.timeout, this.settings := id, conn, names, timeout, settings;
    }
  }

  ghost function ValueOf(r: Result<NatsTransport, Error>): Result<Entry, Error> {
    match r
    case Ok(t) => Ok(t.Value())
    case Err(e) => Err(e)
  }

  class TlsTransportCache {
    var transports: map<Key, NatsTransport>
    ghost var made: nat

    ghost function View(): map<Key, Entry>
      reads this
    {
      map k | k in transports :: transports[k].Value()
    }

    constructor ()
      ensures transports == map[] && made == 0
    {
      transports, made := map[], 0;
    }

    method Store(key: Key, rt: NatsTransport)
      modifies this`transports
      ensures transports == old(transports)[key := rt]
      ensures View() == old(View())[key := rt.Value()]
    {
      transports := transports[key := rt];
    }

    // The files may change between the two times they are read: fsKey, then fsBuild.
    method Get(c: Config, conn: Conn, names: Names, timeout: Duration, fsKey: Files, fsBuild: Files,
               pairs: KeyPairCheck)
      returns (r: Result<NatsTransport, Error>)
      modifies this, c
      ensures var call := Call(old(c.tls), conn, names, timeout, c.disableCompression, c.proxy, fsKey);
        var locked := Serve(old(View()), old(made), call, fsBuild, pairs);
        && View() == locked.cache && made == locked.made && ValueOf(r) == locked.result
        && c.tls == TlsAfter(old(View()), call, fsBuild, pairs)
        && (r.Ok? && !c.proxy ==> KeyFor(call) in transports && transports[KeyFor(call)] == r.value)
      ensures forall k :: k in old(transports) ==> k in transports && transports[k] == old(transports)[k]
      ensures r.Ok? ==> fresh(r.value) || r.value in old(transports).Values
    {
      ghost var call := Call(c.tls, conn, names, timeout, c.disableCompression, c.proxy, fsKey);
      var key, err := TlsConfigKey(c, names, fsKey);
      if err.Some? {
        return Err(err.value);
      }
      if key.Some? && key.value in transports {
        assert transports[key.value] in transports.Values;
        return Ok(transports[key.value]);
      }
      var settings := PersistableTLSConfigFor(c, fsBuild, pairs);
      if settings.Err? {
        return Err(settings.error);
      }
      var rt := new NatsTransport(made, conn, names, timeout,
                                  Settings(settings.value, names.linkID, c.disableCompression));
      made := made + 1;
      if key.Some? {
        Store(key.value, rt);
      }
      return Ok(rt);
    }

    // New, up to the wrappers it puts around the transport.
    method New(c: Config, conn: Conn, names: Names, timeout: Duration, fsKey: Files, fsBuild: Files,
               pairs: KeyPairCheck)
      returns (r: Result<NatsTransport, Error>)
      modifies this, c
      ensures c.customTransport ==> r == Err(CustomTransport)
      ensures !c.customTransport && c.proxy ==> r == Err(CustomProxy)
      ensures c.customTransport || c.proxy ==>
        transports == old(transports) && made == old(made) && c.tls == old(c.tls)
      ensures !c.customTransport && !c.proxy ==>
        var call := Call(old(c.tls), conn, names, timeout, c.disableCompression, false, fsKey);
        var locked := Serve(old(View()), old(made), call, fsBuild, pairs);
        && View() == locked.cache && made == locked.made && ValueOf(r) == locked.result
        && c.tls == TlsAfter(old(View()), call, fsBuild, pairs)
        && (r.Ok? ==> KeyFor(call) in transports && transports[KeyFor(call)] == r.value)
      ensures forall k :: k in old(transports) ==> k in transports && transports[k] == old(transports)[k]
    {
      if c.customTransport {
        return Err(CustomTransport);
      }
      if c.proxy {
        return Err(CustomProxy);
      }
      r := Get(c, conn, names, timeout, fsKey, fsBuild, pairs);
    }
  }

  // Without any TLS settings there is a transport all the same: one that ships none.
  lemma TransportWithoutTls(cache: map<Key, Entry>, made: nat, c: Call, fs: Files, pairs: KeyPairCheck)
    requires Load(c.tls, c.fsKey).err.None? && !Asks(Load(c.tls, c.fsKey).tls)
    ensures var r := Serve(cache, made, c, fs, pairs).result;
      && r.Ok?
      && (c.proxy || KeyFor(c) !in cache ==> r.value.id == made && r.value.settings.tls == None)
  {
  }

  // ---------------------------------------------------------------------------------------------
  // The key determines the settings.

  // Protocol names as TLS has them: not empty, and here without commas.
  predicate ProtocolNames(xs: seq<string>) {
    CommaFree(xs) && forall i :: 0 <= i < |xs| ==> xs[i] != ""
  }

  // A configuration as a caller sets it up, the files it names not empty.
  predicate Plain(t: TLS, fs: Files) {
    !t.reload && !t.callback && ProtocolNames(t.nextProtos) && NamedFilesNonEmpty(t, fs)
  }

  // The settings that go with a key, or the error they make.
  function BuildFromKey(k: Key, pairs: KeyPairCheck): Result<Option<PersistableTLS>, Error> {
    var protos := if k.nextProtos == "" then [] else Split(k.nextProtos);
    var isStatic := k.cert != [] && k.key != [];
    var reload := k.certFile != "" && k.keyFile != "";
    if k.ca == [] && !isStatic && !reload && !k.insecure && k.serverName == "" && protos == [] then Ok(None)
    else if k.ca != [] && k.insecure then Err(RootsWithInsecure)
    else if isStatic && pairs(k.cert, k.key).Some? then Err(BadKeyPair(pairs(k.cert, k.key).value))
    else Ok(Some(PersistableTLS(k.insecure, k.serverName, k.ca,
                                if isStatic then k.cert else [], if isStatic then k.key else [], protos)))
  }

  lemma ProtocolNamesFromKey(xs: seq<string>)
    requires ProtocolNames(xs)
    ensures xs == if Join(xs) == "" then [] else Split(Join(xs))
  {
    SplitJoin(xs);
    PiecesCommaFree(xs);
    if xs != [] {
      assert xs[0] != "";
    }
  }

  // A plain configuration's settings, or its error, are those of its key, whatever happens to the
  // files after the key was made.
  lemma KeyDeterminesSettings(t: TLS, fsKey: Files, fsBuild: Files, linkID: string, compress: bool, pairs: KeyPairCheck)
    requires Plain(t, fsKey) && Load(t, fsKey).err.None?
    ensures var loaded := Load(t, fsKey);
      Build(loaded.tls, fsBuild, pairs) == Built(loaded.tls, BuildFromKey(KeyOf(loaded.tls, linkID, compress), pairs))
  {
    var loaded := Load(t, fsKey);
    FullyLoadedExactly(t, fsKey);
    BuildFullyLoaded(loaded.tls, fsBuild, pairs);
    ProtocolNamesFromKey(t.nextProtos);
  }

  // Equal keys of plain configurations: equal settings, equal errors.
  lemma EqualKeysEqualSettings(t: TLS, fs: Files, t': TLS, fs': Files, fsBuild: Files, fsBuild': Files,
                               linkID: string, linkID': string, compress: bool, compress': bool, pairs: KeyPairCheck)
    requires Plain(t, fs) && Load(t, fs).err.None? && Plain(t', fs') && Load(t', fs').err.None?
    requires KeyOf(Load(t, fs).tls, linkID, compress) == KeyOf(Load(t', fs').tls, linkID', compress')
    ensures Build(Load(t, fs).tls, fsBuild, pairs).result == Build(Load(t', fs').tls, fsBuild', pairs).result
    ensures linkID == linkID' && compress == compress'
  {
    KeyDeterminesSettings(t, fs, fsBuild, linkID, compress, pairs);
    KeyDeterminesSettings(t', fs', fsBuild', linkID', compress', pairs);
  }

  const NO_TLS: TLS := TLS("", "", "", false, false, "", [], [], [], [], false)

  // Protocol names with commas, and empty ones, are lost in the key.
  lemma NamesNeeded(linkID: string, compress: bool, pairs: KeyPairCheck)
    ensures var abOne, abTwo := NO_TLS.(nextProtos := ["a,b"]), NO_TLS.(nextProtos := ["a", "b"]);
      && KeyOf(abOne, linkID, compress) == KeyOf(abTwo, linkID, compress)
      && Build(abOne, NO_FILES, pairs).result != Build(abTwo, NO_FILES, pairs).result
    ensures var empty := NO_TLS.(nextProtos := [""]);
      && KeyOf(empty, linkID, compress) == KeyOf(NO_TLS, linkID, compress)
      && Build(empty, NO_FILES, pairs).result != Build(NO_TLS, NO_FILES, pairs).result
  {
    assert Join(["a", "b"]) == "a" + "," + Join(["b"]) by {
      assert ["a", "b"][1..] == ["b"];
    }
    assert Join(["a,b"]) == "a,b";
    assert Join(["a", "b"]) == "a,b";
    assert ["a,b"] != ["a", "b"] by {
      assert |["a,b"]| != |["a", "b"]|;
    }
  }

  // The other hypotheses: configurations with one key and different settings when there is a certificate
  // callback, when reloading was asked for beforehand, and when a named file is empty (then one of them
  // even has an error the other has not).
  lemma HypothesesNeeded(linkID: string, compress: bool, pairs: KeyPairCheck)
    requires NeedsBoth(pairs)
    ensures var none := NO_TLS;
      var callback := none.(callback := true);
      && KeyOf(callback, linkID, compress) == KeyOf(none, linkID, compress)
      && Build(callback, NO_FILES, pairs).result != Build(none, NO_FILES, pairs).result
      && var bare, loaded := none.(reload := true), none.(reload := true, cert := [1], key := [1]);
      && KeyOf(bare, linkID, compress) == KeyOf(loaded, linkID, compress)
      && Build(bare, NO_FILES, pairs).result != Build(loaded, NO_FILES, pairs).result
      && var fs := NO_FILES.(cert := map["f" := []]);
      && var keyOnly, withFile := none.(key := [1]), none.(certFile := "f", key := [1]);
      && KeyOf(Load(keyOnly, fs).tls, linkID, compress) == KeyOf(Load(withFile, fs).tls, linkID, compress)
      && Build(keyOnly, fs, pairs).result.Ok? && Build(withFile, fs, pairs).result.Err?
  {
    var withFile := NO_TLS.(certFile := "f", key := [1]);
    assert Load(withFile, NO_FILES.(cert := map["f" := []])).tls.cert == [];
  }

  // ---------------------------------------------------------------------------------------------
  // Exactly when equal keys mean equal settings.

  // Nothing is left to read from files.
  predicate FullyLoaded(t: TLS) {
    && (t.ca != [] || t.caFile == "")
    && (t.cert != [] || t.certFile == "")
    && (t.key != [] || t.keyFile == "")
  }

  // The configuration says something about TLS, so that settings are made for it.
  predicate Asks(t: TLS) {
    HasCA(t) || HasCertAuth(t) || t.callback || t.insecure || t.serverName != "" || t.nextProtos != []
  }

  // Settings are made exactly for those.
  lemma NoneExactly(t: TLS, fs: Files, pairs: KeyPairCheck)
    ensures Build(t, fs, pairs).result == Ok(None) <==> !Asks(t)
  {
  }

  predicate Rejected(t: TLS, pairs: KeyPairCheck) {
    (t.ca != [] && t.insecure) || (Static(t) && pairs(t.cert, t.key).Some?)
  }

  // Loading leaves nothing to read exactly when the files it reads are not empty.
  lemma FullyLoadedExactly(t: TLS, fs: Files)
    requires Load(t, fs).err.None?
    ensures FullyLoaded(Load(t, fs).tls) <==> NamedFilesNonEmpty(t, fs)
  {
  }

  predicate Static(t: TLS) {
    HasCertAuth(t) && !t.reload
  }

  lemma BuildFullyLoaded(t: TLS, fs: Files, pairs: KeyPairCheck)
    requires FullyLoaded(t)
    ensures Build(t, fs, pairs).tls == t
    ensures Build(t, fs, pairs).result ==
      if !Asks(t) then Ok(None)
      else if t.ca != [] && t.insecure then Err(RootsWithInsecure)
      else if Static(t) && pairs(t.cert, t.key).Some? then Err(BadKeyPair(pairs(t.cert, t.key).value))
      else Ok(Some(PersistableTLS(t.insecure, t.serverName, t.ca, if Static(t) then t.cert else [],
                                  if Static(t) then t.key else [], t.nextProtos)))
  {
    assert Load(t, fs) == Loaded(t, None);
  }

  // Two loaded configurations with one key get equal results exactly when both ask for settings or
  // neither does and, if they ask with different protocol names, settings are refused to them.
  lemma EqualKeysExactly(t: TLS, t': TLS, fs: Files, fs': Files, linkID: string, compress: bool, pairs: KeyPairCheck)
    requires FullyLoaded(t) && FullyLoaded(t') && KeyOf(t, linkID, compress) == KeyOf(t', linkID, compress)
    ensures Build(t, fs, pairs).result == Build(t', fs', pairs).result <==>
      (Asks(t) <==> Asks(t')) && (Asks(t) && t.nextProtos != t'.nextProtos ==> Rejected(t, pairs))
  {
    BuildFullyLoaded(t, fs, pairs);
    BuildFullyLoaded(t', fs', pairs);
  }
}
