// The request envelope: what the hub ships, and what the edge reads.
module Envelope {
  import opened Prelude
  import opened Timeouts
  import opened TlsSettings
  import Base64
  import Utf8
  import JsonText
  import opened Json

  datatype R = R(request: seq<byte>, tls: Option<PersistableTLS>, timeout: Duration, disableCompression: bool)

  // ---------------------------------------------------------------------------------------------
  // Encoding.

  function Bytes(bs: seq<byte>): Value {
    Text(Base64.Encode(bs))
  }

  function Texts(xs: seq<string>): Items {
    if xs == [] then NoItems else Item(Text(xs[0]), Texts(xs[1..]))
  }

  // A member that is left out when its value is empty.
  function Unless(empty: bool, name: string, v: Value, rest: Members): Members {
    if empty then rest else Member(name, v, rest)
  }

  function TlsMembers(p: PersistableTLS): Members {
    Unless(!p.insecure, "insecure", Bool(true),
      Unless(p.serverName == "", "serverName", Text(p.serverName),
        Unless(p.ca == [], "caData", Bytes(p.ca),
          Unless(p.cert == [], "certData", Bytes(p.cert),
            Unless(p.key == [], "keyData", Bytes(p.key),
              Unless(p.nextProtos == [], "nextProtos", Array(Texts(p.nextProtos)), NoMembers))))))
  }

  function ToJson(r: R): Value {
    Object(Member("Request", Bytes(r.request),
      Member("TLS", match r.tls case None => Null case Some(p) => Object(TlsMembers(p)),
        Member("Timeout", Number(JsonText.PrintInt(r.timeout as int)),
          Member("DisableCompression", Bool(r.disableCompression), NoMembers)))))
  }

  // The published bytes: the value on a line of its own.
  function Marshal(r: R): seq<byte> {
    Utf8.Encode(Print(ToJson(r)) + "\n")
  }

  // ---------------------------------------------------------------------------------------------
  // Decoding: members in any order, names in any case, unknown ones skipped, the last one of a name
  // deciding. null sets slices and pointers to nothing and leaves other fields alone.

  function FoldChar(c: char): char {
    if 'A' <= c <= 'Z' then 'a' + (c - 'A')
    else if c as int == 0x17F then 's'
    else if c as int == 0x212A then 'k'
    else c
  }

  function Fold(s: string): (r: string)
    ensures |r| == |s|
  {
    seq(|s|, i requires 0 <= i < |s| => FoldChar(s[i]))
  }

  function BytesOf(v: Value): Option<seq<byte>> {
    match v
    case Null => Some([])
    case Text(s) => Base64.Decode(s)
    case _ => None
  }

  function BoolOf(v: Value, previous: bool): Option<bool> {
    match v
    case Null => Some(previous)
    case Bool(b) => Some(b)
    case _ => None
  }

  function TextOf(v: Value, previous: string): Option<string> {
    match v
    case Null => Some(previous)
    case Text(s) => Some(s)
    case _ => None
  }

  function DurationOf(v: Value, previous: Duration): Option<Duration> {
    match v
    case Null => Some(previous)
    case Number(literal) =>
      (match JsonText.ReadInt(literal)
       case Some(n) => if -0x8000_0000_0000_0000 <= n < 0x8000_0000_0000_0000 then Some(n as Duration) else None
       case None => None)
    case _ => None
  }

  function TextsOf(items: Items): Option<seq<string>> {
    match items
    case NoItems => Some([])
    case Item(v, tail) =>
      match (TextOf(v, ""), TextsOf(tail))
      case (Some(s), Some(rest)) => Some([s] + rest)
      case _ => None
  }

  function NamesOf(v: Value): Option<seq<string>> {
    match v
    case Null => Some([])
    case Array(items) => TextsOf(items)
    case _ => None
  }

  datatype TlsField = Insecure | ServerName | CaData | CertData | KeyData | NextProtos | Other

  function TlsFieldOf(name: string): TlsField {
    var f := Fold(name);
    if f == "insecure" then Insecure
    else if f == "servername" then ServerName
    else if f == "cadata" then CaData
    else if f == "certdata" then CertData
    else if f == "keydata" then KeyData
    else if f == "nextprotos" then NextProtos
    else Other
  }

  function SetTls(p: PersistableTLS, f: TlsField, v: Value): Option<PersistableTLS> {
    match f
    case Insecure => (match BoolOf(v, p.insecure) case Some(b) => Some(p.(insecure := b)) case None => None)
    case ServerName => (match TextOf(v, p.serverName) case Some(s) => Some(p.(serverName := s)) case None => None)
    case CaData => (match BytesOf(v) case Some(bs) => Some(p.(ca := bs)) case None => None)
    case CertData => (match BytesOf(v) case Some(bs) => Some(p.(cert := bs)) case None => None)
    case KeyData => (match BytesOf(v) case Some(bs) => Some(p.(key := bs)) case None => None)
    case NextProtos => (match NamesOf(v) case Some(xs) => Some(p.(nextProtos := xs)) case None => None)
    case Other => Some(p)
  }

  function ReadTls(p: PersistableTLS, ms: Members): Option<PersistableTLS>
    decreases ms
  {
    match ms
    case NoMembers => Some(p)
    case Member(name, v, rest) =>
      match SetTls(p, TlsFieldOf(name), v)
      case None => None
      case Some(p') => ReadTls(p', rest)
  }

  const EMPTY_TLS: PersistableTLS := PersistableTLS(false, "", [], [], [], [])

  function TlsOf(v: Value, previous: Option<PersistableTLS>): Option<Option<PersistableTLS>> {
    match v
    case Null => Some(None)
    case Object(ms) =>
      (match ReadTls(if previous.Some? then previous.value else EMPTY_TLS, ms)
       case Some(p) => Some(Some(p))
       case None => None)
    case _ => None
  }

  datatype Field = Request | Tls | Timeout | DisableCompression | Unknown

  function FieldOf(name: string): Field {
    var f := Fold(name);
    if f == "request" then Request
    else if f == "tls" then Tls
    else if f == "timeout" then Timeout
    else if f == "disablecompression" then DisableCompression
    else Unknown
  }

  function Set(r: R, f: Field, v: Value): Option<R> {
    match f
    case Request => (match BytesOf(v) case Some(bs) => Some(r.(request := bs)) case None => None)
    case Tls => (match TlsOf(v, r.tls) case Some(p) => Some(r.(tls := p)) case None => None)
    case Timeout => (match DurationOf(v, r.timeout) case Some(d) => Some(r.(timeout := d)) case None => None)
    case DisableCompression =>
      (match BoolOf(v, r.disableCompression) case Some(b) => Some(r.(disableCompression := b)) case None => None)
    case Unknown => Some(r)
  }

  function Read(r: R, ms: Members): Option<R>
    decreases ms
  {
    match ms
    case NoMembers => Some(r)
    case Member(name, v, rest) =>
      match Set(r, FieldOf(name), v)
      case None => None
      case Some(r') => Read(r', rest)
  }

  const EMPTY_R: R := R([], None, 0, false)

  function FromJson(v: Value): Option<R> {
    match v
    case Null => Some(EMPTY_R)
    case Object(ms) => Read(EMPTY_R, ms)
    case _ => None
  }

  function Unmarshal(bs: seq<byte>): Option<R> {
    match ParseText(Utf8.Decode(bs))
    case None => None
    case Some(v) => FromJson(v)
  }

  // ---------------------------------------------------------------------------------------------
  // Round trip.

  lemma {:induction false} TextsPlain(xs: seq<string>)
    ensures PlainItems(Texts(xs)) && TextsOf(Texts(xs)) == Some(xs)
  {
    if xs != [] {
      TextsPlain(xs[1..]);
      assert [xs[0]] + xs[1..] == xs;
    }
  }

  // The names of members, in order.
  function NamesIn(ms: Members): seq<string> {
    match ms
    case NoMembers => []
    case Member(name, _, rest) => [name] + NamesIn(rest)
  }

  function NameIf(present: bool, name: string): seq<string> {
    if present then [name] else []
  }

  // Which members there are: all four of the envelope, and of the settings those that are not empty.
  lemma EnvelopeMembers(r: R)
    ensures ToJson(r).Object? && NamesIn(ToJson(r).members) == ["Request", "TLS", "Timeout", "DisableCompression"]
  {
    var m4 := ToJson(r).members.rest.rest.rest;
    assert NamesIn(m4) == ["DisableCompression"] && NamesIn(m4.rest) == [];
    assert NamesIn(ToJson(r).members.rest.rest) == ["Timeout", "DisableCompression"];
    assert NamesIn(ToJson(r).members.rest) == ["TLS", "Timeout", "DisableCompression"];
  }

  lemma UnlessNames(empty: bool, name: string, v: Value, rest: Members)
    ensures NamesIn(Unless(empty, name, v, rest)) == NameIf(!empty, name) + NamesIn(rest)
  {
  }

  lemma SettingsMembers(p: PersistableTLS)
    ensures NamesIn(TlsMembers(p)) ==
      NameIf(p.insecure, "insecure") + (NameIf(p.serverName != "", "serverName")
      + (NameIf(p.ca != [], "caData") + (NameIf(p.cert != [], "certData")
      + (NameIf(p.key != [], "keyData") + (NameIf(p.nextProtos != [], "nextProtos") + [])))))
  {
    var m6 := Unless(p.nextProtos == [], "nextProtos", Array(Texts(p.nextProtos)), NoMembers);
    var m5 := Unless(p.key == [], "keyData", Bytes(p.key), m6);
    var m4 := Unless(p.cert == [], "certData", Bytes(p.cert), m5);
    var m3 := Unless(p.ca == [], "caData", Bytes(p.ca), m4);
    var m2 := Unless(p.serverName == "", "serverName", Text(p.serverName), m3);
    UnlessNames(p.nextProtos == [], "nextProtos", Array(Texts(p.nextProtos)), NoMembers);
    UnlessNames(p.key == [], "keyData", Bytes(p.key), m6);
    UnlessNames(p.cert == [], "certData", Bytes(p.cert), m5);
    UnlessNames(p.ca == [], "caData", Bytes(p.ca), m4);
    UnlessNames(p.serverName == "", "serverName", Text(p.serverName), m3);
    UnlessNames(!p.insecure, "insecure", Bool(true), m2);
  }

  lemma UnlessPlain(empty: bool, name: string, v: Value, rest: Members)
    requires PlainMembers(rest) && Plain(v)
    ensures PlainMembers(Unless(empty, name, v, rest))
  {
  }

  lemma EnvelopePlain(r: R)
    ensures Plain(ToJson(r))
  {
    var tls := match r.tls case None => Null case Some(p) => Object(TlsMembers(p));
    if r.tls.Some? {
      var p := r.tls.value;
      TextsPlain(p.nextProtos);
      var m6 := Unless(p.nextProtos == [], "nextProtos", Array(Texts(p.nextProtos)), NoMembers);
      var m5 := Unless(p.key == [], "keyData", Bytes(p.key), m6);
      var m4 := Unless(p.cert == [], "certData", Bytes(p.cert), m5);
      var m3 := Unless(p.ca == [], "caData", Bytes(p.ca), m4);
      var m2 := Unless(p.serverName == "", "serverName", Text(p.serverName), m3);
      UnlessPlain(p.nextProtos == [], "nextProtos", Array(Texts(p.nextProtos)), NoMembers);
      UnlessPlain(p.key == [], "keyData", Bytes(p.key), m6);
      UnlessPlain(p.cert == [], "certData", Bytes(p.cert), m5);
      UnlessPlain(p.ca == [], "caData", Bytes(p.ca), m4);
      UnlessPlain(p.serverName == "", "serverName", Text(p.serverName), m3);
      UnlessPlain(!p.insecure, "insecure", Bool(true), m2);
    }
    assert Plain(tls);
    var m4 := Member("DisableCompression", Bool(r.disableCompression), NoMembers);
    var m3 := Member("Timeout", Number(JsonText.PrintInt(r.timeout as int)), m4);
    assert PlainMembers(NoMembers);
    assert PlainMembers(m4);
    assert PlainMembers(m3) by {
      assert IsInt(JsonText.PrintInt(r.timeout as int));
    }
    assert PlainMembers(Member("TLS", tls, m3));
    assert PlainMembers(Member("Request", Bytes(r.request), Member("TLS", tls, m3)));
  }

  lemma TlsFieldNames()
    ensures TlsFieldOf("insecure") == Insecure && TlsFieldOf("serverName") == ServerName
    ensures TlsFieldOf("caData") == CaData && TlsFieldOf("certData") == CertData
    ensures TlsFieldOf("keyData") == KeyData && TlsFieldOf("nextProtos") == NextProtos
  {
    assert Fold("insecure") == "insecure" && Fold("serverName") == "servername";
    assert Fold("caData") == "cadata" && Fold("certData") == "certdata";
    assert Fold("keyData") == "keydata" && Fold("nextProtos") == "nextprotos";
    assert "certdata"[0] != "insecure"[0] && "nextprotos"[0] != "servername"[0];
  }

  lemma FieldNames()
    ensures FieldOf("Request") == Request && FieldOf("TLS") == Tls
    ensures FieldOf("Timeout") == Timeout && FieldOf("DisableCompression") == DisableCompression
  {
    assert Fold("Request") == "request" && Fold("TLS") == "tls";
    assert Fold("Timeout") == "timeout" && Fold("DisableCompression") == "disablecompression";
    assert "timeout"[0] != "request"[0];
  }

  // A member left out for being empty leaves a field that was empty to begin with.
  lemma ReadUnless(p: PersistableTLS, empty: bool, name: string, v: Value, rest: Members, p': PersistableTLS)
    requires if empty then p' == p else SetTls(p, TlsFieldOf(name), v) == Some(p')
    ensures ReadTls(p, Unless(empty, name, v, rest)) == ReadTls(p', rest)
  {
  }

  // The last three members, and then all six.
  lemma TlsTailRoundTrip(p: PersistableTLS)
    ensures var m6 := Unless(p.nextProtos == [], "nextProtos", Array(Texts(p.nextProtos)), NoMembers);
      var m5 := Unless(p.key == [], "keyData", Bytes(p.key), m6);
      var m4 := Unless(p.cert == [], "certData", Bytes(p.cert), m5);
      ReadTls(p.(cert := [], key := [], nextProtos := []), m4) == Some(p)
  {
    TlsFieldNames();
    Base64.RoundTrip(p.cert);
    Base64.RoundTrip(p.key);
    TextsPlain(p.nextProtos);
    var m6 := Unless(p.nextProtos == [], "nextProtos", Array(Texts(p.nextProtos)), NoMembers);
    var m5 := Unless(p.key == [], "keyData", Bytes(p.key), m6);
    ReadUnless(p.(cert := [], key := [], nextProtos := []), p.cert == [], "certData", Bytes(p.cert), m5,
               p.(key := [], nextProtos := []));
    ReadUnless(p.(key := [], nextProtos := []), p.key == [], "keyData", Bytes(p.key), m6, p.(nextProtos := []));
    ReadUnless(p.(nextProtos := []), p.nextProtos == [], "nextProtos", Array(Texts(p.nextProtos)), NoMembers, p);
  }

  lemma TlsRoundTrip(p: PersistableTLS)
    ensures ReadTls(EMPTY_TLS, TlsMembers(p)) == Some(p)
  {
    TlsFieldNames();
    Base64.RoundTrip(p.ca);
    TlsTailRoundTrip(p);
    var m6 := Unless(p.nextProtos == [], "nextProtos", Array(Texts(p.nextProtos)), NoMembers);
    var m5 := Unless(p.key == [], "keyData", Bytes(p.key), m6);
    var m4 := Unless(p.cert == [], "certData", Bytes(p.cert), m5);
    var m3 := Unless(p.ca == [], "caData", Bytes(p.ca), m4);
    var m2 := Unless(p.serverName == "", "serverName", Text(p.serverName), m3);
    var p1 := EMPTY_TLS.(insecure := p.insecure);
    var p2 := p1.(serverName := p.serverName);
    ReadUnless(EMPTY_TLS, !p.insecure, "insecure", Bool(true), m2, p1);
    ReadUnless(p1, p.serverName == "", "serverName", Text(p.serverName), m3, p2);
    ReadUnless(p2, p.ca == [], "caData", Bytes(p.ca), m4, p.(cert := [], key := [], nextProtos := []));
  }

  lemma ReadMember(r: R, name: string, v: Value, rest: Members, r': R)
    requires Set(r, FieldOf(name), v) == Some(r')
    ensures Read(r, Member(name, v, rest)) == Read(r', rest)
  {
  }

  // The last two members, and then all four.
  lemma TailRead(r: R)
    ensures Read(r.(timeout := 0, disableCompression := false),
                 Member("Timeout", Number(JsonText.PrintInt(r.timeout as int)),
                   Member("DisableCompression", Bool(r.disableCompression), NoMembers))) == Some(r)
  {
    FieldNames();
    JsonText.IntRoundTrip(r.timeout as int);
    var m4 := Member("DisableCompression", Bool(r.disableCompression), NoMembers);
    var r2 := r.(timeout := 0, disableCompression := false);
    var r3 := r.(disableCompression := false);
    ReadMember(r2, "Timeout", Number(JsonText.PrintInt(r.timeout as int)), m4, r3);
    ReadMember(r3, "DisableCompression", Bool(r.disableCompression), NoMembers, r);
  }

  lemma MembersRead(r: R)
    ensures FromJson(ToJson(r)) == Some(r)
  {
    FieldNames();
    Base64.RoundTrip(r.request);
    TailRead(r);
    var tls := match r.tls case None => Null case Some(p) => Object(TlsMembers(p));
    assert TlsOf(tls, None) == Some(r.tls) by {
      if r.tls.Some? {
        TlsRoundTrip(r.tls.value);
      }
    }
    var m4 := Member("DisableCompression", Bool(r.disableCompression), NoMembers);
    var m3 := Member("Timeout", Number(JsonText.PrintInt(r.timeout as int)), m4);
    var m2 := Member("TLS", tls, m3);
    var r1 := EMPTY_R.(request := r.request);
    var r2 := r1.(tls := r.tls);
    ReadMember(EMPTY_R, "Request", Bytes(r.request), m2, r1);
    ReadMember(r1, "TLS", tls, m3, r2);
  }

  // The edge reads what the hub ships: every byte of the request, every setting, every timeout.
  lemma EnvelopeRoundTrip(r: R)
    ensures Unmarshal(Marshal(r)) == Some(r)
  {
    Utf8.RoundTrip(Print(ToJson(r)) + "\n");
    EnvelopePlain(r);
    LineRoundTrip(ToJson(r));
    MembersRead(r);
  }
}
