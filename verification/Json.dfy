// JSON values (RFC 8259), printed without spaces and parsed with any.
module Json {
  import opened Prelude
  import opened JsonText

  datatype Value =
    | Null
    | Bool(b: bool)
    | Number(literal: string)
    | Text(text: string)
    | Array(items: Items)
    | Object(members: Members)

  datatype Items = NoItems | Item(head: Value, tail: Items)

  datatype Members = NoMembers | Member(name: string, value: Value, rest: Members)

  function Quoted(s: string): string {
    "\"" + Escape(s) + "\""
  }

  function Print(v: Value): string {
    match v
    case Null => "null"
    case Bool(b) => if b then "true" else "false"
    case Number(literal) => literal
    case Text(s) => Quoted(s)
    case Array(items) => "[" + PrintItems(items) + "]"
    case Object(members) => "{" + PrintMembers(members) + "}"
  }

  function PrintItems(items: Items): string {
    match items
    case NoItems => ""
    case Item(v, tail) => Print(v) + (if tail.NoItems? then "" else "," + PrintItems(tail))
  }

  function PrintMembers(members: Members): string {
    match members
    case NoMembers => ""
    case Member(name, v, rest) =>
      Quoted(name) + ":" + Print(v) + (if rest.NoMembers? then "" else "," + PrintMembers(rest))
  }

  // ---------------------------------------------------------------------------------------------
  // Parsing.

  predicate IsSpace(c: char) {
    c == ' ' || c == '\t' || c == '\n' || c == '\r'
  }

  function SkipSpace(s: string): (r: string)
    ensures |r| <= |s|
    ensures r != "" ==> !IsSpace(r[0])
  {
    if s != "" && IsSpace(s[0]) then SkipSpace(s[1..]) else s
  }

  function Parse(s: string): (r: Option<(Value, string)>)
    ensures r.Some? ==> |r.value.1| < |s|
    decreases |s|, 0
  {
    var t := SkipSpace(s);
    if t == "" then None
    else if "null" <= t then Some((Null, t[4..]))
    else if "true" <= t then Some((Bool(true), t[4..]))
    else if "false" <= t then Some((Bool(false), t[5..]))
    else if t[0] == '"' then
      match ReadString(t[1..])
      case None => None
      case Some((text, rest)) => Some((Text(text), rest))
    else if t[0] == '[' then ParseArray(t[1..])
    else if t[0] == '{' then ParseObject(t[1..])
    else
      match ReadNumber(t)
      case None => None
      case Some((literal, rest)) => Some((Number(literal), rest))
  }

  // After the opening bracket.
  function ParseArray(s: string): (r: Option<(Value, string)>)
    ensures r.Some? ==> |r.value.1| < |s|
    decreases |s|, 3
  {
    var u := SkipSpace(s);
    if "]" <= u then Some((Array(NoItems), u[1..]))
    else
      match ParseItems(u)
      case None => None
      case Some((items, rest)) => Some((Array(items), rest))
  }

  // After the opening brace.
  function ParseObject(s: string): (r: Option<(Value, string)>)
    ensures r.Some? ==> |r.value.1| < |s|
    decreases |s|, 3
  {
    var u := SkipSpace(s);
    if "}" <= u then Some((Object(NoMembers), u[1..]))
    else
      match ParseMembers(u)
      case None => None
      case Some((members, rest)) => Some((Object(members), rest))
  }

  // One item or more, and the closing bracket.
  function ParseItems(s: string): (r: Option<(Items, string)>)
    ensures r.Some? ==> |r.value.1| < |s|
    decreases |s|, 1
  {
    match Parse(s)
    case None => None
    case Some((v, after)) =>
      var t := SkipSpace(after);
      if "]" <= t then Some((Item(v, NoItems), t[1..]))
      else if "," <= t then
        match ParseItems(t[1..])
        case None => None
        case Some((tail, rest)) => Some((Item(v, tail), rest))
      else None
  }

  // A name, a colon and a value.
  function ParseMember(s: string): (r: Option<((string, Value), string)>)
    ensures r.Some? ==> |r.value.1| < |s|
    decreases |s|, 1
  {
    var t := SkipSpace(s);
    if t == "" || t[0] != '"' then None
    else
      match ReadString(t[1..])
      case None => None
      case Some((name, after)) =>
        var u := SkipSpace(after);
        if u == "" || u[0] != ':' then None
        else
          match Parse(u[1..])
          case None => None
          case Some((v, rest)) => Some(((name, v), rest))
  }

  // One member or more, and the closing brace.
  function ParseMembers(s: string): (r: Option<(Members, string)>)
    ensures r.Some? ==> |r.value.1| < |s|
    decreases |s|, 2
  {
    match ParseMember(s)
    case None => None
    case Some(((name, v), after)) =>
      var t := SkipSpace(after);
      if "}" <= t then Some((Member(name, v, NoMembers), t[1..]))
      else if "," <= t then
        match ParseMembers(t[1..])
        case None => None
        case Some((tail, rest)) => Some((Member(name, v, tail), rest))
      else None
  }

  // A whole text: one value, with nothing but space around it.
  function ParseText(s: string): Option<Value> {
    match Parse(s)
    case None => None
    case Some((v, rest)) => if SkipSpace(rest) == "" then Some(v) else None
  }

  // ---------------------------------------------------------------------------------------------
  // Round trip.

  ghost predicate IsInt(literal: string) {
    exists n :: literal == PrintInt(n)
  }

  // Values whose numbers are integers, as the encoder prints them.
  ghost predicate Plain(v: Value) {
    match v
    case Number(literal) => IsInt(literal)
    case Array(items) => PlainItems(items)
    case Object(members) => PlainMembers(members)
    case _ => true
  }

  ghost predicate PlainItems(items: Items) {
    match items
    case NoItems => true
    case Item(v, tail) => Plain(v) && PlainItems(tail)
  }

  ghost predicate PlainMembers(members: Members) {
    match members
    case NoMembers => true
    case Member(_, v, rest) => Plain(v) && PlainMembers(rest)
  }

  lemma NoSkip(s: string)
    requires s != "" && !IsSpace(s[0])
    ensures SkipSpace(s) == s
  {
  }

  // One step of each loop, once its first value is parsed.
  lemma ItemsStep(s: string, v: Value, after: string)
    requires Parse(s) == Some((v, after)) && after != ""
    ensures after[0] == ']' ==> ParseItems(s) == Some((Item(v, NoItems), after[1..]))
    ensures after[0] == ',' && ParseItems(after[1..]).Some? ==>
      ParseItems(s) == Some((Item(v, ParseItems(after[1..]).value.0), ParseItems(after[1..]).value.1))
  {
    if after[0] == ']' || after[0] == ',' {
      NoSkip(after);
    }
  }

  lemma MemberStep(s: string, name: string, colon: string)
    requires s != "" && s[0] == '"' && ReadString(s[1..]) == Some((name, colon))
    requires colon != "" && colon[0] == ':' && Parse(colon[1..]).Some?
    ensures ParseMember(s) == Some(((name, Parse(colon[1..]).value.0), Parse(colon[1..]).value.1))
  {
    NoSkip(s);
    NoSkip(colon);
  }

  lemma MembersStep(s: string, name: string, v: Value, after: string)
    requires ParseMember(s) == Some(((name, v), after)) && after != ""
    ensures after[0] == '}' ==> ParseMembers(s) == Some((Member(name, v, NoMembers), after[1..]))
    ensures after[0] == ',' && ParseMembers(after[1..]).Some? ==>
      ParseMembers(s) == Some((Member(name, v, ParseMembers(after[1..]).value.0), ParseMembers(after[1..]).value.1))
  {
    if after[0] == '}' || after[0] == ',' {
      NoSkip(after);
    }
  }

  lemma OpeningStep(u: string)
    ensures Parse("[" + u) == ParseArray(u)
    ensures Parse("{" + u) == ParseObject(u)
  {
    NoSkip("[" + u);
    NoSkip("{" + u);
    assert ("[" + u)[0] == '[' && ("[" + u)[1..] == u;
    assert ("{" + u)[0] == '{' && ("{" + u)[1..] == u;
  }

  lemma ArrayStep(u: string)
    requires u != "" && !IsSpace(u[0])
    ensures u[0] == ']' ==> Parse("[" + u) == Some((Array(NoItems), u[1..]))
    ensures u[0] != ']' && ParseItems(u).Some? ==>
      Parse("[" + u) == Some((Array(ParseItems(u).value.0), ParseItems(u).value.1))
  {
    OpeningStep(u);
    NoSkip(u);
  }

  lemma ObjectStep(u: string)
    requires u != "" && !IsSpace(u[0])
    ensures u[0] == '}' ==> Parse("{" + u) == Some((Object(NoMembers), u[1..]))
    ensures u[0] != '}' && ParseMembers(u).Some? ==>
      Parse("{" + u) == Some((Object(ParseMembers(u).value.0), ParseMembers(u).value.1))
  {
    OpeningStep(u);
    NoSkip(u);
  }

  lemma PrintStarts(v: Value)
    requires Plain(v)
    ensures Print(v) != "" && !IsSpace(Print(v)[0]) && Print(v)[0] != ']'
  {
    if v.Number? {
      var n :| v.literal == PrintInt(n);
    }
  }

  lemma NameRoundTrip(s: string, rest: string)
    ensures (Quoted(s) + rest)[0] == '"' && ReadString((Quoted(s) + rest)[1..]) == Some((s, rest))
  {
    assert (Quoted(s) + rest)[1..] == Escape(s) + "\"" + rest;
    StringRoundTrip(s, rest);
  }

  lemma TextRoundTrip(s: string, rest: string)
    ensures Parse(Quoted(s) + rest) == Some((Text(s), rest))
  {
    NameRoundTrip(s, rest);
    NoSkip(Quoted(s) + rest);
  }

  lemma IntTextRoundTrip(n: int, rest: string)
    requires Stops(rest)
    ensures Parse(PrintInt(n) + rest) == Some((Number(PrintInt(n)), rest))
  {
    var s := PrintInt(n) + rest;
    assert s[0] == PrintInt(n)[0] && (s[0] == '-' || IsDigit(s[0]));
    NoSkip(s);
    NumberRoundTrip(n, rest);
    NumberStep(s);
  }

  lemma NumberStep(s: string)
    requires s != "" && SkipSpace(s) == s && (s[0] == '-' || IsDigit(s[0])) && ReadNumber(s).Some?
    ensures Parse(s) == Some((Number(ReadNumber(s).value.0), ReadNumber(s).value.1))
  {
  }

  lemma {:induction false} ValueRoundTrip(v: Value, rest: string)
    requires Plain(v) && Stops(rest)
    ensures Parse(Print(v) + rest) == Some((v, rest))
    decreases v, 1
  {
    var s := Print(v) + rest;
    match v {
      case Null => assert "null" <= s && s[4..] == rest;
      case Bool(b) =>
        if b { assert "true" <= s && s[4..] == rest; } else { assert "false" <= s && s[5..] == rest; }
      case Number(literal) =>
        var n :| literal == PrintInt(n);
        IntTextRoundTrip(n, rest);
      case Text(text) => TextRoundTrip(text, rest);
      case Array(items) => ArrayRoundTrip(items, rest);
      case Object(members) => ObjectRoundTrip(members, rest);
    }
  }

  lemma {:induction false} ArrayRoundTrip(items: Items, rest: string)
    requires PlainItems(items)
    ensures Parse(Print(Array(items)) + rest) == Some((Array(items), rest))
    decreases items, 2
  {
    var u := PrintItems(items) + "]" + rest;
    assert Print(Array(items)) + rest == "[" + u;
    if items.Item? {
      PrintStarts(items.head);
      assert u[0] == Print(items.head)[0];
      ItemsRoundTrip(items, rest);
    } else {
      assert u == "]" + rest && u[1..] == rest;
    }
    ArrayStep(u);
  }

  function AfterItem(tail: Items, rest: string): string {
    if tail.NoItems? then "]" + rest else "," + (PrintItems(tail) + "]" + rest)
  }

  lemma ItemsTail(items: Items, rest: string)
    ensures items.Item? ==> AfterItem(items, rest)[1..] == PrintItems(items) + "]" + rest
    ensures items.NoItems? ==> AfterItem(items, rest)[1..] == rest
    ensures Stops(AfterItem(items, rest))
    ensures (if items.NoItems? then "" else "," + PrintItems(items)) + "]" + rest == AfterItem(items, rest)
  {
  }

  lemma ItemsShape(items: Items, rest: string)
    requires items.Item?
    ensures PrintItems(items) + "]" + rest == Print(items.head) + AfterItem(items.tail, rest)
  {
    ItemsTail(items.tail, rest);
    Reassociate(Print(items.head), if items.tail.NoItems? then "" else "," + PrintItems(items.tail), "]", rest);
  }

  lemma Reassociate(a: string, b: string, c: string, d: string)
    ensures a + b + c + d == a + (b + c + d)
  {
  }

  lemma {:induction false} ItemsRoundTrip(items: Items, rest: string)
    requires items.Item? && PlainItems(items)
    ensures ParseItems(PrintItems(items) + "]" + rest) == Some((items, rest))
    decreases items, 1
  {
    var s := PrintItems(items) + "]" + rest;
    var after := AfterItem(items.tail, rest);
    ItemsShape(items, rest);
    ItemsTail(items.tail, rest);
    ValueRoundTrip(items.head, after);
    if items.tail.Item? {
      ItemsRoundTrip(items.tail, rest);
    }
    ItemsStep(s, items.head, after);
  }

  lemma {:induction false} ObjectRoundTrip(members: Members, rest: string)
    requires PlainMembers(members)
    ensures Parse(Print(Object(members)) + rest) == Some((Object(members), rest))
    decreases members, 2
  {
    var u := PrintMembers(members) + "}" + rest;
    assert Print(Object(members)) + rest == "{" + u;
    if members.Member? {
      assert u[0] == '"' && !IsSpace(u[0]);
      MembersRoundTrip(members, rest);
    } else {
      assert u == "}" + rest && u[0] == '}' && u[1..] == rest && !IsSpace(u[0]);
    }
    ObjectStep(u);
  }

  function AfterMember(tail: Members, rest: string): string {
    if tail.NoMembers? then "}" + rest else "," + (PrintMembers(tail) + "}" + rest)
  }

  lemma MembersTail(members: Members, rest: string)
    ensures members.Member? ==> AfterMember(members, rest)[1..] == PrintMembers(members) + "}" + rest
    ensures members.NoMembers? ==> AfterMember(members, rest)[1..] == rest
    ensures Stops(AfterMember(members, rest))
    ensures (if members.NoMembers? then "" else "," + PrintMembers(members)) + "}" + rest == AfterMember(members, rest)
  {
  }

  lemma MembersShape(members: Members, rest: string)
    requires members.Member?
    ensures PrintMembers(members) + "}" + rest
         == Quoted(members.name) + (":" + (Print(members.value) + AfterMember(members.rest, rest)))
  {
    MembersTail(members.rest, rest);
    Regroup(Quoted(members.name), ":", Print(members.value),
            if members.rest.NoMembers? then "" else "," + PrintMembers(members.rest), "}", rest);
  }

  lemma Regroup(a: string, b: string, c: string, d: string, e: string, f: string)
    ensures a + b + c + d + e + f == a + (b + (c + (d + e + f)))
  {
  }

  lemma {:induction false} MembersRoundTrip(members: Members, rest: string)
    requires members.Member? && PlainMembers(members)
    ensures ParseMembers(PrintMembers(members) + "}" + rest) == Some((members, rest))
    decreases members, 1
  {
    var s := PrintMembers(members) + "}" + rest;
    var after := AfterMember(members.rest, rest);
    var colon := ":" + (Print(members.value) + after);
    MembersShape(members, rest);
    MembersTail(members.rest, rest);
    NameRoundTrip(members.name, colon);
    assert colon[1..] == Print(members.value) + after;
    ValueRoundTrip(members.value, after);
    if members.rest.Member? {
      MembersRoundTrip(members.rest, rest);
    }
    MemberStep(s, members.name, colon);
    MembersStep(s, members.name, members.value, after);
  }

  // A printed value is all there may be, but for space after it.
  lemma TextExactly(v: Value, rest: string)
    requires Plain(v) && Stops(rest)
    ensures ParseText(Print(v) + rest)
         == if forall i :: 0 <= i < |rest| ==> rest[i] in {' ', '\t', '\n', '\r'} then Some(v) else None
  {
    ValueRoundTrip(v, rest);
    OnlySpaceExactly(rest);
  }

  lemma {:induction false} OnlySpaceExactly(s: string)
    ensures SkipSpace(s) == "" <==> forall i :: 0 <= i < |s| ==> s[i] in {' ', '\t', '\n', '\r'}
  {
    if s != "" && IsSpace(s[0]) {
      OnlySpaceExactly(s[1..]);
      assert forall i :: 0 < i < |s| ==> s[i] == s[1..][i - 1];
    }
  }

  // Every value, printed on a line of its own, parses back.
  lemma LineRoundTrip(v: Value)
    requires Plain(v)
    ensures ParseText(Print(v) + "\n") == Some(v)
  {
    ValueRoundTrip(v, "\n");
    assert SkipSpace("\n") == SkipSpace("\n"[1..]) == "";
  }
}
