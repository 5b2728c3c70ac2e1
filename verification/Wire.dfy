// Messages as they travel over NATS, and the "Done" header that ends a response.
module Wire {
  import opened Prelude

  // A response message: its payload and, when present, the value of its Done header.
  datatype Message = Message(data: seq<byte>, done: Option<string>)

  datatype Packet = Packet(subject: string, msg: Message)

  // The bytes a list of messages carries. Logs grow at their end, so the recursion peels the end.
  function Payload(ms: seq<Message>): seq<byte> {
    if ms == [] then [] else Payload(ms[..|ms| - 1]) + ms[|ms| - 1].data
  }

  lemma PayloadAppend(ms: seq<Message>, m: Message)
    ensures Payload(ms + [m]) == Payload(ms) + m.data
  {
    assert (ms + [m])[..|ms|] == ms;
  }

  lemma {:induction false} PayloadPrefix(a: seq<Message>, b: seq<Message>)
    requires a <= b
    ensures Payload(a) <= Payload(b)
    decreases |b|
  {
    if |a| < |b| {
      assert a <= b[..|b| - 1];
      PayloadPrefix(a, b[..|b| - 1]);
      PrefixTransitive(Payload(a), Payload(b[..|b| - 1]), Payload(b));
    } else {
      assert a == b;
    }
  }

  // The messages on one subject, in order.
  function OnSubject(ps: seq<Packet>, subject: string): seq<Message> {
    if ps == [] then []
    else (if ps[0].subject == subject then [ps[0].msg] else []) + OnSubject(ps[1..], subject)
  }

  lemma {:induction false} OnSubjectConcat(a: seq<Packet>, b: seq<Packet>, subject: string)
    ensures OnSubject(a + b, subject) == OnSubject(a, subject) + OnSubject(b, subject)
  {
    if a == [] {
      assert a + b == b;
    } else {
      assert (a + b)[0] == a[0] && (a + b)[1..] == a[1..] + b;
      OnSubjectConcat(a[1..], b, subject);
      var head := if a[0].subject == subject then [a[0].msg] else [];
      var inA, inB := OnSubject(a[1..], subject), OnSubject(b, subject);
      assert head + (inA + inB) == (head + inA) + inB;
    }
  }

  lemma {:induction false} NothingOnSubject(ps: seq<Packet>, subject: string)
    requires forall i :: 0 <= i < |ps| ==> ps[i].subject != subject
    ensures OnSubject(ps, subject) == []
  {
    if ps != [] {
      NothingOnSubject(ps[1..], subject);
    }
  }

  // A packet that no other on its subject is ahead of is the first one there, and taking it out leaves
  // everything else as it was.
  lemma {:induction false} OnSubjectWithout(ps: seq<Packet>, k: nat, subject: string)
    requires k < |ps| && forall j :: 0 <= j < k ==> ps[j].subject != ps[k].subject
    ensures OnSubject(ps, subject)
         == (if ps[k].subject == subject then [ps[k].msg] else []) + OnSubject(Without(ps, k), subject)
  {
    if k == 0 {
      assert Without(ps, 0) == ps[1..];
    } else {
      var rest := Without(ps, k);
      assert rest[0] == ps[0] && rest[1..] == Without(ps[1..], k - 1);
      OnSubjectWithout(ps[1..], k - 1, subject);
    }
  }

  // The messages of one writer, addressed to its subject.
  function Addressed(subject: string, ms: seq<Message>): (ps: seq<Packet>)
    ensures |ps| == |ms|
  {
    seq(|ms|, i requires 0 <= i < |ms| => Packet(subject, ms[i]))
  }

  lemma {:induction false} OnSubjectAddressed(subject: string, other: string, ms: seq<Message>)
    ensures OnSubject(Addressed(subject, ms), other) == if subject == other then ms else []
  {
    if ms != [] {
      assert Addressed(subject, ms)[1..] == Addressed(subject, ms[1..]);
      OnSubjectAddressed(subject, other, ms[1..]);
    }
  }

  // Characters that the header writer strips from both ends of a value, newlines included:
  // they are turned into spaces before stripping.
  predicate IsBlankChar(c: char) {
    c == ' ' || c == '\t' || c == '\n' || c == '\r'
  }

  predicate IsBlank(text: string) {
    forall i :: 0 <= i < |text| ==> IsBlankChar(text[i])
  }

  function NewlinesToSpaces(text: string): (r: string)
    ensures |r| == |text|
    ensures forall i :: 0 <= i < |text| ==> (IsBlankChar(r[i]) <==> IsBlankChar(text[i]))
  {
    seq(|text|, i requires 0 <= i < |text| => if text[i] == '\n' || text[i] == '\r' then ' ' else text[i])
  }

  function TrimLeft(text: string): (r: string)
    ensures r == "" <==> IsBlank(text)
    ensures r != "" ==> !IsBlankChar(r[0])
  {
    if text != "" && IsBlankChar(text[0]) then TrimLeft(text[1..]) else text
  }

  function TrimRight(text: string): (r: string)
    ensures r == "" <==> IsBlank(text)
    ensures r <= text
  {
    if text != "" && IsBlankChar(text[|text| - 1]) then TrimRight(text[..|text| - 1]) else text
  }

  // What a Done value reads as on the other side of the connection.
  function HeaderValue(text: string): string {
    TrimRight(TrimLeft(NewlinesToSpaces(text)))
  }

  // A Done value arrives empty exactly when it was blank.
  lemma HeaderValueEmpty(text: string)
    ensures HeaderValue(text) == "" <==> IsBlank(text)
  {
    var r := NewlinesToSpaces(text);
    assert IsBlank(r) <==> IsBlank(text);
    var l := TrimLeft(r);
    if l != "" {
      assert !IsBlankChar(l[0]);
      assert !IsBlank(l);
    }
  }

  predicate BlankOutside(text: string, i: nat, j: nat)
    requires i <= j <= |text|
  {
    && (forall k :: 0 <= k < i ==> text[k] in {' ', '\t', '\n', '\r'})
    && (forall k :: j <= k < |text| ==> text[k] in {' ', '\t', '\n', '\r'})
  }

  lemma {:induction false} TrimLeftExactly(text: string, i: nat)
    requires i < |text| && (forall k :: 0 <= k < i ==> IsBlankChar(text[k])) && !IsBlankChar(text[i])
    ensures TrimLeft(text) == text[i..]
  {
    if i > 0 {
      TrimLeftExactly(text[1..], i - 1);
      assert text[1..][i - 1..] == text[i..];
    }
  }

  lemma {:induction false} TrimRightExactly(text: string, j: nat)
    requires 0 < j <= |text| && (forall k :: j <= k < |text| ==> IsBlankChar(text[k])) && !IsBlankChar(text[j - 1])
    ensures TrimRight(text) == text[..j]
  {
    if j < |text| {
      TrimRightExactly(text[..|text| - 1], j);
      assert text[..|text| - 1][..j] == text[..j];
    } else {
      assert text[..j] == text;
    }
  }

  // Any other value arrives with what is between its first and its last character that is not blank, a line
  // break there reading as a space.
  lemma HeaderValueExactly(text: string, i: nat, j: nat)
    requires i < j <= |text| && BlankOutside(text, i, j)
    requires text[i] !in {' ', '\t', '\n', '\r'} && text[j - 1] !in {' ', '\t', '\n', '\r'}
    ensures |HeaderValue(text)| == j - i
    ensures forall k :: 0 <= k < j - i ==>
      HeaderValue(text)[k] == if text[i + k] in {'\n', '\r'} then ' ' else text[i + k]
  {
    var r := NewlinesToSpaces(text);
    TrimLeftExactly(r, i);
    TrimRightExactly(r[i..], j - i);
  }

  // An error text without line breaks, and not blank at its ends, arrives as it is.
  lemma TextArrives(text: string)
    requires text != "" && text[0] !in {' ', '\t'} && text[|text| - 1] !in {' ', '\t'}
    requires forall k :: 0 <= k < |text| ==> text[k] !in {'\n', '\r'}
    ensures HeaderValue(text) == text
  {
    HeaderValueExactly(text, 0, |text|);
  }
}
