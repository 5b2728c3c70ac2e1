// Lists of names joined with commas, as the cache key holds them.
module CommaLists {
  function Join(xs: seq<string>): string {
    if xs == [] then ""
    else if |xs| == 1 then xs[0]
    else xs[0] + "," + Join(xs[1..])
  }

  // The pieces of s between its commas.
  function Split(s: string): (r: seq<string>)
    ensures r != []
  {
    if s == "" then [""]
    else
      var rest := Split(s[1..]);
      if s[0] == ',' then [""] + rest else [[s[0]] + rest[0]] + rest[1..]
  }

  // What a character in front does to the pieces.
  function Prepend(c: char, pieces: seq<string>): seq<string>
    requires pieces != []
  {
    if c == ',' then [""] + pieces else [[c] + pieces[0]] + pieces[1..]
  }

  lemma SplitCons(c: char, s: string)
    ensures Split([c] + s) == Prepend(c, Split(s))
  {
    assert ([c] + s)[1..] == s;
  }

  lemma JoinPrepend(c: char, pieces: seq<string>)
    requires pieces != []
    ensures Join(Prepend(c, pieces)) == [c] + Join(pieces)
  {
    var r := Prepend(c, pieces);
    if c == ',' {
      assert r[1..] == pieces;
    } else if |pieces| > 1 {
      assert r[1..] == pieces[1..];
    }
  }

  lemma {:induction false} JoinSplit(s: string)
    ensures Join(Split(s)) == s
  {
    if s != "" {
      assert s == [s[0]] + s[1..];
      SplitCons(s[0], s[1..]);
      JoinPrepend(s[0], Split(s[1..]));
      JoinSplit(s[1..]);
    }
  }

  lemma PrependConcat(c: char, p: seq<string>, q: seq<string>)
    requires p != []
    ensures Prepend(c, p + q) == Prepend(c, p) + q
  {
    assert (p + q)[1..] == p[1..] + q;
  }

  lemma {:induction false} SplitConcat(a: string, b: string)
    ensures Split(a + "," + b) == Split(a) + Split(b)
  {
    if a == "" {
      assert a + "," + b == [','] + b;
      SplitCons(',', b);
    } else {
      var c, rest := a[0], a[1..];
      assert a == [c] + rest && a + "," + b == [c] + (rest + "," + b);
      SplitCons(c, rest + "," + b);
      SplitConcat(rest, b);
      PrependConcat(c, Split(rest), Split(b));
      SplitCons(c, rest);
    }
  }

  // The names a list stands for once joined: each name cut at its commas, no name being one empty one.
  function Pieces(xs: seq<string>): seq<string> {
    if xs == [] then [""]
    else if |xs| == 1 then Split(xs[0])
    else Split(xs[0]) + Pieces(xs[1..])
  }

  lemma {:induction false} SplitJoin(xs: seq<string>)
    ensures Split(Join(xs)) == Pieces(xs)
  {
    if |xs| > 1 {
      SplitJoin(xs[1..]);
      SplitConcat(xs[0], Join(xs[1..]));
    }
  }

  // Exactly which lists a joined key cannot tell apart.
  lemma JoinsAgreeExactly(xs: seq<string>, ys: seq<string>)
    ensures Join(xs) == Join(ys) <==> Pieces(xs) == Pieces(ys)
  {
    SplitJoin(xs);
    SplitJoin(ys);
    JoinSplit(Join(xs));
    JoinSplit(Join(ys));
  }

  predicate CommaFree(xs: seq<string>) {
    forall i :: 0 <= i < |xs| ==> ',' !in xs[i]
  }

  lemma {:induction false} SplitCommaFree(s: string)
    requires ',' !in s
    ensures Split(s) == [s]
  {
    if s != "" {
      SplitCommaFree(s[1..]);
      assert [s[0]] + s[1..] == s;
    }
  }

  lemma {:induction false} PiecesCommaFree(xs: seq<string>)
    requires CommaFree(xs)
    ensures Pieces(xs) == if xs == [] then [""] else xs
  {
    if xs != [] {
      SplitCommaFree(xs[0]);
      PiecesCommaFree(xs[1..]);
      assert xs == [xs[0]] + xs[1..];
    }
  }

  // Of lists of names without commas, only the empty list and the list of one empty name clash.
  lemma CommaFreeJoinsAgree(xs: seq<string>, ys: seq<string>)
    requires CommaFree(xs) && CommaFree(ys)
    ensures Join(xs) == Join(ys) <==> xs == ys || (xs == [] && ys == [""]) || (xs == [""] && ys == [])
  {
    JoinsAgreeExactly(xs, ys);
    PiecesCommaFree(xs);
    PiecesCommaFree(ys);
  }
}
