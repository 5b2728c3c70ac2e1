// What a pool is taken to do for the calls that share it: one takes an object, which may be any free one
// or a new one, and may put back the one it holds. Free objects may be dropped at any time. When a call
// puts back what it holds is the call's business.
module SharedPool {
  import opened Prelude

  datatype State = State(free: seq<nat>, held: map<nat, nat>, made: nat)

  datatype Label =
    | Take(call: nat, index: nat)   // index: which free object; past the end, a new one
    | GiveBack(call: nat)
    | Drop(index: nat)

  const INITIAL: State := State([], map[], 0)

  predicate CanStep(s: State, l: Label) {
    match l
    case Take(c, _) => c !in s.held
    case GiveBack(c) => c in s.held
    case Drop(i) => i < |s.free|
  }

  function DoStep(s: State, l: Label): State
    requires CanStep(s, l)
  {
    match l
    case Take(c, i) =>
      if i < |s.free| then State(Without(s.free, i), s.held[c := s.free[i]], s.made)
      else State(s.free, s.held[c := s.made], s.made + 1)
    case GiveBack(c) => State(s.free + [s.held[c]], s.held - {c}, s.made)
    case Drop(i) => s.(free := Without(s.free, i))
  }

  // An object is free once, or held by one call, and not both.
  ghost predicate Exclusive(s: State) {
    && (forall i, j :: 0 <= i < j < |s.free| ==> s.free[i] != s.free[j])
    && (forall c, d :: c in s.held && d in s.held && c != d ==> s.held[c] != s.held[d])
    && (forall c :: c in s.held ==> s.held[c] !in s.free)
  }

  ghost predicate Made(s: State) {
    && (forall i :: 0 <= i < |s.free| ==> s.free[i] < s.made)
    && (forall c :: c in s.held ==> s.held[c] < s.made)
  }

  lemma WithoutOnce(xs: seq<nat>, i: nat)
    requires i < |xs| && forall j, k :: 0 <= j < k < |xs| ==> xs[j] != xs[k]
    ensures var ys := Without(xs, i);
      && (forall j, k :: 0 <= j < k < |ys| ==> ys[j] != ys[k])
      && (forall x :: x in ys <==> x in xs && x != xs[i])
  {
    assert forall x :: x in xs ==> x in xs[..i] || x == xs[i] || x in xs[i + 1..];
  }

  // That is so after every step, if it was before.
  lemma StepExclusive(s: State, l: Label)
    requires Exclusive(s) && Made(s) && CanStep(s, l)
    ensures Exclusive(DoStep(s, l)) && Made(DoStep(s, l))
  {
    match l {
      case Take(c, i) => TakeExclusive(s, c, i);
      case GiveBack(_) =>
      case Drop(i) => WithoutOnce(s.free, i);
    }
  }

  lemma TakeExclusive(s: State, c: nat, i: nat)
    requires Exclusive(s) && Made(s) && CanStep(s, Take(c, i))
    ensures Exclusive(DoStep(s, Take(c, i))) && Made(DoStep(s, Take(c, i)))
  {
    if i < |s.free| {
      WithoutOnce(s.free, i);
      assert s.free[i] in s.free;
    }
  }
}
