// Shared value types.
module Prelude {
  newtype byte = x: int | 0 <= x < 0x100

  datatype Option<+T> = None | Some(value: T)

  datatype Result<+T, +E> = Ok(value: T) | Err(error: E)

  function Without<T>(xs: seq<T>, i: nat): seq<T>
    requires i < |xs|
  {
    xs[..i] + xs[i + 1..]
  }

  lemma SplitAt<T>(before: seq<T>, s: seq<T>, k: nat)
    requires k <= |s|
    ensures before + s[..k] + s[k..] == before + s
  {
    assert s[..k] + s[k..] == s;
  }

  // Prefixes of sequences are closed under extension on the right.
  lemma PrefixTransitive<T>(a: seq<T>, b: seq<T>, c: seq<T>)
    requires a <= b && b <= c
    ensures a <= c
  {
    assert a == b[..|a|] == c[..|a|];
  }
}
