/** Small vocabulary shared by every module of the model. */
module Prelude {
  /** Simulated time. The source uses 64-bit ticks; the model never overflows. */
  type Tick = nat

  type Word = bv32
  type Byte = bv8

  datatype Option<+T> = None | Some(value: T)

  function Max(a: nat, b: nat): nat {
    if a > b then a else b
  }

  function Min(a: nat, b: nat): nat {
    if a < b then a else b
  }

  /** The sequence without its element at position i. */
  function Without<T>(s: seq<T>, i: nat): (r: seq<T>)
    requires i < |s|
    ensures |r| == |s| - 1
  {
    s[..i] + s[i + 1..]
  }

  lemma WithoutMultiset<T>(s: seq<T>, i: nat)
    requires i < |s|
    ensures multiset(Without(s, i)) == multiset(s) - multiset{s[i]}
  {
    assert s == s[..i] + [s[i]] + s[i + 1..];
  }

  lemma SameMembers<T>(a: seq<T>, b: seq<T>)
    requires multiset(a) == multiset(b)
    ensures |a| == |b| && forall e :: e in a <==> e in b
  {
    assert |multiset(a)| == |multiset(b)|;
    forall e
      ensures e in a <==> e in b
    {
      assert e in a <==> e in multiset(a);
    }
  }

  lemma RepeatCountsTwice<T>(s: seq<T>, k: nat, l: nat)
    requires k < l < |s| && s[k] == s[l]
    ensures multiset(s)[s[k]] >= 2
  {
    var e := s[k];
    assert s == s[..k] + [e] + s[k + 1..l] + [e] + s[l + 1..];
  }
}
