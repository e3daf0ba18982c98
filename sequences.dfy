/** Facts about sequences that more than one module uses. */
module Sequences {

  /** Extending a prefix by the next element. */
  lemma PrefixSnoc<T>(s: seq<T>, n: int)
    requires 0 <= n < |s|
    ensures s[..n + 1] == s[..n] + [s[n]]
  {
  }

  /** Appending one element after a concatenation extends its second part. */
  lemma AppendSnoc<T>(a: seq<T>, b: seq<T>, x: T)
    ensures (a + b) + [x] == a + (b + [x])
  { }

  /** A constructed sequence one longer is the shorter one followed by the next value. */
  lemma CreateSnoc<T>(n: nat, f: int --> T)
    requires forall i :: 0 <= i <= n ==> f.requires(i)
    ensures seq(n, f) + [f(n)] == seq(n + 1, f)
  {
    var shorter, longer := seq(n, f) + [f(n)], seq(n + 1, f);
    forall k | 0 <= k < n + 1
      ensures shorter[k] == longer[k]
    {
      if k < n {
        assert shorter[k] == seq(n, f)[k];
      }
    }
  }
}
