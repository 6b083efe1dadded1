/** Generic facts about slicing and appending sequences, kept apart from the settings text. */
module SeqFacts {

  lemma PrefixOfPrefix<T>(s: seq<T>, i: nat, n: nat)
    requires i <= n <= |s|
    ensures s[..n][..i] == s[..i]
  {
  }

  lemma FullPrefix<T>(s: seq<T>)
    ensures s[..|s|] == s
  {
  }

  /** A slice that stays inside the left operand of an append. */
  lemma SliceOfAppendLeft<T>(a: seq<T>, b: seq<T>, lo: nat, hi: nat)
    requires lo <= hi <= |a|
    ensures (a + b)[lo..hi] == a[lo..hi]
  {
  }

  /** The right operand of an append, sliced back out. */
  lemma SliceOfAppendRight<T>(a: seq<T>, b: seq<T>)
    ensures (a + b)[|a|..|a| + |b|] == b
  {
  }

  /** A slice of a slice is a slice of the original. */
  lemma SliceOfSlice<T>(s: seq<T>, lo: nat, hi: nat, x: nat, y: nat)
    requires lo <= hi <= |s| && x <= y <= hi - lo
    ensures s[lo..hi][x..y] == s[lo + x..lo + y]
  {
    assert |s[lo..hi][x..y]| == y - x == |s[lo + x..lo + y]|;
    forall k | 0 <= k < y - x
      ensures s[lo..hi][x..y][k] == s[lo + x..lo + y][k]
    {
      assert s[lo..hi][x..y][k] == s[lo..hi][x + k] == s[lo + x + k];
    }
  }

  /** A piece of a block that sits at `s[lo..hi]`, read off `s`. */
  lemma SliceWithin<T>(s: seq<T>, lo: nat, hi: nat, b: seq<T>, x: nat, y: nat)
    requires lo <= hi <= |s| && s[lo..hi] == b && x <= y <= |b|
    ensures lo + y <= hi
    ensures s[lo + x..lo + y] == b[x..y]
  {
    SliceOfSlice(s, lo, hi, x, y);
  }

  /** A prefix of a block that sits at `s[lo..hi]`, read off `s`. */
  lemma PrefixWithin<T>(s: seq<T>, lo: nat, hi: nat, b: seq<T>, n: nat)
    requires lo <= hi <= |s| && s[lo..hi] == b && n <= |b|
    ensures lo + n <= hi
    ensures s[lo..lo + n] == b[..n]
  {
    SliceOfSlice(s, lo, hi, 0, n);
  }

  /** The five parts of `a + b + c + d + e`, each sliced back out. */
  lemma Pieces5<T>(a: seq<T>, b: seq<T>, c: seq<T>, d: seq<T>, e: seq<T>)
    ensures |a + b + c + d + e| == |a| + |b| + |c| + |d| + |e|
    ensures (a + b + c + d + e)[..|a|] == a
    ensures (a + b + c + d + e)[|a|..|a| + |b|] == b
    ensures (a + b + c + d + e)[|a| + |b|..|a| + |b| + |c|] == c
    ensures (a + b + c + d + e)[|a| + |b| + |c|..|a| + |b| + |c| + |d| + |e|] == d + e
  {
    var s := a + b + c + d + e;
    assert s == a + (b + (c + (d + e)));
  }

  /** The parts of `a + b + c` on either side of |a|. */
  lemma Split3<T>(a: seq<T>, b: seq<T>, c: seq<T>)
    ensures (a + b + c)[..|a|] == a
    ensures (a + b + c)[|a|..] == b + c
  {
    assert a + b + c == a + (b + c);
  }

  /** The blocks `f(x)` of the elements of `xs`, concatenated in order. */
  function Gather<A, T>(xs: seq<A>, f: A -> seq<T>): seq<T>
  {
    if |xs| == 0 then [] else Gather(xs[..|xs| - 1], f) + f(xs[|xs| - 1])
  }

  /** Gathering one more element of `xs` appends its block. */
  lemma GatherStep<A, T>(xs: seq<A>, f: A -> seq<T>, i: nat)
    requires i < |xs|
    ensures Gather(xs[..i + 1], f) == Gather(xs[..i], f) + f(xs[i])
  {
    PrefixOfPrefix(xs, i, i + 1);
  }

  /** Block `i` sits in the gathered sequence between the lengths of the gathered prefixes. */
  lemma {:induction false} GatherBlockAt<A, T>(xs: seq<A>, f: A -> seq<T>, i: nat)
    requires i < |xs|
    ensures |Gather(xs[..i], f)| + |f(xs[i])| == |Gather(xs[..i + 1], f)| <= |Gather(xs, f)|
    ensures Gather(xs, f)[|Gather(xs[..i], f)|..|Gather(xs[..i + 1], f)|] == f(xs[i])
  {
    var n := |xs|;
    var init := xs[..n - 1];
    var prefix := Gather(init, f);
    GatherStep(xs, f, i);
    if i == n - 1 {
      FullPrefix(xs);
      SliceOfAppendRight(prefix, f(xs[i]));
    } else {
      GatherBlockAt(init, f, i);
      PrefixOfPrefix(xs, i, n - 1);
      PrefixOfPrefix(xs, i + 1, n - 1);
      assert init[i] == xs[i];
      SliceOfAppendLeft(prefix, f(xs[n - 1]), |Gather(xs[..i], f)|, |Gather(xs[..i + 1], f)|);
    }
  }
}
