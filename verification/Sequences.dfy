/** Identities of sequences that larger proofs would otherwise have to find along the way. */
module Sequences {

  lemma SplitAt<T>(s: seq<T>, i: nat)
    requires i <= |s|
    ensures s[..i] + s[i..] == s
  {
  }

  lemma SplitAround<T>(s: seq<T>, i: nat)
    requires i < |s|
    ensures s[..i] + [s[i]] + s[i + 1..] == s
  {
  }

  lemma ConcatFront<T>(a: seq<T>, b: seq<T>)
    requires b != []
    ensures (a + b)[..|a + b| - 1] == a + b[..|b| - 1]
    ensures (a + b)[|a + b| - 1] == b[|b| - 1]
  {
  }

  lemma ConcatEmpty<T>(a: seq<T>)
    ensures a + [] == a && [] + a == a
  {
  }

  lemma ConcatAssoc<T>(a: seq<T>, b: seq<T>, c: seq<T>)
    ensures a + b + c == a + (b + c)
  {
  }

  lemma UpdateAround<T>(s: seq<T>, i: nat, x: T)
    requires i < |s|
    ensures s[i := x] == s[..i] + [x] + s[i + 1..]
  {
  }

  lemma TakeTake<T>(s: seq<T>, i: nat, j: nat)
    requires i <= j <= |s|
    ensures s[..j][..i] == s[..i]
  {
  }

  lemma FrontOfOne<T>(x: T)
    ensures [x][..0] == []
  {
  }

  /** Two adjacent pieces of a sequence. */
  lemma TwoPieces<T>(s: seq<T>, at: nat, a: seq<T>, b: seq<T>)
    requires at + |a| + |b| <= |s| && s[at..at + |a| + |b|] == a + b
    ensures s[at..at + |a|] == a && s[at + |a|..at + |a| + |b|] == b
  {
    var ab := a + b;
    forall i | 0 <= i < |a| ensures s[at + i] == a[i] {
      assert s[at..at + |a| + |b|][i] == ab[i];
    }
    forall i | 0 <= i < |b| ensures s[at + |a| + i] == b[i] {
      assert s[at..at + |a| + |b|][|a| + i] == ab[|a| + i];
    }
  }

  /** Sequences that agree between two positions have the same slice there. */
  lemma SameSlice<T>(s: seq<T>, t: seq<T>, from: nat, to: nat)
    requires from <= to <= |s| && to <= |t|
    requires forall x :: from <= x < to ==> s[x] == t[x]
    ensures s[from..to] == t[from..to]
  {
  }

  /** A sequence that has one more element than another, at position `i`. */
  lemma InsertedAt<T>(s: seq<T>, i: nat, x: T, t: seq<T>)
    requires i <= |s| && |t| == |s| + 1 && t[i] == x
    requires forall j :: 0 <= j < i ==> t[j] == s[j]
    requires forall j :: i < j < |t| ==> t[j] == s[j - 1]
    ensures t == s[..i] + [x] + s[i..]
  {
  }
}
