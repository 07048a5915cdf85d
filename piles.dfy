/**
 * The card piles of the board are C# `Stack<Card>` values. A pile is
 * modelled bottom card first, so the top card (what `Peek` returns and
 * `Pop` removes) is the last element and `Push` appends. A stack enumerates
 * (and so `ToList`, `ElementAt` and `new List<Card>(stack)` see) its cards
 * top first, which is `Reversed(pile)`; `new Stack<Card>(xs)` pushes the
 * elements of `xs` in order, which yields the pile `xs`.
 */
module Piles {
  import opened Cards

  type Pile = seq<Card>

  /** `Peek`. */
  function Top(p: Pile): Card
    requires |p| > 0
  {
    p[|p| - 1]
  }

  /** `ElementAt(k)` on a stack: the k-th card counting from the top (the top is 0). */
  function ElementAt(p: Pile, k: int): (c: Card)
    requires 0 <= k < |p|
    ensures k == 0 ==> c == Top(p)
    ensures c == Reversed(p)[k]
  {
    p[|p| - 1 - k]
  }

  function Reversed<T>(s: seq<T>): (r: seq<T>)
    ensures |r| == |s|
    ensures forall k :: 0 <= k < |s| ==> r[k] == s[|s| - 1 - k]
  {
    if s == [] then [] else [s[|s| - 1]] + Reversed(s[..|s| - 1])
  }

  lemma ReversedTwice<T>(s: seq<T>)
    ensures Reversed(Reversed(s)) == s
  {
    var r := Reversed(Reversed(s));
    assert |r| == |s|;
    forall k | 0 <= k < |s| ensures r[k] == s[k] {
      assert r[k] == Reversed(s)[|s| - 1 - k];
    }
  }

  /** The identities of a pile's cards, bottom first. */
  function IdSeq(p: Pile): (r: seq<CardId>)
    ensures |r| == |p|
    ensures forall k :: 0 <= k < |p| ==> r[k] == p[k].Id()
  {
    seq(|p|, k requires 0 <= k < |p| => p[k].Id())
  }

  /** The multiset of card identities in a pile: what moving cards around must conserve. */
  function Ids(p: Pile): multiset<CardId> {
    multiset(IdSeq(p))
  }

  /** The identities held by a list of piles (the tableau or the foundations). */
  function AllIds(ps: seq<Pile>): multiset<CardId> {
    if ps == [] then multiset{} else AllIds(ps[..|ps| - 1]) + Ids(ps[|ps| - 1])
  }

  lemma IdsAppend(a: Pile, b: Pile)
    ensures Ids(a + b) == Ids(a) + Ids(b)
  {
    assert IdSeq(a + b) == IdSeq(a) + IdSeq(b);
  }

  lemma IdsSplit(s: seq<Card>, lo: int, hi: int)
    requires 0 <= lo <= hi <= |s|
    ensures Ids(s[..hi]) == Ids(s[..lo]) + Ids(s[lo..hi])
  {
    assert s[..hi] == s[..lo] + s[lo..hi];
    IdsAppend(s[..lo], s[lo..hi]);
  }

  lemma IdsPushPop(p: Pile)
    requires |p| > 0
    ensures Ids(p) == Ids(p[..|p| - 1]) + multiset{Top(p).Id()}
  {
    assert p == p[..|p| - 1] + [Top(p)];
    IdsAppend(p[..|p| - 1], [Top(p)]);
    assert IdSeq([Top(p)]) == [Top(p).Id()];
  }

  lemma IdsReversed(p: Pile)
    ensures Ids(Reversed(p)) == Ids(p)
  {
    var a, b := IdSeq(Reversed(p)), Reversed(IdSeq(p));
    assert |a| == |b| == |p|;
    forall k | 0 <= k < |p| ensures a[k] == b[k] {
      assert a[k] == Reversed(p)[k].Id() == p[|p| - 1 - k].Id();
    }
    assert a == b;
    MultisetReversed(IdSeq(p));
  }

  lemma {:induction false} MultisetReversed<T>(s: seq<T>)
    ensures multiset(Reversed(s)) == multiset(s)
  {
    if s != [] {
      MultisetReversed(s[..|s| - 1]);
      assert s == s[..|s| - 1] + [s[|s| - 1]];
    }
  }

  /** Changing face-up flags (and nothing else) leaves the identities alone. */
  lemma IdsSameFaces(p: Pile, q: Pile)
    requires |p| == |q|
    requires forall k :: 0 <= k < |p| ==> p[k].Id() == q[k].Id()
    ensures Ids(p) == Ids(q)
  {
    assert IdSeq(p) == IdSeq(q);
  }

  /** Replacing one pile in a list changes the list's identities by exactly that pile's. */
  lemma {:induction false} AllIdsUpdate(ps: seq<Pile>, i: int, p: Pile)
    requires 0 <= i < |ps|
    ensures AllIds(ps[i := p]) + Ids(ps[i]) == AllIds(ps) + Ids(p)
  {
    var n := |ps| - 1;
    var q := ps[i := p];
    if i == n {
      assert q[..n] == ps[..n];
      assert q[n] == p;
    } else {
      AllIdsUpdate(ps[..n], i, p);
      assert q[..n] == ps[..n][i := p];
      assert ps[..n][i] == ps[i];
      assert q[n] == ps[n];
      UnionRearrange(AllIds(ps[..n][i := p]), AllIds(ps[..n]), Ids(ps[n]), Ids(ps[i]), Ids(p));
    }
  }

  lemma UnionRearrange<T>(a: multiset<T>, b: multiset<T>, x: multiset<T>, y: multiset<T>, z: multiset<T>)
    requires a + y == b + z
    ensures (a + x) + y == (b + x) + z
  {
    forall e ensures ((a + x) + y)[e] == ((b + x) + z)[e] {
      assert (a + y)[e] == (b + z)[e];
      assert ((a + x) + y)[e] == (a + x)[e] + y[e] == a[e] + x[e] + y[e];
      assert ((b + x) + z)[e] == (b + x)[e] + z[e] == b[e] + x[e] + z[e];
    }
  }

  lemma {:induction false} AllIdsOfEmpty(ps: seq<Pile>)
    requires forall i :: 0 <= i < |ps| ==> ps[i] == []
    ensures AllIds(ps) == multiset{}
  {
    if ps != [] {
      AllIdsOfEmpty(ps[..|ps| - 1]);
    }
  }

  /** Size of a pile list: the number of cards in all its piles together. */
  function TotalSize(ps: seq<Pile>): nat {
    if ps == [] then 0 else TotalSize(ps[..|ps| - 1]) + |ps[|ps| - 1]|
  }

  lemma {:induction false} AllIdsSize(ps: seq<Pile>)
    ensures |AllIds(ps)| == TotalSize(ps)
  {
    if ps != [] {
      AllIdsSize(ps[..|ps| - 1]);
    }
  }
}
