/** Building and shuffling decks (Cards/Deck.cs). */
module Deck {
  import opened Cards
  import opened Piles

  /**
   * The deck `Create` builds: suits in enumeration order (Spade, Diamond,
   * Club, Heart), and within each suit the ranks Ace to King, all face-down.
   */
  function StandardDeck(): seq<Card> {
    seq(52, k requires 0 <= k < 52 => Card(k % 13 + 1, k / 13 + 1))
  }

  /** Where `Create` puts the card of a suit and rank. */
  function Position(suit: Suit, rank: Rank): (k: int)
    ensures 0 <= k < 52
  {
    (suit - 1) * 13 + (rank - 1)
  }

  /** `Create`: the nested loops over suits and ranks, appending one new face-down card each time. */
  method Create() returns (deck: seq<Card>)
    ensures deck == StandardDeck()
    ensures |deck| == 52
    ensures forall k :: 0 <= k < |deck| ==> !deck[k].faceUp
    ensures forall suit: Suit, rank: Rank :: deck[Position(suit, rank)] == Card(rank, suit)
  {
    deck := [];
    var suit := 1;
    while suit <= 4
      invariant 1 <= suit <= 5
      invariant deck == StandardDeck()[..(suit - 1) * 13]
    {
      var rank := 1;
      while rank <= 13
        invariant 1 <= rank <= 14
        invariant deck == StandardDeck()[..(suit - 1) * 13 + (rank - 1)]
      {
        PositionOf(suit, rank);
        deck := deck + [Card(rank, suit)];
        rank := rank + 1;
      }
      suit := suit + 1;
    }
    forall suit: Suit, rank: Rank ensures deck[Position(suit, rank)] == Card(rank, suit) {
      PositionOf(suit, rank);
    }
  }

  lemma PositionOf(suit: Suit, rank: Rank)
    ensures StandardDeck()[Position(suit, rank)] == Card(rank, suit)
  {
    var k := Position(suit, rank);
    assert k / 13 == suit - 1 && k % 13 == rank - 1;
  }

  /** No two cards of `Create`'s deck share a suit and a rank. */
  lemma StandardDeckDistinct(j: int, k: int)
    requires 0 <= j < k < 52
    ensures StandardDeck()[j].Id() != StandardDeck()[k].Id()
  {
  }

  /** Every suit and rank occurs exactly once in `Create`'s deck, at its `Position`. */
  lemma StandardDeckExactlyOnce(suit: Suit, rank: Rank)
    ensures StandardDeck()[Position(suit, rank)] == Card(rank, suit)
    ensures forall k :: 0 <= k < 52 && StandardDeck()[k].Id() == CardId(rank, suit) ==> k == Position(suit, rank)
  {
    PositionOf(suit, rank);
    forall k | 0 <= k < 52 && StandardDeck()[k].Id() == CardId(rank, suit) ensures k == Position(suit, rank) {
      var p := Position(suit, rank);
      if k < p {
        StandardDeckDistinct(k, p);
      } else if p < k {
        StandardDeckDistinct(p, k);
      }
    }
  }

  /** The random source: `draws(i)` is what `random.Next(i + 1)` returns when the loop is at `i`. */
  ghost predicate ValidDraws(draws: nat -> nat) {
    forall i :: draws(i) <= i
  }

  /** The tuple swap `(xs[i], xs[j]) = (xs[j], xs[i])`. */
  function Swap<T>(s: seq<T>, i: int, j: int): (r: seq<T>)
    requires 0 <= i < |s| && 0 <= j < |s|
    ensures |r| == |s| && r[i] == s[j] && r[j] == s[i]
    ensures forall k :: 0 <= k < |s| && k != i && k != j ==> r[k] == s[k]
  {
    s[i := s[j]][j := s[i]]
  }

  lemma SwapPermutes<T>(s: seq<T>, i: int, j: int)
    requires 0 <= i < |s| && 0 <= j < |s|
    ensures multiset(Swap(s, i, j)) == multiset(s)
  {
    var t := s[i := s[j]];
    assert multiset(t) == multiset(s) - multiset{s[i]} + multiset{s[j]};
    assert multiset(t[j := s[i]]) == multiset(t) - multiset{t[j]} + multiset{s[i]};
  }

  /** Fisher–Yates from position `i` down to 1, each position swapped with `draws` of it. */
  function ShuffleDown<T>(s: seq<T>, draws: nat -> nat, i: nat): seq<T>
    requires i < |s|
    requires ValidDraws(draws)
    decreases i
  {
    if i == 0 then s else ShuffleDown(Swap(s, i, draws(i)), draws, i - 1)
  }

  /** What `Shuffle` returns for the given random draws. */
  function Shuffled<T>(s: seq<T>, draws: nat -> nat): seq<T>
    requires ValidDraws(draws)
  {
    if s == [] then s else ShuffleDown(s, draws, |s| - 1)
  }

  lemma {:induction false} ShuffleDownPermutes<T>(s: seq<T>, draws: nat -> nat, i: nat)
    requires i < |s|
    requires ValidDraws(draws)
    ensures |ShuffleDown(s, draws, i)| == |s|
    ensures multiset(ShuffleDown(s, draws, i)) == multiset(s)
    decreases i
  {
    if i > 0 {
      SwapPermutes(s, i, draws(i));
      ShuffleDownPermutes(Swap(s, i, draws(i)), draws, i - 1);
    }
  }

  /** A shuffle is a permutation: same length, same multiset of cards. */
  lemma ShuffledPermutes<T>(s: seq<T>, draws: nat -> nat)
    requires ValidDraws(draws)
    ensures |Shuffled(s, draws)| == |s|
    ensures multiset(Shuffled(s, draws)) == multiset(s)
  {
    if s != [] {
      ShuffleDownPermutes(s, draws, |s| - 1);
    }
  }

  lemma {:induction false} ShuffleDownKeepsIds(s: seq<Card>, draws: nat -> nat, i: nat)
    requires i < |s|
    requires ValidDraws(draws)
    ensures Ids(ShuffleDown(s, draws, i)) == Ids(s)
    decreases i
  {
    if i > 0 {
      var j := draws(i);
      var t := Swap(s, i, j);
      var a, b := IdSeq(t), Swap(IdSeq(s), i, j);
      forall k | 0 <= k < |s| ensures a[k] == b[k] {
      }
      assert a == b;
      SwapPermutes(IdSeq(s), i, j);
      ShuffleDownKeepsIds(t, draws, i - 1);
    }
  }

  /** A shuffle keeps the multiset of card identities. */
  lemma ShuffledKeepsIds(s: seq<Card>, draws: nat -> nat)
    requires ValidDraws(draws)
    ensures Ids(Shuffled(s, draws)) == Ids(s)
  {
    if s != [] {
      ShuffleDownKeepsIds(s, draws, |s| - 1);
    }
  }

  /**
   * `Shuffle`: Fisher–Yates on a copy of the argument, which is left alone.
   * Positions Count-1 down to 1 are each swapped with a partner j, 0 <= j <= i.
   */
  method Shuffle(originalDeck: seq<Card>, draws: nat -> nat) returns (shuffledDeck: seq<Card>)
    requires ValidDraws(draws)
    ensures shuffledDeck == Shuffled(originalDeck, draws)
    ensures |shuffledDeck| == |originalDeck|
    ensures multiset(shuffledDeck) == multiset(originalDeck)
    ensures |originalDeck| <= 1 ==> shuffledDeck == originalDeck
  {
    var a := new Card[|originalDeck|](k requires 0 <= k < |originalDeck| => originalDeck[k]);
    assert a[..] == originalDeck;
    var i := a.Length - 1;
    while i > 0
      invariant a.Length == |originalDeck|
      invariant a.Length == 0 ==> i == -1 && a[..] == originalDeck
      invariant a.Length > 0 ==> 0 <= i < a.Length && ShuffleDown(a[..], draws, i) == Shuffled(originalDeck, draws)
      invariant multiset(a[..]) == multiset(originalDeck)
    {
      var j := draws(i);
      SwapPermutes(a[..], i, j);
      a[i], a[j] := a[j], a[i];
      i := i - 1;
    }
    shuffledDeck := a[..];
  }
}
