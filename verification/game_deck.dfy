/**
 * The 24-card deck of the intermediate revision (`game` package): a slice
 * of card pointers with no error checks. Its shuffle is seeded from the
 * clock, which is a parameter here (`now`), and runs backwards.
 */
module GameDeck {
  import opened Base
  import opened GameCard

  /** The card `InitDeck` puts at position `i`. */
  function InitialCard(i: nat): Card
    requires i < 24
  {
    Card(IntToRank(i % 6), IntToSuite(i / 6))
  }

  /** The card values of a fresh deck, in order. */
  function InitialCards(): (s: seq<Card>)
    ensures |s| == 24
    ensures forall i :: 0 <= i < 24 ==> s[i] == InitialCard(i)
  {
    seq(24, i requires 0 <= i < 24 => InitialCard(i))
  }

  /** The six ranks of one suit, NINE to ACE. */
  function SuiteBlock(s: Suite): (b: seq<Card>)
    ensures |b| == 6
    ensures forall k :: 0 <= k < 6 ==> b[k] == Card(IntToRank(k), s)
  {
    seq(6, k requires 0 <= k < 6 => Card(IntToRank(k), s))
  }

  /** A fresh deck is the DIAMOND, CLUB, HEART and SPADE blocks in turn. */
  lemma InitialCardsBlocks()
    ensures InitialCards() == SuiteBlock(DIAMOND) + SuiteBlock(CLUB) + SuiteBlock(HEART) + SuiteBlock(SPADE)
  {
    var blocks := SuiteBlock(DIAMOND) + SuiteBlock(CLUB) + SuiteBlock(HEART) + SuiteBlock(SPADE);
    forall i | 0 <= i < 24
      ensures InitialCards()[i] == blocks[i]
    {
      var q, r := i / 6, i % 6;
      assert i == 6 * q + r && 0 <= r < 6;
      assert blocks[i] == SuiteBlock(IntToSuite(q))[r];
    }
  }

  lemma BlockCount(b: Suite, s: Suite)
    ensures Count(SuiteBlock(b), SuiteTest(s)) == if b == s then 6 else 0
  {
    if b == s {
      FilterAll(SuiteBlock(b), SuiteTest(s));
    } else {
      FilterNone(SuiteBlock(b), SuiteTest(s));
    }
  }

  /** Four blocks of distinct suits hold six cards of each of their suits and none of any other. */
  lemma {:induction false} FourBlocksCount(a: Suite, b: Suite, c: Suite, d: Suite, s: Suite)
    requires a != b && a != c && a != d && b != c && b != d && c != d
    ensures Count(SuiteBlock(a) + SuiteBlock(b) + SuiteBlock(c) + SuiteBlock(d), SuiteTest(s))
         == if s in {a, b, c, d} then 6 else 0
  {
    var test := SuiteTest(s);
    CountFour(SuiteBlock(a), SuiteBlock(b), SuiteBlock(c), SuiteBlock(d), test);
    BlockCount(a, s);
    BlockCount(b, s);
    BlockCount(c, s);
    BlockCount(d, s);
  }

  /** A fresh deck holds six cards of each playing suit and none of NONE. */
  lemma InitialCardsSixPerSuite(s: Suite)
    ensures Count(InitialCards(), SuiteTest(s)) == if s == NONE then 0 else 6
  {
    InitialCardsBlocks();
    FourBlocksCount(DIAMOND, CLUB, HEART, SPADE, s);
  }

  lemma CountFour<T>(a: seq<T>, b: seq<T>, c: seq<T>, d: seq<T>, p: T -> bool)
    ensures Count(a + b + c + d, p) == Count(a, p) + Count(b, p) + Count(c, p) + Count(d, p)
  {
    CountAppend(a, b, p);
    CountAppend(a + b, c, p);
    CountAppend(a + b + c, d, p);
  }

  /** A fresh deck holds every playing card exactly once. */
  lemma InitialCardsComplete(c: Card)
    ensures c in InitialCards() <==> c.suite != NONE
    ensures forall i, j :: 0 <= i < j < 24 ==> InitialCards()[i] != InitialCards()[j]
  {
    if c.suite != NONE {
      var i := 6 * (SuiteOrdinal(c.suite) - 1) + RankOrdinal(c.rank);
      assert i / 6 == SuiteOrdinal(c.suite) - 1 && i % 6 == RankOrdinal(c.rank);
      IntToSuiteRoundTrip(c.suite);
      IntToRankRoundTrip(c.rank);
      assert InitialCards()[i] == c;
    }
    forall i, j | 0 <= i < j < 24
      ensures InitialCards()[i] != InitialCards()[j]
    {
      assert i == 6 * (i / 6) + i % 6 && j == 6 * (j / 6) + j % 6;
    }
  }

  /**
   * The first `t` steps of the backward swap loop over a deck of `n` cards:
   * step t (from 1) swaps index `n - t` with `Intn(n - t + 1)`, the t-th call.
   */
  function ShuffleDown<T>(s: seq<T>, seed: int, rng: Rng, t: nat): (r: seq<T>)
    requires ValidRng(rng) && (t == 0 || t < |s|)
    ensures |r| == |s|
    ensures multiset(r) == multiset(s)
  {
    if t == 0 then s
    else
      var prev := ShuffleDown(s, seed, rng, t - 1);
      var i := |s| - t;
      SwapMultiset(prev, i, rng(seed, t - 1, i + 1));
      Swap(prev, i, rng(seed, t - 1, i + 1))
  }

  /** The whole backward shuffle: one step for each index from the last down to 1. */
  function ShuffledDown<T>(s: seq<T>, seed: int, rng: Rng): (r: seq<T>)
    requires ValidRng(rng)
    ensures |r| == |s| && multiset(r) == multiset(s)
  {
    ShuffleDown(s, seed, rng, if |s| == 0 then 0 else |s| - 1)
  }

  /** The card values behind a sequence of pointers. */
  function Values(cards: seq<CardRef>): (s: seq<Card>)
    reads cards
    ensures |s| == |cards|
    ensures forall i :: 0 <= i < |cards| ==> s[i] == cards[i].card
  {
    seq(|cards|, i requires 0 <= i < |cards| reads cards => cards[i].card)
  }

  class Deck {
    var cards: seq<CardRef>

    /** `InitDeck`: 24 fresh, distinct pointers; card `i` is `IntToRank(i % 6)` of `IntToSuite(i / 6)`. */
    constructor InitDeck()
      ensures |cards| == 24 && Values(cards) == InitialCards()
      ensures forall i :: 0 <= i < 24 ==> fresh(cards[i])
      ensures forall i, j :: 0 <= i < j < 24 ==> cards[i] != cards[j]
    {
      var cs: seq<CardRef> := [];
      for i := 0 to 24
        invariant |cs| == i
        invariant forall k :: 0 <= k < i ==> fresh(cs[k]) && cs[k].card == InitialCard(k)
        invariant forall k, l :: 0 <= k < l < i ==> cs[k] != cs[l]
      {
        var c := new CardRef(Card(IntToRank(i % 6), IntToSuite(i / 6)));
        cs := cs + [c];
      }
      cards := cs;
    }

    /** The backward swap shuffle seeded with the clock reading `now`. */
    method Shuffle(rng: Rng, now: int)
      requires ValidRng(rng)
      modifies this`cards
      ensures cards == ShuffledDown(old(cards), now, rng)
    {
      ghost var orig := cards;
      var n := |cards|;
      var i := n - 1;
      while i >= 1
        invariant i <= n - 1 && (n >= 1 ==> i >= 0) && (n == 0 ==> i == -1)
        invariant |cards| == n
        invariant cards == ShuffleDown(orig, now, rng, n - 1 - i)
      {
        var j := rng(now, n - 1 - i, i + 1);
        cards := cards[i := cards[j]][j := cards[i]];
        i := i - 1;
      }
    }

    function Length(): (n: nat)
      reads this
      ensures n == |cards|
    {
      |cards|
    }

    /** `pop`: removes and returns the last pointer; an empty deck panics. */
    method Pop() returns (c: CardRef)
      requires |cards| > 0
      modifies this`cards
      ensures c == old(cards)[|old(cards)| - 1]
      ensures cards == old(cards)[..|old(cards)| - 1]
    {
      var index := |cards| - 1;
      c := cards[index];
      cards := cards[..index];
    }

    /** Pops `n` cards, top first; drawing more than the deck holds panics. */
    method DrawCards(n: int) returns (drawn: seq<CardRef>)
      requires n <= |cards|
      modifies this`cards
      ensures var k := if n < 0 then 0 else n;
              drawn == Reversed(old(cards)[|old(cards)| - k..]) && cards == old(cards)[..|old(cards)| - k]
    {
      ghost var orig := cards;
      drawn := [];
      var i := 0;
      while i < n
        invariant 0 <= i && (0 <= n ==> i <= n) && (n < 0 ==> i == 0)
        invariant cards == orig[..|orig| - i]
        invariant drawn == Reversed(orig[|orig| - i..])
      {
        var c := Pop();
        assert orig[|orig| - (i + 1)..][1..] == orig[|orig| - i..];
        drawn := drawn + [c];
        i := i + 1;
      }
    }

    method ReturnCards(cs: seq<CardRef>)
      modifies this`cards
      ensures cards == old(cards) + cs
    {
      cards := cards + cs;
    }
  }
}
