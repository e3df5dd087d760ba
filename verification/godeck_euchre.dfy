/**
 * Euchre rules of the latest revision (`godeck` package): the left bower,
 * card values under a trump and a led suit, the winner of a trick, the
 * follow-suit rule, and the euchre deck constructor.
 *
 * The Go methods hang off `*EuchreDeck` but never read it, so they are
 * modelled as plain functions; `NewEuchreDeck` returns the embedded `Deck`.
 */
module GodeckEuchre {
  import opened Base
  import opened GodeckRank
  import opened GodeckSuit
  import opened GodeckCard
  import opened GodeckDeck

  /**
   * The `LeftBauerSuite` table: the other suit of the same colour. `None` is
   * not a key, so looking it up yields the zero suit `None`.
   */
  function LeftBauerSuite(s: Suit): (r: Suit)
    ensures s == Suit.None <==> r == Suit.None
    ensures s != Suit.None ==> r != s
  {
    match s
    case Diamonds => Hearts
    case Hearts => Diamonds
    case Clubs => Spades
    case Spades => Clubs
    case None => Suit.None
  }

  predicate IsRed(s: Suit)
  {
    s == Hearts || s == Diamonds
  }

  /** The partner suit is the other suit of the same colour, and partnering twice gives the suit back. */
  lemma LeftBauerSuitePartners(s: Suit)
    requires s != Suit.None
    ensures LeftBauerSuite(LeftBauerSuite(s)) == s
    ensures IsRed(LeftBauerSuite(s)) == IsRed(s)
  {
  }

  /** `isCardLeftBauer`: the jack of the trump suit's partner, a jack of the other suit of trump's colour. */
  predicate IsCardLeftBauer(c: Card, trump: Suit)
    ensures IsCardLeftBauer(c, trump) ==> c.rank == Jack
    ensures IsCardLeftBauer(c, trump) && trump != Suit.None ==>
              c.suit != trump && c.suit != Suit.None && IsRed(c.suit) == IsRed(trump)
  {
    c.suit == LeftBauerSuite(trump) && c.rank == Jack
  }

  /** The value of a card in a trick: 0 off-suit; trump adds 10, the right bower 5 more, the left bower 14; plus the rank's integer value. */
  function CardValue(c: Card, trump: Suit, lead: Suit): (v: int)
    ensures v >= 0
    ensures v == 0 <==> c.suit != trump && c.suit != lead && !IsCardLeftBauer(c, trump)
  {
    if c.suit != trump && c.suit != lead && !IsCardLeftBauer(c, trump) then 0
    else
      var trumpBonus := if c.suit == trump then 10 + (if c.rank == Jack then 5 else 0) else 0;
      var leftBonus := if IsCardLeftBauer(c, trump) then 10 + 4 else 0;
      1 + trumpBonus + leftBonus + RankOrdinal(c.rank)
  }

  /** A card of the 24-card euchre deck: rank Nine..Ace in a playing suit. */
  predicate IsEuchreCard(c: Card)
  {
    RankOrdinal(Nine) <= RankOrdinal(c.rank) && c.suit != Suit.None
  }

  /** A card that counts as trump: the trump suit or the left bower. */
  predicate IsTrump(c: Card, trump: Suit)
  {
    c.suit == trump || IsCardLeftBauer(c, trump)
  }

  /** The euchre ranking: right bower, then left bower, then trump by rank, then the led suit by rank, then nothing. */
  lemma {:induction false} CardValueRanking(c: Card, d: Card, trump: Suit, lead: Suit)
    requires trump != Suit.None
    ensures c == Card(Jack, trump) && d != c ==> CardValue(c, trump, lead) > CardValue(d, trump, lead)
    ensures IsCardLeftBauer(c, trump) && d != c && d != Card(Jack, trump) ==>
              CardValue(c, trump, lead) > CardValue(d, trump, lead)
    ensures IsEuchreCard(c) && IsTrump(c, trump) && !IsTrump(d, trump) ==>
              CardValue(c, trump, lead) > CardValue(d, trump, lead)
    ensures c.suit == trump && d.suit == trump && c.rank != Jack && d.rank != Jack ==>
              (CardValue(c, trump, lead) > CardValue(d, trump, lead) <==> RankOrdinal(c.rank) > RankOrdinal(d.rank))
    ensures c.suit == lead && d.suit == lead && !IsTrump(c, trump) && !IsTrump(d, trump) ==>
              (CardValue(c, trump, lead) > CardValue(d, trump, lead) <==> RankOrdinal(c.rank) > RankOrdinal(d.rank))
    ensures c.suit == lead && !IsTrump(d, trump) && d.suit != lead ==> CardValue(c, trump, lead) > CardValue(d, trump, lead)
  {
  }

  /** Among euchre cards a positive value identifies the card: no two cards of a trick tie. */
  lemma {:induction false} ValueDeterminesCard(c: Card, d: Card, trump: Suit, lead: Suit)
    requires IsEuchreCard(c) && IsEuchreCard(d) && trump != Suit.None
    requires CardValue(c, trump, lead) > 0 && CardValue(c, trump, lead) == CardValue(d, trump, lead)
    ensures c == d
  {
    var v := CardValue(c, trump, lead);
    if IsTrump(c, trump) != IsTrump(d, trump) {
      CardValueRanking(c, d, trump, lead);
      CardValueRanking(d, c, trump, lead);
      assert false;
    }
    if IsTrump(c, trump) {
      if c.rank == Jack || d.rank == Jack {
        CardValueRanking(c, d, trump, lead);
        CardValueRanking(d, c, trump, lead);
      }
    }
    RankOrdinalInjective(c.rank, d.rank);
  }

  /** Positive when `c1` beats `c2`, zero on a tie, negative when `c2` beats `c1`. */
  function CompareCards(c1: Card, c2: Card, trump: Suit, lead: Suit): (d: int)
    ensures d > 0 <==> CardValue(c1, trump, lead) > CardValue(c2, trump, lead)
    ensures d == 0 <==> CardValue(c1, trump, lead) == CardValue(c2, trump, lead)
  {
    CardValue(c1, trump, lead) - CardValue(c2, trump, lead)
  }

  lemma CompareAntisymmetric(c1: Card, c2: Card, trump: Suit, lead: Suit)
    ensures CompareCards(c1, c2, trump, lead) == -CompareCards(c2, c1, trump, lead)
  {
  }

  /** The value function of a trick with this trump and led suit. */
  function ValueUnder(trump: Suit, lead: Suit): Card -> int
  {
    c => CardValue(c, trump, lead)
  }

  /** A positive comparison means a strictly greater value under the trick's value function. */
  lemma CompareCardsBeats(c: Card, w: Card, trump: Suit, lead: Suit)
    ensures CompareCards(c, w, trump, lead) > 0 <==> ValueUnder(trump, lead)(c) > ValueUnder(trump, lead)(w)
  {
  }

  /**
   * The winner of four cards played in order: a later card replaces the
   * current winner only when it is strictly better, so the winner is the
   * first card of highest value.
   */
  method GetWinningCard(c1: Card, c2: Card, c3: Card, c4: Card, trump: Suit, lead: Suit) returns (winner: Card)
    ensures var cs := [c1, c2, c3, c4];
            winner == cs[BestIndex(cs, ValueUnder(trump, lead))]
  {
    winner := c1;
    CompareCardsBeats(c2, winner, trump, lead);
    if CompareCards(c2, winner, trump, lead) > 0 {
      winner := c2;
    }
    ghost var w2 := winner;
    CompareCardsBeats(c3, winner, trump, lead);
    if CompareCards(c3, winner, trump, lead) > 0 {
      winner := c3;
    }
    ghost var w3 := winner;
    CompareCardsBeats(c4, winner, trump, lead);
    if CompareCards(c4, winner, trump, lead) > 0 {
      winner := c4;
    }
    ScanOfFour(c1, c2, c3, c4, ValueUnder(trump, lead), w2, w3, winner);
  }

  /** For euchre cards with a positive first card the winner is the unique best card, whatever the playing order. */
  lemma {:induction false} WinnerOrderIndependent(cs: seq<Card>, ds: seq<Card>, trump: Suit, lead: Suit)
    requires |cs| == 4 && multiset(cs) == multiset(ds)
    requires forall c :: c in cs ==> IsEuchreCard(c)
    requires trump != Suit.None && CardValue(cs[0], trump, lead) > 0
    ensures |ds| == 4
    ensures cs[BestIndex(cs, ValueUnder(trump, lead))] == ds[BestIndex(ds, ValueUnder(trump, lead))]
  {
    assert |ds| == |multiset(ds)| == 4;
    var v := ValueUnder(trump, lead);
    var i, k := BestIndex(cs, v), BestIndex(ds, v);
    var w, u := cs[i], ds[k];
    assert u in multiset(ds);
    var j :| 0 <= j < 4 && cs[j] == u;
    assert w in multiset(cs);
    var l :| 0 <= l < 4 && ds[l] == w;
    assert v(cs[0]) <= v(w) && v(cs[j]) <= v(w) && v(ds[l]) <= v(u);
    ValueDeterminesCard(w, u, trump, lead);
  }

  /** The test for a card that counts as trump, as a first-class predicate for `Filter`. */
  function TrumpTest(trump: Suit): Card -> bool
  {
    c => IsTrump(c, trump)
  }

  /** A card that follows the led suit; the left bower never does. */
  predicate Follows(c: Card, trump: Suit, ledSuit: Suit)
  {
    !IsCardLeftBauer(c, trump) && c.suit == ledSuit
  }

  /** The follow test as a first-class predicate for `Filter`. */
  function FollowTest(trump: Suit, ledSuit: Suit): Card -> bool
  {
    c => Follows(c, trump, ledSuit)
  }

  /** The suit a lead card demands: the trump suit when the left bower leads, else its printed suit. */
  function LedSuit(lead: Card, trump: Suit): (s: Suit)
    ensures IsCardLeftBauer(lead, trump) ==> s == trump
    ensures !IsCardLeftBauer(lead, trump) ==> s == lead.suit
  {
    if IsCardLeftBauer(lead, trump) then trump else lead.suit
  }

  /**
   * The cards a hand may play: anything on the opening lead; trump (with
   * the left bower) when trump is led and held; otherwise cards of the led
   * suit when held; otherwise the whole hand.
   */
  function Playable(hand: seq<Card>, trump: Suit, lead: Card): seq<Card>
  {
    if lead == EmptyCard() then hand
    else
      var ledSuit := LedSuit(lead, trump);
      var trumps := Filter(hand, TrumpTest(trump));
      var follows := Filter(hand, FollowTest(trump, ledSuit));
      if ledSuit == trump && trumps != [] then trumps
      else if follows != [] then follows
      else hand
  }

  /** Which cards are playable, stated card by card. */
  lemma PlayableCharacterisation(hand: seq<Card>, trump: Suit, lead: Card, c: Card)
    ensures c in Playable(hand, trump, lead) <==>
      c in hand &&
      (lead == EmptyCard() ||
       (if LedSuit(lead, trump) == trump && exists t :: t in hand && IsTrump(t, trump) then IsTrump(c, trump)
        else if exists f :: f in hand && FollowTest(trump, LedSuit(lead, trump))(f) then FollowTest(trump, LedSuit(lead, trump))(c)
        else true))
  {
    if lead != EmptyCard() {
      var ledSuit := LedSuit(lead, trump);
      var trumps := Filter(hand, TrumpTest(trump));
      var follows := Filter(hand, FollowTest(trump, ledSuit));
      var hasTrump := exists t :: t in hand && IsTrump(t, trump);
      var hasFollow := exists f :: f in hand && FollowTest(trump, ledSuit)(f);
      assert hasTrump <==> trumps != [] by {
        if hasTrump {
          var t :| t in hand && IsTrump(t, trump);
          assert TrumpTest(trump)(t);
          assert t in trumps;
        }
        if trumps != [] {
          assert trumps[0] in trumps;
          assert TrumpTest(trump)(trumps[0]);
        }
      }
      assert hasFollow <==> follows != [] by {
        if hasFollow {
          var f :| f in hand && FollowTest(trump, ledSuit)(f);
          assert f in follows;
        }
        if follows != [] {
          assert follows[0] in follows;
        }
      }
      assert c in trumps <==> c in hand && IsTrump(c, trump) by {
        assert TrumpTest(trump)(c) == IsTrump(c, trump);
      }
      assert c in follows <==> c in hand && FollowTest(trump, ledSuit)(c);
    }
  }

  /** Whatever the lead, the playable cards are a subsequence of the hand, and some card is playable from a non-empty hand. */
  lemma PlayableWithinHand(hand: seq<Card>, trump: Suit, lead: Card)
    ensures Subsequence(Playable(hand, trump, lead), hand)
    ensures hand != [] ==> Playable(hand, trump, lead) != []
  {
    var ledSuit := LedSuit(lead, trump);
    FilterSubsequence(hand, TrumpTest(trump));
    FilterSubsequence(hand, FollowTest(trump, ledSuit));
    SubsequenceRefl(hand);
  }

  /** When a hand can follow a non-trump lead it must, and its left bower does not count as following. */
  lemma LeftBauerDoesNotFollow(hand: seq<Card>, trump: Suit, lead: Card, c: Card)
    requires lead != EmptyCard() && LedSuit(lead, trump) != trump
    requires exists f :: f in hand && !IsCardLeftBauer(f, trump) && f.suit == lead.suit
    requires IsCardLeftBauer(c, trump)
    ensures c !in Playable(hand, trump, lead)
  {
    PlayableCharacterisation(hand, trump, lead, c);
    var f :| f in hand && !IsCardLeftBauer(f, trump) && f.suit == lead.suit;
    assert FollowTest(trump, LedSuit(lead, trump))(f);
  }

  /**
   * With hearts trump and the nine of diamonds led, a hand of the jack of
   * diamonds (the left bower) and the king of clubs holds no diamond, so
   * either card may be played.
   */
  lemma LeftBauerLeavesHandFree(hand: seq<Card>)
    requires hand == [Card(Jack, Diamonds), Card(King, Clubs)]
    ensures Playable(hand, Hearts, Card(Nine, Diamonds)) == hand
  {
    FilterNone(hand, FollowTest(Hearts, Diamonds));
  }

  /** The trump pass of `GetPlayableCards`: every trump card and the left bower, in hand order. */
  method CollectTrump(hand: seq<Card>, trump: Suit) returns (playable: seq<Card>, hasTrumpCards: bool)
    ensures playable == Filter(hand, TrumpTest(trump))
    ensures hasTrumpCards <==> playable != []
  {
    playable := [];
    hasTrumpCards := false;
    for i := 0 to |hand|
      invariant playable == Filter(hand[..i], TrumpTest(trump))
      invariant hasTrumpCards <==> playable != []
    {
      FilterPrefix(hand, i, TrumpTest(trump));
      if IsTrump(hand[i], trump) {
        playable := playable + [hand[i]];
        hasTrumpCards := true;
      }
    }
    assert hand[..|hand|] == hand;
  }

  /** The follow pass of `GetPlayableCards`: every card of the led suit except the left bower, in hand order. */
  method CollectLead(hand: seq<Card>, trump: Suit, ledSuit: Suit) returns (playable: seq<Card>, hasLeadCards: bool)
    ensures playable == Filter(hand, FollowTest(trump, ledSuit))
    ensures hasLeadCards <==> playable != []
  {
    playable := [];
    hasLeadCards := false;
    for i := 0 to |hand|
      invariant playable == Filter(hand[..i], FollowTest(trump, ledSuit))
      invariant hasLeadCards <==> playable != []
    {
      FilterPrefix(hand, i, FollowTest(trump, ledSuit));
      if IsCardLeftBauer(hand[i], trump) {
        continue;
      }
      if hand[i].suit == ledSuit {
        playable := playable + [hand[i]];
        hasLeadCards := true;
      }
    }
    assert hand[..|hand|] == hand;
  }

  /** `GetPlayableCards`: the trump pass when trump is led, then the follow pass, then the whole hand. */
  method GetPlayableCards(hand: seq<Card>, trump: Suit, lead: Card) returns (playable: seq<Card>)
    ensures playable == Playable(hand, trump, lead)
  {
    if lead == EmptyCard() {
      return hand;
    }
    var ledSuit := lead.suit;
    var leftBauerWasLed := IsCardLeftBauer(lead, trump);
    if leftBauerWasLed {
      ledSuit := trump;
    }
    var trumpWasLed := ledSuit == trump || leftBauerWasLed;
    var hasTrumpCards := false;
    if trumpWasLed {
      playable, hasTrumpCards := CollectTrump(hand, trump);
      if hasTrumpCards {
        return playable;
      }
    }
    var hasLeadCards;
    playable, hasLeadCards := CollectLead(hand, trump, ledSuit);
    if !hasLeadCards && !hasTrumpCards {
      playable := playable + hand;
    }
  }

  /** Searches the playable cards for `card`. */
  method IsCardPlayable(card: Card, hand: seq<Card>, trump: Suit, lead: Card) returns (b: bool)
    ensures b <==> card in Playable(hand, trump, lead)
  {
    var playable := GetPlayableCards(hand, trump, lead);
    for i := 0 to |playable|
      invariant card !in playable[..i]
    {
      if playable[i] == card {
        return true;
      }
      assert playable[..i + 1] == playable[..i] + [playable[i]];
    }
    assert playable[..|playable|] == playable;
    return false;
  }

  /** Every caller option, then `Range(Nine, Ace)`, with their errors ignored. */
  function EuchreOptions(options: seq<DeckOption>): seq<DeckOption>
  {
    options + [Range(Nine, Ace)]
  }

  /** The client's options: `PreShuffled` on a zero deck gives seed 0, a nil table, Nine..Ace and the pre-shuffle flag. */
  lemma PreShuffledEuchreSettings(options: seq<DeckOption>)
    requires options == [PreShuffled]
    ensures SafeIgnoring(ZeroSettings, EuchreOptions(options))
    ensures ApplyIgnoringErrors(ZeroSettings, EuchreOptions(options))
              == DeckSettings(0, Option.None, (Nine, Ace), true)
  {
    var opts := EuchreOptions(options);
    assert opts == [PreShuffled, Range(Nine, Ace)];
    assert opts[..1] == options && options[..0] == [];
    assert ApplyIgnoringErrors(ZeroSettings, options) == ZeroSettings.(preShuffled := true);
  }

  /** The trailing `Range(Nine, Ace)` always succeeds, so the euchre range always wins. */
  lemma EuchreRangeWins(options: seq<DeckOption>)
    requires SafeIgnoring(ZeroSettings, EuchreOptions(options))
    ensures ApplyIgnoringErrors(ZeroSettings, EuchreOptions(options)).deckRange == (Nine, Ace)
  {
    assert EuchreOptions(options)[..|EuchreOptions(options)| - 1] == options;
  }

  lemma {:induction false} PrefixSafeIgnoring(c: DeckSettings, all: seq<DeckOption>, k: nat)
    requires k <= |all| && SafeIgnoring(c, all)
    ensures SafeIgnoring(c, all[..k])
    decreases |all| - k
  {
    if k < |all| {
      var init := all[..|all| - 1];
      assert init[..k] == all[..k];
      PrefixSafeIgnoring(c, init, k);
    } else {
      assert all[..k] == all;
    }
  }

  /** Runs every option on a zero deck, ignoring errors. */
  method ApplyIgnoring(d: Deck, opts: seq<DeckOption>)
    requires SafeIgnoring(d.Settings(), opts)
    modifies d
    ensures d.Settings() == ApplyIgnoringErrors(old(d.Settings()), opts)
    ensures d.cards == old(d.cards)
  {
    ghost var start := d.Settings();
    for i := 0 to |opts|
      invariant d.cards == old(d.cards)
      invariant SafeIgnoring(start, opts[..i])
      invariant d.Settings() == ApplyIgnoringErrors(start, opts[..i])
    {
      assert opts[..i + 1][..i] == opts[..i];
      PrefixSafeIgnoring(start, opts, i + 1);
      var _ := d.Apply(opts[i]);
    }
    assert opts[..|opts|] == opts;
  }

  /** The euchre range populates to the 24 euchre cards. */
  lemma EuchreCards(lo: Rank, hi: Rank)
    requires lo == Nine && hi == Ace
    ensures |Populated(lo, hi)| == 24
    ensures forall c :: c in Populated(lo, hi) <==> IsEuchreCard(c)
  {
    StandardSizes();
    PopulatedContents(lo, hi);
  }

  /**
   * `NewEuchreDeck` as written: it applies the options and the euchre range
   * to a zero deck but never populates it, so the deck it returns is empty.
   */
  method NewEuchreDeck(options: seq<DeckOption>) returns (d: Deck)
    requires SafeIgnoring(ZeroSettings, EuchreOptions(options))
    ensures fresh(d)
    ensures d.Settings() == ApplyIgnoringErrors(ZeroSettings, EuchreOptions(options))
    ensures d.deckRange == (Nine, Ace)
    ensures d.cards == []
  {
    d := new Deck();
    ApplyIgnoring(d, EuchreOptions(options));
    EuchreRangeWins(options);
  }

  /** The step `NewEuchreDeck` leaves out: populate the empty deck, then shuffle it when the options asked for that. */
  method PopulateEuchre(d: Deck, rng: Rng)
    requires ValidRng(rng) && d.cards == []
    modifies d`cards
    ensures var block := Populated(d.deckRange.0, d.deckRange.1);
            d.cards == if d.preShuffled then Shuffled(block, d.shuffleSeed, rng) else block
    ensures forall c :: c in d.cards <==> c in Populated(d.deckRange.0, d.deckRange.1)
    ensures |d.cards| == |Populated(d.deckRange.0, d.deckRange.1)|
  {
    ghost var block := Populated(d.deckRange.0, d.deckRange.1);
    d.Populate();
    assert d.cards == [] + block == block;
    if d.preShuffled {
      d.Shuffle(rng);
      ShuffledMembers(block, d.shuffleSeed, rng);
    }
  }

  /**
   * The evidently intended constructor: the same settings, populated with the
   * 24 euchre cards, and shuffled by the deck's seed when `PreShuffled` is
   * among the options, as `NewDeck` does.
   */
  method NewEuchreDeckPopulated(options: seq<DeckOption>, rng: Rng) returns (d: Deck)
    requires ValidRng(rng)
    requires SafeIgnoring(ZeroSettings, EuchreOptions(options))
    ensures fresh(d)
    ensures d.Settings() == ApplyIgnoringErrors(ZeroSettings, EuchreOptions(options))
    ensures d.deckRange == (Nine, Ace)
    ensures var euchre := Populated(d.deckRange.0, d.deckRange.1);
            d.cards == if d.preShuffled then Shuffled(euchre, d.shuffleSeed, rng) else euchre
    ensures |d.cards| == 24
    ensures forall c :: c in d.cards <==> IsEuchreCard(c)
  {
    d := NewEuchreDeck(options);
    PopulateEuchre(d, rng);
    EuchreCards(d.deckRange.0, d.deckRange.1);
  }
}
