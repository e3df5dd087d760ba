/**
 * Cards of the intermediate revision (`game` package). Suits run NONE=0,
 * DIAMOND=1, CLUB=2, HEART=3, SPADE=4 and ranks NINE=0 .. ACE=5. Hands and
 * decks hold pointers to cards, modelled as `CardRef` objects around a
 * `Card` value; `GetWinningCard` takes the values themselves.
 */
module GameCard {
  import opened Base

  datatype Suite = NONE | DIAMOND | CLUB | HEART | SPADE

  datatype Rank = NINE | TEN | JACK | QUEEN | KING | ACE

  /** The integer value Go gives each suit constant. */
  function SuiteOrdinal(s: Suite): (n: nat)
    ensures n <= 4
    ensures n == 0 <==> s == NONE
  {
    match s
    case NONE => 0
    case DIAMOND => 1
    case CLUB => 2
    case HEART => 3
    case SPADE => 4
  }

  /** The integer value Go gives each rank constant. */
  function RankOrdinal(r: Rank): (n: nat)
    ensures n <= 5
  {
    match r
    case NINE => 0
    case TEN => 1
    case JACK => 2
    case QUEEN => 3
    case KING => 4
    case ACE => 5
  }

  /** Parses a one-letter suit; anything else is NONE. */
  function SuiteFromChar(s: string): (r: Suite)
    ensures r != NONE <==> s in {"h", "d", "c", "s"}
    ensures r != NONE ==> s[0] == SuiteLetter(r)
  {
    if s == "h" then HEART
    else if s == "d" then DIAMOND
    else if s == "c" then CLUB
    else if s == "s" then SPADE
    else NONE
  }

  /** The letter `SuiteFromChar` accepts for each playing suit. */
  function SuiteLetter(s: Suite): char
    requires s != NONE
  {
    match s
    case HEART => 'h'
    case DIAMOND => 'd'
    case CLUB => 'c'
    case SPADE => 's'
  }

  /** Every playing suit is parsed back from its letter. */
  lemma SuiteFromCharRoundTrip(s: Suite)
    requires s != NONE
    ensures SuiteFromChar([SuiteLetter(s)]) == s
  {
  }

  /** Suit for a deck block: 0..3 are DIAMOND, CLUB, HEART, SPADE (any other value panics). */
  function IntToSuite(i: int): (s: Suite)
    requires 0 <= i < 4
    ensures SuiteOrdinal(s) == i + 1
  {
    if i == 0 then DIAMOND else if i == 1 then CLUB else if i == 2 then HEART else SPADE
  }

  /** Rank for a deck position: 0..5 are NINE .. ACE (any other value panics). */
  function IntToRank(i: int): (r: Rank)
    requires 0 <= i < 6
    ensures RankOrdinal(r) == i
  {
    [NINE, TEN, JACK, QUEEN, KING, ACE][i]
  }

  lemma IntToSuiteRoundTrip(s: Suite)
    requires s != NONE
    ensures IntToSuite(SuiteOrdinal(s) - 1) == s
  {
  }

  lemma IntToRankRoundTrip(r: Rank)
    ensures IntToRank(RankOrdinal(r)) == r
  {
  }

  /** The `LeftBauerSuite` table; NONE has no entry and reads as NONE. */
  function LeftBauerSuite(s: Suite): (r: Suite)
    ensures s == NONE <==> r == NONE
    ensures s != NONE ==> r != s
  {
    match s
    case DIAMOND => HEART
    case HEART => DIAMOND
    case CLUB => SPADE
    case SPADE => CLUB
    case NONE => NONE
  }

  lemma LeftBauerSuiteInvolution(s: Suite)
    ensures LeftBauerSuite(LeftBauerSuite(s)) == s
  {
  }

  datatype Card = Card(rank: Rank, suite: Suite)

  /** A `*Card`: the value behind a pointer that hands and decks share. */
  class CardRef {
    var card: Card

    constructor (c: Card)
      ensures card == c
    {
      card := c;
    }
  }

  predicate IsLeftBauer(c: Card, trump: Suite)
  {
    c.suite == LeftBauerSuite(trump) && c.rank == JACK
  }

  /**
   * `GetPlayValue`: 0 unless the printed suit is trump or lead; trump adds
   * 10 and the right bower 5 more; the left bower adds 14; then the rank.
   */
  function PlayValue(c: Card, trump: Suite, lead: Suite): (v: int)
    ensures v >= 0
    ensures v == 0 <==> c.suite != trump && c.suite != lead
  {
    if c.suite != trump && c.suite != lead then 0
    else
      var trumpBonus := if c.suite == trump then 10 + (if c.rank == JACK then 5 else 0) else 0;
      var leftBonus := if IsLeftBauer(c, trump) then 10 + 4 else 0;
      1 + trumpBonus + leftBonus + RankOrdinal(c.rank)
  }

  /** The values by role: right bower 18, left bower 17 when its suit was led, trump 11..16, lead 1..6. */
  lemma {:induction false} PlayValueTable(c: Card, trump: Suite, lead: Suite)
    requires trump != NONE
    ensures c == Card(JACK, trump) ==> PlayValue(c, trump, lead) == 18
    ensures IsLeftBauer(c, trump) && c.suite == lead ==> PlayValue(c, trump, lead) == 17
    ensures c.suite == trump && c.rank != JACK ==> PlayValue(c, trump, lead) == 11 + RankOrdinal(c.rank)
    ensures c.suite == lead && c.suite != trump && !IsLeftBauer(c, trump) ==>
              PlayValue(c, trump, lead) == 1 + RankOrdinal(c.rank)
  {
  }

  /**
   * The left bower counts only when its printed suit is the led suit: with
   * any other lead, trump led included, it scores 0 and loses even to the
   * nine of trump.
   */
  lemma LeftBauerScoresZeroOffLead(trump: Suite, lead: Suite)
    requires trump != NONE && lead != LeftBauerSuite(trump)
    ensures PlayValue(Card(JACK, LeftBauerSuite(trump)), trump, lead) == 0
    ensures PlayValue(Card(NINE, trump), trump, lead) == 11
  {
  }

  /** `compare`: positive when `c` beats `c2`, zero on a tie. */
  function Compare(c: Card, c2: Card, trump: Suite, lead: Suite): (d: int)
    ensures d > 0 <==> PlayValue(c, trump, lead) > PlayValue(c2, trump, lead)
    ensures d == 0 <==> PlayValue(c, trump, lead) == PlayValue(c2, trump, lead)
  {
    PlayValue(c, trump, lead) - PlayValue(c2, trump, lead)
  }

  lemma CompareAntisymmetric(c: Card, c2: Card, trump: Suite, lead: Suite)
    ensures Compare(c, c2, trump, lead) == -Compare(c2, c, trump, lead)
    ensures c.suite != trump && c.suite != lead && c2.suite != trump && c2.suite != lead ==>
              Compare(c, c2, trump, lead) == 0
  {
  }

  function ValueUnder(trump: Suite, lead: Suite): Card -> int
  {
    c => PlayValue(c, trump, lead)
  }

  /** A positive comparison means a strictly greater value under the trick's value function. */
  lemma CompareBeats(c: Card, w: Card, trump: Suite, lead: Suite)
    ensures Compare(c, w, trump, lead) > 0 <==> ValueUnder(trump, lead)(c) > ValueUnder(trump, lead)(w)
  {
  }

  /** The first card of highest value among four played in order. */
  method GetWinningCard(c1: Card, c2: Card, c3: Card, c4: Card, trump: Suite, lead: Suite) returns (winner: Card)
    ensures var cs := [c1, c2, c3, c4];
            winner == cs[BestIndex(cs, ValueUnder(trump, lead))]
  {
    winner := c1;
    CompareBeats(c2, winner, trump, lead);
    if Compare(c2, winner, trump, lead) > 0 {
      winner := c2;
    }
    ghost var w2 := winner;
    CompareBeats(c3, winner, trump, lead);
    if Compare(c3, winner, trump, lead) > 0 {
      winner := c3;
    }
    ghost var w3 := winner;
    CompareBeats(c4, winner, trump, lead);
    if Compare(c4, winner, trump, lead) > 0 {
      winner := c4;
    }
    ScanOfFour(c1, c2, c3, c4, ValueUnder(trump, lead), w2, w3, winner);
  }

  /** The pointers of `hand` whose card satisfies `p`, in hand order. */
  function Select(hand: seq<CardRef>, p: Card -> bool): (r: seq<CardRef>)
    reads hand
    ensures |r| <= |hand|
    ensures forall i :: 0 <= i < |r| ==> r[i] in hand && p(r[i].card)
    ensures forall i :: 0 <= i < |hand| && p(hand[i].card) ==> hand[i] in r
  {
    if hand == [] then []
    else
      var init := hand[..|hand| - 1];
      assert hand == init + [hand[|hand| - 1]];
      Select(init, p) + (if p(hand[|hand| - 1].card) then [hand[|hand| - 1]] else [])
  }

  lemma {:induction false} SelectSubsequence(hand: seq<CardRef>, p: Card -> bool)
    ensures Subsequence(Select(hand, p), hand)
  {
    if hand != [] {
      var init := hand[..|hand| - 1];
      var x := hand[|hand| - 1];
      assert hand == init + [x];
      SelectSubsequence(init, p);
      assert hand[..|hand| - 1] == init;
      if !p(x.card) {
        var f := Select(init, p);
        assert Select(hand, p) == f;
        if f != [] {
          assert p(f[|f| - 1].card);
        }
      }
    }
  }

  lemma {:induction false} SelectSnoc(hand: seq<CardRef>, x: CardRef, p: Card -> bool)
    ensures Select(hand + [x], p) == Select(hand, p) + (if p(x.card) then [x] else [])
  {
    assert (hand + [x])[..|hand + [x]| - 1] == hand;
  }

  function TrumpTest(trump: Suite): Card -> bool
  {
    (c: Card) => c.suite == trump || IsLeftBauer(c, trump)
  }

  function SuiteTest(s: Suite): Card -> bool
  {
    (c: Card) => c.suite == s
  }

  /**
   * The playable pointers, read in the state after `GetPlayableCards` has
   * rewritten a led left bower's suit to trump: trump cards (with the left
   * bower) when trump was led and held; otherwise every card whose printed
   * suit is the led suit; otherwise the whole hand.
   */
  function Playable(hand: seq<CardRef>, trump: Suite, lead: CardRef?): seq<CardRef>
    reads hand, lead
  {
    if lead == null then hand
    else
      var trumps := Select(hand, TrumpTest(trump));
      var follows := Select(hand, SuiteTest(lead.card.suite));
      if lead.card.suite == trump && trumps != [] then trumps
      else if follows != [] then follows
      else hand
  }

  lemma PlayableWithinHand(hand: seq<CardRef>, trump: Suite, lead: CardRef?)
    ensures Subsequence(Playable(hand, trump, lead), hand)
    ensures hand != [] ==> Playable(hand, trump, lead) != []
  {
    SubsequenceRefl(hand);
    if lead != null {
      SelectSubsequence(hand, TrumpTest(trump));
      SelectSubsequence(hand, SuiteTest(lead.card.suite));
    }
  }

  /** When trump is led and held, exactly the trump cards and the left bower are playable. */
  lemma MustPlayTrump(hand: seq<CardRef>, trump: Suite, lead: CardRef, c: CardRef)
    requires lead.card.suite == trump
    requires exists t :: t in hand && TrumpTest(trump)(t.card)
    ensures c in Playable(hand, trump, lead) <==> c in hand && TrumpTest(trump)(c.card)
  {
    var t :| t in hand && TrumpTest(trump)(t.card);
    assert t in Select(hand, TrumpTest(trump));
  }

  /** Otherwise a hand holding the led suit must play it, judged by printed suit alone. */
  lemma MustFollowPrintedSuit(hand: seq<CardRef>, trump: Suite, lead: CardRef, c: CardRef)
    requires lead.card.suite != trump || forall t :: t in hand ==> !TrumpTest(trump)(t.card)
    requires exists f :: f in hand && f.card.suite == lead.card.suite
    ensures c in Playable(hand, trump, lead) <==> c in hand && c.card.suite == lead.card.suite
  {
    var f :| f in hand && f.card.suite == lead.card.suite;
    assert f in Select(hand, SuiteTest(lead.card.suite));
    var trumps := Select(hand, TrumpTest(trump));
    assert trumps != [] ==> trumps[0] in hand && TrumpTest(trump)(trumps[0].card);
  }

  /**
   * The left bower is taken for a card of its printed suit: with hearts
   * trump and the nine of diamonds led, a hand of the jack of diamonds and
   * the king of clubs may play only the jack, though it holds no diamond.
   */
  lemma LeftBauerFollowsPrintedSuit(jack: CardRef, king: CardRef, lead: CardRef)
    requires jack != king
    requires jack.card == Card(JACK, DIAMOND) && king.card == Card(KING, CLUB)
    requires lead.card == Card(NINE, DIAMOND)
    ensures Playable([jack, king], HEART, lead) == [jack]
  {
    var hand := [jack, king];
    assert hand[..1] == [jack] && hand[..1][..0] == [];
    assert Select(hand, SuiteTest(DIAMOND)) == [jack];
  }

  /** The trump pass: every trump card and left bower, in hand order. */
  method CollectTrump(hand: seq<CardRef>, trump: Suite) returns (playable: seq<CardRef>, hasTrumpCards: bool)
    ensures playable == Select(hand, TrumpTest(trump))
    ensures hasTrumpCards <==> playable != []
  {
    playable := [];
    hasTrumpCards := false;
    for i := 0 to |hand|
      invariant playable == Select(hand[..i], TrumpTest(trump))
      invariant hasTrumpCards <==> playable != []
    {
      SelectSnoc(hand[..i], hand[i], TrumpTest(trump));
      assert hand[..i + 1] == hand[..i] + [hand[i]];
      var c := hand[i];
      if c.card.suite == trump || (c.card.suite == LeftBauerSuite(trump) && c.card.rank == JACK) {
        playable := playable + [c];
        hasTrumpCards := true;
      }
    }
    assert hand[..|hand|] == hand;
  }

  /** The follow pass: every card whose printed suit is `ledSuit`, in hand order. */
  method CollectSuite(hand: seq<CardRef>, ledSuit: Suite) returns (playable: seq<CardRef>, hasLeadCards: bool)
    ensures playable == Select(hand, SuiteTest(ledSuit))
    ensures hasLeadCards <==> playable != []
  {
    playable := [];
    hasLeadCards := false;
    for i := 0 to |hand|
      invariant playable == Select(hand[..i], SuiteTest(ledSuit))
      invariant hasLeadCards <==> playable != []
    {
      SelectSnoc(hand[..i], hand[i], SuiteTest(ledSuit));
      assert hand[..i + 1] == hand[..i] + [hand[i]];
      if hand[i].card.suite == ledSuit {
        playable := playable + [hand[i]];
        hasLeadCards := true;
      }
    }
    assert hand[..|hand|] == hand;
  }

  /**
   * `GetPlayableCards`. A led left bower has its suit overwritten with trump
   * through the lead pointer, a change the caller sees afterwards.
   */
  method GetPlayableCards(hand: seq<CardRef>, trump: Suite, lead: CardRef?) returns (playable: seq<CardRef>)
    modifies lead
    ensures lead != null ==>
              lead.card == if IsLeftBauer(old(lead.card), trump) then old(lead.card).(suite := trump) else old(lead.card)
    ensures playable == Playable(hand, trump, lead)
  {
    if lead == null {
      return hand;
    }
    var leftBauerWasLed := lead.card.suite == LeftBauerSuite(trump) && lead.card.rank == JACK;
    if leftBauerWasLed {
      lead.card := lead.card.(suite := trump);
    }
    var trumpWasLed := lead.card.suite == trump || leftBauerWasLed;
    var hasTrumpCards := false;
    if trumpWasLed {
      playable, hasTrumpCards := CollectTrump(hand, trump);
      if hasTrumpCards {
        return playable;
      }
    }
    var hasLeadCards;
    playable, hasLeadCards := CollectSuite(hand, lead.card.suite);
    if !hasLeadCards && !hasTrumpCards {
      playable := playable + hand;
    }
  }

  /** Pointer identity against the playable cards (read after the lead rewrite). */
  method IsCardPlayable(card: CardRef, hand: seq<CardRef>, trump: Suite, lead: CardRef?) returns (b: bool)
    modifies lead
    ensures lead != null ==>
              lead.card == if IsLeftBauer(old(lead.card), trump) then old(lead.card).(suite := trump) else old(lead.card)
    ensures b <==> card in Playable(hand, trump, lead)
  {
    var playable := GetPlayableCards(hand, trump, lead);
    for i := 0 to |playable|
      invariant card !in playable[..i]
    {
      if playable[i] == card {
        return true;
      }
      assert playable[..i + 1] == playable[..i] + [playable[i]];
    }
    assert playable[..|playable|] == playable;
    return false;
  }
}
