/**
 * Cards of the earliest revision (root `main` package): a suit is a rune,
 * a rank an integer (NINE = 0 .. ACE = 5), and a card is scored against
 * trump and the led suit by `GetCardRanking`.
 */
module RootCard {

  /** `Suite` is a rune; the four named suits are their card symbols. */
  type Suite = char

  const DIAMOND: Suite := '♦'
  const CLUB: Suite := '♣'
  const HEART: Suite := '♥'
  const SPADE: Suite := '♠'

  /** `Rank` is an `int`; the six named ranks are 0..5. */
  type Rank = int

  const NINE: Rank := 0
  const TEN: Rank := 1
  const JACK: Rank := 2
  const QUEEN: Rank := 3
  const KING: Rank := 4
  const ACE: Rank := 5

  datatype Card = Card(rank: Rank, suite: Suite)

  /** One of the four named suits. */
  predicate IsSuite(s: Suite)
  {
    s == DIAMOND || s == CLUB || s == HEART || s == SPADE
  }

  /**
   * The `LeftBauerSuite` map: the other suit of the same colour. A rune with
   * no entry reads as the zero rune.
   */
  function LeftBauerSuite(s: Suite): (r: Suite)
    ensures IsSuite(s) <==> IsSuite(r)
    ensures IsSuite(s) ==> r != s
    ensures !IsSuite(s) ==> r == '\0'
  {
    if s == DIAMOND then HEART
    else if s == HEART then DIAMOND
    else if s == CLUB then SPADE
    else if s == SPADE then CLUB
    else '\0'
  }

  /** The pairing is an involution on the four suits: red with red, black with black. */
  lemma LeftBauerSuiteInvolution(s: Suite)
    requires IsSuite(s)
    ensures LeftBauerSuite(LeftBauerSuite(s)) == s
    ensures (s == DIAMOND || s == HEART) <==> (LeftBauerSuite(s) == DIAMOND || LeftBauerSuite(s) == HEART)
  {
  }

  predicate IsLeftBauer(c: Card, trump: Suite)
  {
    c.suite == LeftBauerSuite(trump) && c.rank == JACK
  }

  /**
   * `GetCardRanking`: 0 unless the printed suit is trump or lead; otherwise
   * 1, plus 10 for trump and 5 more for its jack, plus 14 for the left
   * bower, plus the rank.
   */
  function GetCardRanking(c: Card, trump: Suite, lead: Suite): (v: int)
    ensures c.suite != trump && c.suite != lead ==> v == 0
    ensures NINE <= c.rank && (c.suite == trump || c.suite == lead) ==> v >= 1
  {
    if c.suite != trump && c.suite != lead then 0
    else
      var trumpBonus := if c.suite == trump then 10 + (if c.rank == JACK then 5 else 0) else 0;
      var leftBonus := if IsLeftBauer(c, trump) then 14 else 0;
      1 + trumpBonus + leftBonus + c.rank
  }

  /**
   * The ranking table for a named trump suit: right bower 18, a led left
   * bower 17, trump 11..16, lead-suit cards 1..6.
   */
  lemma RankingTable(c: Card, trump: Suite, lead: Suite)
    requires IsSuite(trump) && NINE <= c.rank <= ACE
    ensures c == Card(JACK, trump) ==> GetCardRanking(c, trump, lead) == 18
    ensures IsLeftBauer(c, trump) && c.suite == lead ==> GetCardRanking(c, trump, lead) == 17
    ensures c.suite == trump && c.rank != JACK ==> GetCardRanking(c, trump, lead) == 11 + c.rank
    ensures c.suite == lead && c.suite != trump && !IsLeftBauer(c, trump) ==>
              GetCardRanking(c, trump, lead) == 1 + c.rank
  {
  }

  /** Every trump-suit card outranks every plain card of the led suit. */
  lemma TrumpBeatsLead(t: Card, l: Card, trump: Suite, lead: Suite)
    requires IsSuite(trump) && NINE <= t.rank <= ACE && NINE <= l.rank <= ACE
    requires t.suite == trump
    requires l.suite == lead && l.suite != trump && !IsLeftBauer(l, trump)
    ensures GetCardRanking(t, trump, lead) > GetCardRanking(l, trump, lead)
  {
    RankingTable(t, trump, lead);
    RankingTable(l, trump, lead);
  }

  /**
   * The left bower scores nothing whenever its printed suit is not the led
   * suit, so it loses even to the nine of trump when trump is led.
   */
  lemma LeftBauerScoresZeroOffLead(trump: Suite, lead: Suite)
    requires IsSuite(trump) && lead != LeftBauerSuite(trump)
    ensures GetCardRanking(Card(JACK, LeftBauerSuite(trump)), trump, lead) == 0
    ensures GetCardRanking(Card(NINE, trump), trump, lead) == 11
  {
  }

  /** `IsCardEqual`: positive, zero or negative as `c1` ranks above, level with or below `c2`. */
  function IsCardEqual(c1: Card, c2: Card, trump: Suite, lead: Suite): (d: int)
    ensures d > 0 <==> GetCardRanking(c1, trump, lead) > GetCardRanking(c2, trump, lead)
    ensures d == 0 <==> GetCardRanking(c1, trump, lead) == GetCardRanking(c2, trump, lead)
  {
    GetCardRanking(c1, trump, lead) - GetCardRanking(c2, trump, lead)
  }

  /** Swapping the arguments negates the comparison, and two off-suit cards compare equal. */
  lemma IsCardEqualAntisymmetric(c1: Card, c2: Card, trump: Suite, lead: Suite)
    ensures IsCardEqual(c1, c2, trump, lead) == -IsCardEqual(c2, c1, trump, lead)
    ensures c1.suite != trump && c1.suite != lead && c2.suite != trump && c2.suite != lead ==>
              IsCardEqual(c1, c2, trump, lead) == 0
  {
  }
}
