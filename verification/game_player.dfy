/**
 * A player of the intermediate revision (`game` package): a hand of card
 * pointers, a trick count, a score and a name.
 */
module GamePlayer {
  import opened Base
  import opened GameCard

  class Player {
    var hand: seq<CardRef>
    var tricks: int
    var score: int
    var name: string

    /** `InitPlayer`: an empty hand, no tricks, no score. */
    constructor InitPlayer(name: string)
      ensures hand == [] && tricks == 0 && score == 0 && this.name == name
    {
      hand := [];
      tricks := 0;
      score := 0;
      this.name := name;
    }

    method GiveCards(cards: seq<CardRef>)
      modifies this`hand
      ensures hand == old(hand) + cards
    {
      hand := hand + cards;
    }

    /** Hands back a copy of the hand and empties it. */
    method ReturnCards() returns (cards: seq<CardRef>)
      modifies this`hand
      ensures cards == old(hand) && hand == []
    {
      cards := [] + hand;
      hand := hand[..0];
    }

    /**
     * `GetPlayableCards`: the cards whose printed suit is the led suit;
     * failing those, the trump cards and the left bower; failing those, the
     * whole hand.
     */
    function GetPlayableCards(trump: Suite, lead: Suite): (r: seq<CardRef>)
      reads this, hand
      ensures forall c :: c in r ==> c in hand
      ensures hand != [] ==> r != []
    {
      var follows := Select(hand, SuiteTest(lead));
      var trumps := Select(hand, TrumpTest(trump));
      if follows != [] then follows
      else if trumps != [] then trumps
      else hand
    }
  }

  /** The playable cards are a subsequence of the hand, and a non-empty hand always has one. */
  lemma PlayableWithinHand(p: Player, trump: Suite, lead: Suite)
    ensures Subsequence(p.GetPlayableCards(trump, lead), p.hand)
    ensures p.hand != [] ==> p.GetPlayableCards(trump, lead) != []
  {
    SubsequenceRefl(p.hand);
    SelectSubsequence(p.hand, SuiteTest(lead));
    SelectSubsequence(p.hand, TrumpTest(trump));
  }

  /** Which cards are playable, stated card by card: the led suit first, then trump, then anything. */
  lemma PlayableCharacterisation(p: Player, trump: Suite, lead: Suite, c: CardRef)
    ensures c in p.GetPlayableCards(trump, lead) <==>
      c in p.hand &&
      (if exists f :: f in p.hand && f.card.suite == lead then c.card.suite == lead
       else if exists t :: t in p.hand && TrumpTest(trump)(t.card) then TrumpTest(trump)(c.card)
       else true)
  {
    var follows := Select(p.hand, SuiteTest(lead));
    var trumps := Select(p.hand, TrumpTest(trump));
    assert follows != [] ==> follows[0] in p.hand && follows[0].card.suite == lead;
    assert trumps != [] ==> trumps[0] in p.hand && TrumpTest(trump)(trumps[0].card);
    if exists f :: f in p.hand && f.card.suite == lead {
      var f :| f in p.hand && f.card.suite == lead;
      assert f in follows;
    }
    if exists t :: t in p.hand && TrumpTest(trump)(t.card) {
      var t :| t in p.hand && TrumpTest(trump)(t.card);
      assert t in trumps;
    }
  }
}
