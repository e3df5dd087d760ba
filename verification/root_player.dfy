/**
 * A player of the earliest revision (root `main` package): a hand, a trick
 * count and a score, with the follow-suit rule of that revision.
 */
module RootPlayer {
  import opened Base
  import opened RootCard

  /** A card of the led suit. */
  function LeadTest(lead: Suite): Card -> bool
  {
    (c: Card) => c.suite == lead
  }

  /** A trump-suit card or the left bower. */
  function TrumpTest(trump: Suite): Card -> bool
  {
    (c: Card) => c.suite == trump || IsLeftBauer(c, trump)
  }

  class Player {
    var hand: seq<Card>
    var tricks: int
    var score: int

    /** `InitPlayer`: an empty hand, no tricks, no score. */
    constructor InitPlayer()
      ensures hand == [] && tricks == 0 && score == 0
    {
      hand := [];
      tricks := 0;
      score := 0;
    }

    method GiveCards(cards: seq<Card>)
      modifies this`hand
      ensures hand == old(hand) + cards
    {
      hand := hand + cards;
    }

    /** Hands back a copy of the hand and empties it. */
    method ReturnCards() returns (cards: seq<Card>)
      modifies this`hand
      ensures cards == old(hand) && hand == []
    {
      cards := [] + hand;
      hand := hand[..0];
    }

    /**
     * `GetPlayableCards`: the cards of the led suit; failing those, the trump
     * cards and the left bower; failing those, the whole hand.
     */
    function GetPlayableCards(trump: Suite, lead: Suite): (r: seq<Card>)
      reads this
      ensures forall c :: c in r ==> c in hand
      ensures hand != [] ==> r != []
    {
      var follows := Filter(hand, LeadTest(lead));
      var trumps := Filter(hand, TrumpTest(trump));
      if follows != [] then follows
      else if trumps != [] then trumps
      else hand
    }
  }

  /** The playable cards keep hand order, and a non-empty hand always has one. */
  lemma PlayableWithinHand(p: Player, trump: Suite, lead: Suite)
    ensures Subsequence(p.GetPlayableCards(trump, lead), p.hand)
    ensures p.hand != [] ==> p.GetPlayableCards(trump, lead) != []
  {
    SubsequenceRefl(p.hand);
    FilterSubsequence(p.hand, LeadTest(lead));
    FilterSubsequence(p.hand, TrumpTest(trump));
  }

  /** Which cards are playable, stated card by card: the led suit first, then trump, then anything. */
  lemma PlayableCharacterisation(p: Player, trump: Suite, lead: Suite, c: Card)
    ensures c in p.GetPlayableCards(trump, lead) <==>
      c in p.hand &&
      (if exists f :: f in p.hand && f.suite == lead then c.suite == lead
       else if exists t :: t in p.hand && TrumpTest(trump)(t) then TrumpTest(trump)(c)
       else true)
  {
    var follows := Filter(p.hand, LeadTest(lead));
    var trumps := Filter(p.hand, TrumpTest(trump));
    assert follows != [] ==> follows[0] in p.hand && follows[0].suite == lead;
    assert trumps != [] ==> trumps[0] in p.hand && TrumpTest(trump)(trumps[0]);
    if exists f :: f in p.hand && f.suite == lead {
      var f :| f in p.hand && f.suite == lead;
      assert f in follows;
    }
    if exists t :: t in p.hand && TrumpTest(trump)(t) {
      var t :| t in p.hand && TrumpTest(trump)(t);
      assert t in trumps;
    }
  }
}
