/**
 * The game board of the intermediate revision (`game` package): the deck,
 * four seats, dealer and turn indices, the turned card, the cards played to
 * the current trick, trump, who ordered it up, a log and a seed.
 */
module GameBoard {
  import opened Base
  import opened GodeckSuit
  import opened GodeckCard
  import GodeckDeck
  import GamePlayer

  /** The seat after `i`, with Go's truncating `%`. */
  function NextSeat(i: int): (j: int)
    ensures 0 <= i ==> 0 <= j < 4
    ensures 0 <= i < 3 ==> j == i + 1
    ensures i == 3 ==> j == 0
  {
    GoRem(i + 1, 4)
  }

  /** Four turns bring the seat back to where it started. */
  lemma FourTurnsReturn(i: int)
    requires 0 <= i < 4
    ensures NextSeat(NextSeat(NextSeat(NextSeat(i)))) == i
  {
  }

  class Board {
    var deck: GodeckDeck.Deck?
    var players: seq<GamePlayer.Player>
    var dealerIndex: int
    var playerIndex: int
    var turnedCard: Card
    var playedCards: seq<Card>
    var trump: Suit
    var orderedPlayerIndex: int
    var logs: seq<string>
    var randSeed: int

    /** `NewGameBoard`: no deck yet, four fresh players named "Player 1".."Player 4", nothing ordered or played. */
    constructor NewGameBoard()
      ensures deck == null
      ensures |players| == 4 && forall i :: 0 <= i < 4 ==> fresh(players[i]) && players[i].hand == []
      ensures players[0].name == "Player 1" && players[1].name == "Player 2"
      ensures players[2].name == "Player 3" && players[3].name == "Player 4"
      ensures dealerIndex == 0 && playerIndex == 0 && orderedPlayerIndex == -1
      ensures turnedCard == EmptyCard() && trump == Suit.None
      ensures playedCards == [] && logs == [] && randSeed == 1
    {
      var p1 := new GamePlayer.Player.InitPlayer("Player 1");
      var p2 := new GamePlayer.Player.InitPlayer("Player 2");
      var p3 := new GamePlayer.Player.InitPlayer("Player 3");
      var p4 := new GamePlayer.Player.InitPlayer("Player 4");
      deck := null;
      players := [p1, p2, p3, p4];
      dealerIndex := 0;
      playerIndex := 0;
      turnedCard := EmptyCard();
      playedCards := [];
      trump := Suit.None;
      orderedPlayerIndex := -1;
      logs := [];
      randSeed := 1;
    }

    /** Records the format string; the arguments are dropped. */
    method Log(format: string)
      modifies this`logs
      ensures logs == old(logs) + [format]
    {
      logs := logs + [format];
    }

    method PlayCard(card: Card)
      modifies this`playedCards
      ensures playedCards == old(playedCards) + [card]
    {
      playedCards := playedCards + [card];
    }

    /** Moves every played card onto the deck, in order, and clears the trick (a nil deck panics). */
    method ReturnPlayedCards()
      requires deck != null
      modifies this`playedCards, deck`cards
      ensures deck.cards == old(deck.cards) + old(playedCards)
      ensures playedCards == []
      ensures |deck.cards| + |playedCards| == old(|deck.cards| + |playedCards|)
    {
      deck.ReturnCards(playedCards);
      playedCards := playedCards[..0];
    }

    method NextPlayer()
      modifies this`playerIndex
      ensures playerIndex == NextSeat(old(playerIndex))
    {
      playerIndex := GoRem(playerIndex + 1, 4);
    }
  }
}
