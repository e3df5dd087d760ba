/**
 * The command-line client's game state and its command interpreter
 * (`cmd/cli`): one word of input moves cards between a euchre deck, the
 * player's hand and the turned card, advances the turn, or toggles the
 * connection, and every command reports through a status line.
 */
module Cli {
  import opened Base
  import opened GodeckRank
  import opened GodeckSuit
  import opened GodeckCard
  import opened GodeckDeck
  import GodeckEuchre

  /** The status line: whether it reports an error, and its text. */
  datatype GameStatus = GameStatus(isErr: bool, msg: string)

  /** The most cards `hit` lets the hand hold. */
  const MaxHand := 5

  /**
   * The client's deck, `NewEuchreDeck(PreShuffled())` in its corrected form:
   * a zero deck's seed (0), no rank-value table, the range Nine..Ace, and the
   * 24 euchre cards in the order that seed gives them.
   */
  ghost predicate ClientDeck(d: Deck, rng: Rng)
    reads d
  {
    && ValidRng(rng)
    && d.Settings() == DeckSettings(0, Option.None, (Nine, Ace), true)
    && d.cards == Shuffled(Populated(d.deckRange.0, d.deckRange.1), d.shuffleSeed, rng)
    && forall c :: c in d.cards <==> GodeckEuchre.IsEuchreCard(c)
  }

  /** The client's deck holds 24 cards. */
  lemma ClientDeckSize(d: Deck, rng: Rng)
    requires ClientDeck(d, rng)
    ensures |d.cards| == 24
  {
    GodeckEuchre.EuchreCards(d.deckRange.0, d.deckRange.1);
  }

  /** Builds the client's deck. */
  method NewClientDeck(rng: Rng) returns (d: Deck)
    requires ValidRng(rng)
    ensures fresh(d) && ClientDeck(d, rng)
  {
    var options := [PreShuffled];
    GodeckEuchre.PreShuffledEuchreSettings(options);
    d := GodeckEuchre.NewEuchreDeckPopulated(options, rng);
  }

  class GameState {
    var connected: bool
    var playerTurn: int
    var myIndex: int
    var hand: seq<Card>
    var status: GameStatus
    var deck: Deck
    var turnedCard: Card
    var playedCards: seq<Card>
    var players: seq<string>

    /** The hand never exceeds `MaxHand` cards. */
    predicate Valid()
      reads this
    {
      |hand| <= MaxHand
    }

    /**
     * `NewGameState`: disconnected, turn 0, seat 0, an empty hand, a waiting
     * status and a fresh client deck (`ClientDeck`).
     */
    constructor NewGameState(rng: Rng)
      requires ValidRng(rng)
      ensures Valid()
      ensures !connected && playerTurn == 0 && myIndex == 0 && hand == []
      ensures status == GameStatus(false, "Waiting for player...")
      ensures fresh(deck) && ClientDeck(deck, rng)
      ensures turnedCard == EmptyCard() && playedCards == []
      ensures players == ["Abby", "Mike", "Michael", "Dolores"]
    {
      var d := NewClientDeck(rng);
      connected := false;
      playerTurn := 0;
      status := GameStatus(false, "Waiting for player...");
      hand := [];
      deck := d;
      turnedCard := EmptyCard();
      playedCards := [];
      players := ["Abby", "Mike", "Michael", "Dolores"];
      myIndex := 0;
    }

    /** All the cards the player can account for: hand and deck together. */
    function Held(): (m: multiset<Card>)
      reads this, deck
      ensures |m| == |hand| + |deck.cards|
    {
      multiset(hand) + multiset(deck.cards)
    }

    /** The `hit` command: the top of the deck goes to the end of a hand of fewer than five cards. */
    method Hit()
      requires Valid()
      modifies this`hand, this`status, deck`cards
      ensures Valid() && Held() == old(Held())
      ensures if |old(hand)| >= MaxHand then
          status == GameStatus(true, "Can only have 5 cards at a time.") &&
          hand == old(hand) && deck.cards == old(deck.cards)
        else if old(deck.cards) == [] then
          status == GameStatus(true, NoCardsLeft) && hand == old(hand) && deck.cards == old(deck.cards)
        else
          var top := old(deck.cards)[|old(deck.cards)| - 1];
          hand == old(hand) + [top] && deck.cards == old(deck.cards)[..|old(deck.cards)| - 1] &&
          status == GameStatus(false, "Drew the " + CardString(top))
    {
      if |hand| >= MaxHand {
        status := GameStatus(true, "Can only have 5 cards at a time.");
        return;
      }
      ghost var before := deck.cards;
      var c, err := deck.DrawCard();
      if err.Some? {
        status := GameStatus(true, err.value);
        return;
      }
      hand := hand + [c];
      status := GameStatus(false, "Drew the " + CardString(c));
      assert before == deck.cards + [c];
    }

    /** The `play` command: the last card of the hand goes back on top of the deck. */
    method Play()
      requires Valid()
      modifies this`hand, this`status, deck`cards
      ensures Valid() && Held() == old(Held())
      ensures if old(hand) == [] then
          status == GameStatus(true, "Out of cards to play!") &&
          hand == old(hand) && deck.cards == old(deck.cards)
        else
          var last := old(hand)[|old(hand)| - 1];
          hand == old(hand)[..|old(hand)| - 1] && deck.cards == old(deck.cards) + [last] &&
          status == GameStatus(false, "Played the " + CardString(last))
    {
      if |hand| <= 0 {
        status := GameStatus(true, "Out of cards to play!");
        return;
      }
      var c := hand[|hand| - 1];
      assert hand == hand[..|hand| - 1] + [c];
      hand := hand[..|hand| - 1];
      deck.ReturnCard(c);
      status := GameStatus(false, "Played the " + CardString(c));
    }

    /** The `trump` command: the top of the deck becomes the turned card. */
    method TurnTrump()
      modifies this`turnedCard, this`status, deck`cards
      ensures if old(deck.cards) == [] then
          status == GameStatus(true, NoCardsLeft) && deck.cards == old(deck.cards) &&
          turnedCard == old(turnedCard)
        else
          var top := old(deck.cards)[|old(deck.cards)| - 1];
          turnedCard == top && deck.cards == old(deck.cards)[..|old(deck.cards)| - 1] &&
          status == GameStatus(false, CardString(top) + " was turned!")
    {
      var c, err := deck.DrawCard();
      if err.Some? {
        status := GameStatus(true, err.value);
        return;
      }
      turnedCard := c;
      status := GameStatus(false, CardString(c) + " was turned!");
    }

    /**
     * `handleInput`: `hit`, `play` and `trump` as above, `next` passes the
     * turn, `connect`/`disconnect` set the connection, and anything else is
     * an error. Except for `trump`, no command creates or loses a card.
     */
    method HandleInput(input: string)
      requires Valid()
      modifies this, deck`cards
      ensures Valid()
      ensures deck == old(deck) && myIndex == old(myIndex) && playedCards == old(playedCards)
      ensures deck.Settings() == old(deck.Settings())
      ensures players == old(players)
      ensures input != "trump" ==> Held() == old(Held()) && turnedCard == old(turnedCard)
      ensures input != "next" ==> playerTurn == old(playerTurn)
      ensures input != "connect" && input != "disconnect" ==> connected == old(connected)
      ensures input == "connect" || input == "disconnect" ==>
        connected == (input == "connect") && status == GameStatus(false, "") &&
        hand == old(hand) && deck.cards == old(deck.cards)
      ensures input == "hit" ==>
        if |old(hand)| >= MaxHand then
          status == GameStatus(true, "Can only have 5 cards at a time.") &&
          hand == old(hand) && deck.cards == old(deck.cards)
        else if old(deck.cards) == [] then
          status == GameStatus(true, NoCardsLeft) && hand == old(hand) && deck.cards == old(deck.cards)
        else
          var top := old(deck.cards)[|old(deck.cards)| - 1];
          hand == old(hand) + [top] && deck.cards == old(deck.cards)[..|old(deck.cards)| - 1] &&
          status == GameStatus(false, "Drew the " + CardString(top))
      ensures input == "play" ==>
        if old(hand) == [] then
          status == GameStatus(true, "Out of cards to play!") &&
          hand == old(hand) && deck.cards == old(deck.cards)
        else
          var last := old(hand)[|old(hand)| - 1];
          hand == old(hand)[..|old(hand)| - 1] && deck.cards == old(deck.cards) + [last] &&
          status == GameStatus(false, "Played the " + CardString(last))
      ensures input == "trump" ==>
        hand == old(hand) &&
        if old(deck.cards) == [] then
          status == GameStatus(true, NoCardsLeft) && deck.cards == old(deck.cards) &&
          turnedCard == old(turnedCard)
        else
          var top := old(deck.cards)[|old(deck.cards)| - 1];
          turnedCard == top && deck.cards == old(deck.cards)[..|old(deck.cards)| - 1] &&
          status == GameStatus(false, CardString(top) + " was turned!")
      ensures input == "next" ==>
        playerTurn == GoRem(old(playerTurn) + 1, 4) && status == old(status) &&
        hand == old(hand) && deck.cards == old(deck.cards)
      ensures input !in {"connect", "disconnect", "hit", "play", "trump", "next"} ==>
        status == GameStatus(true, "invalid input") && hand == old(hand) && deck.cards == old(deck.cards)
    {
      if input == "connect" {
        connected := true;
        status := GameStatus(false, "");
      } else if input == "disconnect" {
        connected := false;
        status := GameStatus(false, "");
      } else if input == "hit" {
        Hit();
      } else if input == "play" {
        Play();
      } else if input == "trump" {
        TurnTrump();
      } else if input == "next" {
        playerTurn := playerTurn + 1;
        playerTurn := GoRem(playerTurn, 4);
      } else {
        status := GameStatus(true, "invalid input");
      }
    }
  }
}
