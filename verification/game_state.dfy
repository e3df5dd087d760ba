/**
 * The dealer-selection state machine of the intermediate revision (`game`
 * package): the game is set up, then cards are drawn one at a time from a
 * shuffled deck until a jack appears; the seat count at that moment picks the
 * first dealer and the machine moves to its end state.
 */
module GameState {
  import opened Base
  import opened GameCard
  import opened GameDeck
  import GamePlayer

  /** The events that drive the machine; only a drawn card carries data. */
  datatype Event = EmptyEvent | DrawnCardEvent(drawnCard: CardRef) | DrawnJackEvent | EndGameEvent

  datatype StateName = Init | DetermineFirstDealer | DrawForJack | EndGame

  /** `GetName`: the name each state constructor stores. */
  function StateString(s: StateName): (name: string)
    ensures |name| >= 4
  {
    match s
    case Init => "INIT"
    case DetermineFirstDealer => "DETERMINE_FIRST_DEALER_STATE"
    case DrawForJack => "DRAW_FOR_JACK_STATE"
    case EndGame => "END_GAME_STATE"
  }

  lemma StateStringInjective(a: StateName, b: StateName)
    ensures StateString(a) == StateString(b) ==> a == b
  {
  }

  /**
   * `NextState` of each state: where the machine goes after a state has
   * produced `e`. The end state is absorbing, and the only way into it is a
   * drawn jack seen while determining the dealer.
   */
  function Transition(s: StateName, e: Event): (t: StateName)
    ensures s == EndGame ==> t == EndGame
    ensures t == EndGame <==> s == EndGame || (s == DetermineFirstDealer && e.DrawnJackEvent?)
    ensures s == Init ==> t == DetermineFirstDealer
    ensures t == DrawForJack ==> s == DetermineFirstDealer && (e.EmptyEvent? || e.DrawnCardEvent?)
  {
    match s
    case Init => DetermineFirstDealer
    case DetermineFirstDealer =>
      if e.EmptyEvent? || e.DrawnCardEvent? then DrawForJack
      else if e.DrawnJackEvent? then EndGame
      else DetermineFirstDealer
    case DrawForJack => DetermineFirstDealer
    case EndGame => EndGame
  }

  class Game {
    var deck: Deck?
    var players: seq<GamePlayer.Player>
    var currentTrump: Suite
    var playedCards: seq<CardRef>
    var dealerIndex: int
    var state: StateName

    /** A game before its first step: in the initial state, with nothing set up. */
    constructor NewGame()
      ensures state == Init && deck == null && players == [] && playedCards == []
      ensures currentTrump == NONE && dealerIndex == 0
    {
      deck := null;
      players := [];
      currentTrump := NONE;
      playedCards := [];
      dealerIndex := 0;
      state := Init;
    }

    /** The deck holds a jack. */
    ghost predicate HasJack()
      reads this, deck, if deck == null then [] else deck.cards
    {
      deck != null && exists i :: 0 <= i < |deck.cards| && deck.cards[i].card.rank == JACK
    }

    /**
     * What the machine needs before it acts on `event`: while looking for the
     * dealer there is a deck, and either it still holds a jack or `event` is
     * the jack just drawn.
     */
    ghost predicate Ready(event: Event)
      reads this, deck, if deck == null then [] else deck.cards
      reads if event.DrawnCardEvent? then {event.drawnCard} else {}
    {
      (state == DetermineFirstDealer ==>
        deck != null && (HasJack() || (event.DrawnCardEvent? && event.drawnCard.card.rank == JACK))) &&
      (state == DrawForJack ==> HasJack())
    }

    /** `DoState` of the current state; the state itself does not change here. */
    method DoState(event: Event, rng: Rng, now: int) returns (out: Event)
      requires ValidRng(rng)
      requires state == DetermineFirstDealer ==> deck != null
      requires state == DrawForJack ==> deck != null && |deck.cards| >= 1
      modifies this, deck
      ensures state == old(state)
      ensures old(state) == Init ==>
        deck != null && fresh(deck) && |deck.cards| == 24 && Values(deck.cards) == InitialCards() &&
        |players| == 4 && (forall i :: 0 <= i < 4 ==> fresh(players[i]) && players[i].hand == []) &&
        players[0].name == "Player 1" && players[1].name == "Player 2" &&
        players[2].name == "Player 3" && players[3].name == "Player 4" &&
        currentTrump == NONE && playedCards == [] && dealerIndex == 0 && out == EmptyEvent
      ensures old(state) == DetermineFirstDealer ==>
        deck == old(deck) && players == old(players) && currentTrump == old(currentTrump) &&
        if event.EmptyEvent? then
          deck.cards == ShuffledDown(old(deck.cards), now, rng) &&
          playedCards == old(playedCards) && dealerIndex == old(dealerIndex) && out == EmptyEvent
        else if event.DrawnCardEvent? then
          playedCards == old(playedCards) + [event.drawnCard] &&
          if event.drawnCard.card.rank == JACK then
            dealerIndex == |playedCards| % 4 && deck.cards == old(deck.cards) + playedCards &&
            out == DrawnJackEvent
          else
            dealerIndex == old(dealerIndex) && deck.cards == old(deck.cards) && out == event
        else
          deck.cards == old(deck.cards) && playedCards == old(playedCards) &&
          dealerIndex == old(dealerIndex) && out == EmptyEvent
      ensures old(state) == DrawForJack ==>
        deck == old(deck) && players == old(players) && currentTrump == old(currentTrump) &&
        playedCards == old(playedCards) && dealerIndex == old(dealerIndex) &&
        deck.cards == old(deck.cards)[..|old(deck.cards)| - 1] &&
        out == DrawnCardEvent(old(deck.cards)[|old(deck.cards)| - 1])
      ensures old(state) == EndGame ==>
        deck == old(deck) && (deck != null ==> deck.cards == old(deck.cards)) &&
        players == old(players) && currentTrump == old(currentTrump) &&
        playedCards == old(playedCards) && dealerIndex == old(dealerIndex) && out == EndGameEvent
    {
      if state == Init {
        deck := new Deck.InitDeck();
        var p1 := new GamePlayer.Player.InitPlayer("Player 1");
        var p2 := new GamePlayer.Player.InitPlayer("Player 2");
        var p3 := new GamePlayer.Player.InitPlayer("Player 3");
        var p4 := new GamePlayer.Player.InitPlayer("Player 4");
        players := [p1, p2, p3, p4];
        currentTrump := NONE;
        playedCards := [];
        dealerIndex := 0;
        out := EmptyEvent;
      } else if state == DetermineFirstDealer {
        out := EmptyEvent;
        if event.EmptyEvent? {
          deck.Shuffle(rng, now);
        } else if event.DrawnCardEvent? {
          playedCards := playedCards + [event.drawnCard];
          if event.drawnCard.card.rank == JACK {
            dealerIndex := |playedCards| % 4;
            deck.ReturnCards(playedCards);
            out := DrawnJackEvent;
          } else {
            out := event;
          }
        }
      } else if state == DrawForJack {
        var drawn := deck.DrawCards(1);
        out := DrawnCardEvent(drawn[0]);
      } else {
        out := EndGameEvent;
      }
    }

    /** `NextState` of the current state. */
    method NextState(event: Event)
      modifies this`state
      ensures state == Transition(old(state), event)
    {
      match state
      case Init =>
        state := DetermineFirstDealer;
      case DetermineFirstDealer =>
        if event.EmptyEvent? {
          state := DrawForJack;
        } else if event.DrawnCardEvent? {
          state := DrawForJack;
        } else if event.DrawnJackEvent? {
          state := EndGame;
        }
      case DrawForJack =>
        state := DetermineFirstDealer;
      case EndGame =>
        state := EndGame;
    }

    /**
     * One turn of the machine: act, then move on with the event produced.
     * `Ready` is kept, so the search for a jack never draws from an empty
     * deck, however long it runs.
     */
    method Step(event: Event, rng: Rng, now: int) returns (out: Event)
      requires ValidRng(rng) && Ready(event)
      modifies this, deck
      ensures Ready(out)
      ensures state == Transition(old(state), out)
    {
      ghost var before := if deck == null then [] else deck.cards;
      if state == DrawForJack {
        var i :| 0 <= i < |deck.cards| && deck.cards[i].card.rank == JACK;
      }
      out := DoState(event, rng, now);
      ghost var s := state;
      NextState(out);
      if s == Init {
        assert deck.cards[2].card == InitialCards()[2];
      } else if s == DetermineFirstDealer && event.EmptyEvent? {
        var i :| 0 <= i < |before| && before[i].card.rank == JACK;
        assert before[i] in multiset(before);
        assert before[i] in multiset(deck.cards);
        var j :| 0 <= j < |deck.cards| && deck.cards[j] == before[i];
      } else if s == DrawForJack {
        var i :| 0 <= i < |before| && before[i].card.rank == JACK;
        if out.drawnCard.card.rank != JACK {
          assert i < |before| - 1;
          assert deck.cards[i] == before[i];
        }
      }
    }
  }
}
