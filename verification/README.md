# Euchre engine (euchrego) in Dafny

This project models the rules core of the euchrego Euchre engine. The engine survives in three
revisions that disagree with each other, so each revision is a separate group of modules:

- **godeck** (latest): `GodeckSuit`, `GodeckRank` and `GodeckCard` hold the enumerations and the
  card value. `GodeckDeck` is the generic deck:
  - functional options (range, seed, rank-value table, ace high/low, pre-shuffle);
  - `NewDeck`, `populate`, the seeded swap shuffle;
  - drawing one or many cards, with rollback on shortage;
  - returning cards and the rank-value accessors.

  `GodeckEuchre` holds the euchre rules: the left bower, card values under trump and a led suit,
  the trick winner, the follow-suit rule and the euchre deck constructor.
- **game** (intermediate):
  - `GameCard`: pointer cards with their own ranking and legality rule.
  - `GameDeck`: the 24-card deck.
  - `GamePlayer`: a player's hand.
  - `GameBoard`: the board helpers.
  - `GameState`: the state machine that draws cards until a jack picks the first dealer.
- **root `main` package** (earliest): `RootCard` (ranking and comparison) and `RootPlayer` (the
  hand and its legality rule).
- **cmd/cli**: `Cli`, the client's game state and its one-word command interpreter.

`Base` holds the shared helpers:
- an `Option` type;
- sequence filtering, subsequences and reversal;
- the first-maximum index `BestIndex`;
- the random-source oracle `Rng`;
- Go's truncating `%` (`GoRem`);
- Go's `%d` formatting.

Go structs whose fields the source updates in place are classes: `GodeckDeck.Deck`,
`GameDeck.Deck`, the two `Player`s, `GameBoard.Board`, `GameState.Game` and `Cli.GameState`. Each
method's `ensures` gives the whole new state. Each of them is tied to a specification function
whose properties are proved as lemmas, or keeps a proved invariant:
- `GameState.Game.Step` keeps `Ready`, so the dealer search never draws from an empty deck.
- `Cli.GameState.HandleInput` keeps `Valid` (at most five cards in hand) and conserves the cards
  in hand and deck on every command except `trump`.

A `*Card` of the `game` package is the class `GameCard.CardRef`. That package compares cards by
pointer and writes through the lead pointer.

Randomness and time are parameters:
- `rand.Intn` is an oracle `Rng = (seed, call index, bound) -> nat`. The only thing assumed about
  it is Go's contract `0 <= Intn(n) < n`.
- `rand.Int63()` is drawn by the `RandomShuffleSeed` closure each time it runs. Here the drawn
  value is a parameter of the option, so applying one option value twice reuses it. The default
  seed of `NewDeck` is its `entropy` argument.
- `time.Now().UnixNano()` is the `now` argument of `GameDeck.Deck.Shuffle`.

Where the Go code panics (a write into a nil map, `pop` on an empty slice, a nil deck pointer),
the model has a `requires`.

Two behaviours of the code are worth knowing before reading the model:
- Euchre is played with 24 cards, and the CLI draws from the deck of `NewEuchreDeck`. That deck
  has no cards (see Findings).
- The CLI's `trump` command overwrites the previous turned card, so that card leaves play.

## Model

| member | source | states |
|---|---|---|
| GodeckSuit.SuitOrdinal | godeck/suit.go:5-11 | None is 0 and the playing suits are 1..4 |
| GodeckSuit.SuitFromOrdinal | godeck/suit.go:5-11 | inverse of the ordinal on 0..4 |
| GodeckSuit.SuitOrdinalRoundTrip | godeck/suit.go:5-11 | ordinal then back gives the same suit |
| GodeckSuit.RealSuitsContiguous | godeck/suit.go:5-11 | a suit other than None has an ordinal in Hearts..Spades |
| GodeckSuit.SuitString | godeck/suit.go:13-19 | every suit, None included, has a name |
| GodeckSuit.SuitStringInjective | godeck/suit.go:29-31 | distinct suits have distinct names |
| GodeckSuit.SuitSymbol | godeck/suit.go:21-27 | the symbols ♥ ♦ ♣ ♠, and "N" for None |
| GodeckSuit.SuitSymbolInjective | godeck/suit.go:33-35 | distinct suits have distinct symbols |
| GodeckRank.RankOrdinal | godeck/rank.go:5-20 | Null = 0 up to Ace = 13 |
| GodeckRank.RankFromOrdinal | godeck/rank.go:5-20 | inverse of the ordinal on 0..13 |
| GodeckRank.RankOrdinalRoundTrip | godeck/rank.go:5-20 | ordinal then back gives the same rank |
| GodeckRank.RankOrdinalInjective | godeck/rank.go:5-20 | distinct ranks have distinct ordinals |
| GodeckRank.NullIsLowest | godeck/rank.go:6 | Null is below every real rank; Nine..Ace are six consecutive ordinals |
| GodeckRank.DefaultRankValue | godeck/rank.go:56-71 | the default table covers every rank: Null 0, otherwise ordinal + 1 (2..14) |
| GodeckRank.RankString | godeck/rank.go:22-37 | every rank has a name of at least three letters without spaces |
| GodeckRank.RankStringInjective | godeck/rank.go:73-76 | distinct ranks have distinct names |
| GodeckRank.RankSymbol | godeck/rank.go:39-54 | one character, except Ten's two-character "10" |
| GodeckRank.RankSymbolInjective | godeck/rank.go:78-81 | distinct ranks have distinct symbols |
| GodeckCard.EmptyCard | godeck/card.go:8-10 | the sentinel card is rank Null of suit None |
| GodeckCard.NewCard | godeck/card.go:12-22 | the accessors return the rank and suit the card was built from |
| GodeckCard.EmptyCardIsSentinel | godeck/card.go:3-14 | a built card equals the sentinel exactly when its rank is Null and its suit None |
| GodeckCard.CardStringInjective | godeck/card.go:24-26 | "rank of suit" names distinct cards distinctly |
| GodeckDeck.ApplyOption | godeck/deck.go:26-86 | an option fails exactly when it is a reversed Range, with that message and the settings untouched |
| GodeckDeck.AllocatedTableIsSafe | godeck/deck.go:52-78 | once a table is allocated, no option writes into a nil map |
| GodeckDeck.DefaultSettings | godeck/deck.go:88-92 | the defaults give range Two..Ace, the default table with Ace 14 and a random seed; the caller's options then apply on top |
| GodeckDeck.ApplyAll | godeck/deck.go:93-98 | the only error the options can return is the reversed-range message, and an allocated rank-value table stays allocated |
| GodeckDeck.DefaultsThen | godeck/deck.go:92-98 | running defaults and then options equals running the options on the default settings |
| GodeckDeck.FailsIffReversedRange | godeck/deck.go:93-98 | NewDeck's options fail exactly when some option is a reversed Range, and the error is its message |
| GodeckDeck.LaterOptionWins | godeck/deck.go:93-98 | a later seed, range or ace option overrides whatever came before |
| GodeckDeck.PrefixSafe | godeck/deck.go:93-98 | options that run safely run safely on every prefix |
| GodeckDeck.PrefixErrorSticks | godeck/deck.go:95-97 | after the first error the remaining options have no effect |
| GodeckDeck.Row | godeck/deck.go:19-21 | one card of the rank per playing suit, Hearts..Spades |
| GodeckDeck.RowsContents | godeck/deck.go:17-23 | a block of ranks lo..hi has 4 cards per rank, contains exactly those ranks in the four playing suits, never None, with no repeats |
| GodeckDeck.PopulatedContents | godeck/deck.go:17-23 | populate over a range yields 4 × (number of ranks) distinct cards, exactly the in-range ranks of the playing suits |
| GodeckDeck.StandardSizes | godeck/deck.go:91 | range Two..Ace gives 52 cards and Nine..Ace gives 24 |
| GodeckDeck.ShuffledMembers | godeck/deck.go:109-115 | the shuffled deck holds exactly the cards it was given |
| GodeckDeck.ShuffleSteps | godeck/deck.go:109-115 | every prefix of the swap loop keeps length and multiset |
| GodeckDeck.Shuffled | godeck/deck.go:109-115 | the shuffle is a permutation fixed by the seed |
| GodeckDeck.Overlay | godeck/deck.go:57-59 | copying a map over another: the keys of both, the copied entries win, the rest are kept |
| GodeckDeck.Deck.constructor | godeck/deck.go:89 | the zero deck: no cards, seed 0, nil table, range Null..Null |
| GodeckDeck.Deck.Apply | godeck/deck.go:26-86 | running one option closure changes the settings as ApplyOption says and leaves the cards alone |
| GodeckDeck.Deck.ApplyEach | godeck/deck.go:93-98 | running the options in order, stopping at the first error |
| GodeckDeck.Deck.Populate | godeck/deck.go:17-23 | appends exactly the populated block for the current range |
| GodeckDeck.Deck.NewDeck | godeck/deck.go:88-107 | nil and the error on a failing option; otherwise a fresh deck with the resulting settings whose cards are the populated range, shuffled by the seed when pre-shuffle is set |
| GodeckDeck.Deck.Length | godeck/deck.go:117-119 | the number of cards |
| GodeckDeck.Deck.Shuffle | godeck/deck.go:109-115 | the cards become the seeded permutation of the old cards |
| GodeckDeck.Deck.DrawCard | godeck/deck.go:121-129 | an empty deck gives the zero card and "no cards left in deck" and stays unchanged; otherwise the top card is removed and returned |
| GodeckDeck.Deck.DrawCards | godeck/deck.go:153-167 | success gives the top n cards, top first, and the deck shrinks by n; a shortage returns nothing, the shortage message with the restored size, and the deck with the same cards (reversed) |
| Base.DrawReturnConserves | godeck/deck.go:160 | drawing n cards and appending them back keeps the deck's size and multiset |
| GodeckDeck.Deck.ReturnCards | godeck/deck.go:169-171 | the cards are appended in order |
| GodeckDeck.Deck.ReturnCard | godeck/deck.go:173-175 | the card is appended |
| GodeckDeck.Deck.SetRankValues | godeck/deck.go:131-136 | the given entries override the table and the others stay |
| GodeckDeck.Deck.SetRankValue | godeck/deck.go:138-140 | only the named rank's value changes |
| GodeckDeck.Deck.RankValue | godeck/deck.go:149-151 | the table's entry for the rank; a missing entry or a nil table reads as 0 |
| GodeckDeck.Deck.ResetRankValues | godeck/deck.go:142-147 | every rank reads its default value again |
| GodeckEuchre.LeftBauerSuite | godeck/euchre.go:3-8 | a playing suit maps to a different playing suit; None has no entry and reads as None |
| GodeckEuchre.LeftBauerSuitePartners | godeck/euchre.go:3-8 | the pairing is an involution that keeps the colour |
| GodeckEuchre.IsCardLeftBauer | godeck/euchre.go:25-27 | the left bower is a jack; under a playing trump it is of the other suit of trump's colour |
| GodeckEuchre.CardValue | godeck/euchre.go:29-53 | a value is never negative, and it is 0 exactly when the card is not trump, not the led suit and not the left bower |
| GodeckEuchre.CardValueRanking | godeck/euchre.go:29-53 | right bower above everything, then the left bower, then trump by rank, then the led suit by rank, then off-suit |
| GodeckEuchre.ValueDeterminesCard | godeck/euchre.go:29-53 | two euchre cards of the same positive value are the same card |
| GodeckEuchre.CompareCards | godeck/euchre.go:55-60 | the sign of the comparison is the order of the two values |
| GodeckEuchre.CompareAntisymmetric | godeck/euchre.go:55-60 | swapping the arguments negates the result |
| GodeckEuchre.GetWinningCard | godeck/euchre.go:62-75 | the winner is the first of the four cards with the highest value |
| Base.BestIndex | godeck/euchre.go:62-75 | the position found by the strict-replace scan holds a maximum, and nothing before it is as good |
| GodeckEuchre.WinnerOrderIndependent | godeck/euchre.go:62-75 | for euchre cards, with the first card of positive value, reordering the trick does not change the winner |
| GodeckEuchre.LedSuit | godeck/euchre.go:84-93 | a led left bower demands trump; any other lead demands its printed suit |
| GodeckEuchre.PlayableCharacterisation | godeck/euchre.go:77-131 | card by card: anything on the opening lead; only trump when trump is led and held; otherwise only the led suit (never the left bower) when held; otherwise anything |
| GodeckEuchre.PlayableWithinHand | godeck/euchre.go:77-131 | the playable cards keep hand order, and a non-empty hand always has one |
| GodeckEuchre.LeftBauerDoesNotFollow | godeck/euchre.go:113-123 | when another card follows a non-trump lead, the left bower may not be played |
| GodeckEuchre.LeftBauerLeavesHandFree | godeck/euchre.go:113-128 | with hearts trump and 9♦ led, a hand of J♦ and K♣ may play either card |
| GodeckEuchre.CollectTrump | godeck/euchre.go:96-104 | the trump pass collects every trump card and the left bower, in hand order, and sets the flag exactly when it found one |
| GodeckEuchre.CollectLead | godeck/euchre.go:111-123 | the follow pass collects every led-suit card except the left bower, in hand order, and sets the flag exactly when it found one |
| GodeckEuchre.GetPlayableCards | godeck/euchre.go:77-131 | returns exactly the playable cards of the rule above |
| GodeckEuchre.IsCardPlayable | godeck/euchre.go:133-142 | true exactly when the card is among the playable cards |
| GodeckEuchre.EuchreRangeWins | godeck/euchre.go:16-19 | whatever the options, the trailing Range(Nine, Ace) wins |
| GodeckEuchre.PrefixSafeIgnoring | godeck/euchre.go:17-19 | options that run safely run safely on every prefix |
| GodeckEuchre.ApplyIgnoring | godeck/euchre.go:17-19 | every option runs in order, errors ignored; the cards are untouched |
| GodeckEuchre.NewEuchreDeck | godeck/euchre.go:14-23 | as written: a fresh deck with range Nine..Ace and no cards |
| GodeckEuchre.PreShuffledEuchreSettings | godeck/euchre.go:14-23 | `PreShuffled` then the euchre range run safely on a zero deck and give seed 0, a nil table, Nine..Ace and the pre-shuffle flag |
| GodeckEuchre.EuchreCards | godeck/euchre.go:18 | the range Nine..Ace populates to 24 cards, exactly the euchre cards |
| GodeckEuchre.PopulateEuchre | godeck/deck.go:99-105 | the empty deck receives the populated range, shuffled by the deck's seed when pre-shuffle is set, as `NewDeck` does |
| GodeckEuchre.NewEuchreDeckPopulated | godeck/euchre.go:14-23 | corrected: the same settings, and 24 cards that are exactly the euchre cards, in populate order or shuffled by the seed when `PreShuffled` is given |
| GameCard.SuiteOrdinal | game/card.go:5-13 | NONE is 0 and the suits are 1..4 |
| GameCard.RankOrdinal | game/card.go:94-103 | NINE = 0 up to ACE = 5 |
| GameCard.SuiteFromChar | game/card.go:34-48 | a suit exactly for "h", "d", "c", "s", named by its letter; NONE for anything else |
| GameCard.SuiteFromCharRoundTrip | game/card.go:34-48 | a suit's letter parses back to the suit |
| GameCard.IntToSuite | game/card.go:130-142 | 0..3 map to DIAMOND, CLUB, HEART, SPADE (the panic outside is a requires) |
| GameCard.IntToRank | game/card.go:144-160 | 0..5 map to NINE..ACE |
| GameCard.IntToSuiteRoundTrip | game/card.go:130-142 | every suit is reached |
| GameCard.IntToRankRoundTrip | game/card.go:144-160 | every rank is reached |
| GameCard.LeftBauerSuite | game/card.go:105-110 | a suit maps to another suit; NONE has no entry and reads as NONE |
| GameCard.LeftBauerSuiteInvolution | game/card.go:105-110 | applying the pairing twice gives the suit back |
| GameCard.CardRef.constructor | game/card.go:112-115 | a pointer to the given card |
| GameCard.PlayValue | game/card.go:162-186 | a value is never negative, and it is 0 exactly when the printed suit is neither trump nor lead |
| GameCard.PlayValueTable | game/card.go:162-186 | right bower 18, left bower 17 when its suit is led, trump 11..16, lead 1..6 |
| GameCard.LeftBauerScoresZeroOffLead | game/card.go:165-167 | as written: off its printed suit the left bower scores 0, below the nine of trump |
| GameCard.Compare | game/card.go:188-194 | the sign of the comparison is the order of the two values |
| GameCard.CompareAntisymmetric | game/card.go:188-194 | antisymmetric, and 0 for two off-suit cards |
| GameCard.GetWinningCard | game/card.go:196-210 | the winner is the first of the four cards with the highest value |
| GameCard.Select | game/card.go:233-253 | the pointers kept are hand pointers passing the test, and every passing hand pointer is kept |
| GameCard.SelectSubsequence | game/card.go:233-253 | the pointers kept are a subsequence of the hand |
| GameCard.SelectSnoc | game/card.go:233-253 | one more hand pointer extends the selection by that pointer or by nothing |
| GameCard.PlayableWithinHand | game/card.go:212-261 | the playable pointers keep hand order, and a non-empty hand always has one |
| GameCard.MustPlayTrump | game/card.go:228-243 | when trump is led and held, exactly the trump cards and the left bower are playable |
| GameCard.MustFollowPrintedSuit | game/card.go:245-258 | otherwise a hand holding the led suit must play exactly its cards of that printed suit |
| GameCard.LeftBauerFollowsPrintedSuit | game/card.go:248-253 | as written: with hearts trump and 9♦ led, J♦ with K♣ may play only J♦ |
| GameCard.CollectTrump | game/card.go:231-239 | the trump loop collects exactly the trump and left-bower pointers in order, and sets the flag when it finds one |
| GameCard.CollectSuite | game/card.go:246-253 | the lead loop collects exactly the pointers of the led printed suit in order, and sets the flag when it finds one |
| GameCard.GetPlayableCards | game/card.go:212-261 | a led left bower has its suit set to trump through the pointer; the result is the playable pointers |
| GameCard.IsCardPlayable | game/card.go:263-272 | true exactly when the very pointer is among the playable pointers |
| GameDeck.InitialCards | game/deck.go:12-21 | card i is rank i % 6 of suit i / 6 |
| GameDeck.SuiteBlock | game/deck.go:15-16 | six cards of one suit, NINE..ACE |
| GameDeck.InitialCardsBlocks | game/deck.go:12-21 | the deck is four suit blocks: DIAMOND, CLUB, HEART, SPADE |
| GameDeck.BlockCount | game/deck.go:15-16 | a suit block holds six cards of its own suit and none of another |
| GameDeck.FourBlocksCount | game/deck.go:15-16 | four blocks of distinct suits hold six cards of each of their suits |
| GameDeck.InitialCardsSixPerSuite | game/deck.go:12-21 | six cards of each suit and none of NONE |
| GameDeck.CountFour | game/deck.go:17 | counting over four concatenated parts adds up |
| GameDeck.InitialCardsComplete | game/deck.go:12-21 | every card of a real suit is present, no card of NONE, and the 24 cards are distinct |
| GameDeck.ShuffleDown | game/deck.go:27-31 | every prefix of the backward swap loop keeps length and multiset |
| GameDeck.ShuffledDown | game/deck.go:23-32 | the shuffle is a permutation |
| GameDeck.Values | game/deck.go:8-10 | the cards behind the pointers, in deck order |
| GameDeck.Deck.InitDeck | game/deck.go:12-21 | 24 fresh, distinct pointers to the initial cards |
| GameDeck.Deck.Shuffle | game/deck.go:23-32 | the pointers become the clock-seeded permutation |
| GameDeck.Deck.Length | game/deck.go:34-36 | the number of cards |
| GameDeck.Deck.Pop | game/deck.go:38-43 | the last pointer is removed and returned |
| GameDeck.Deck.DrawCards | game/deck.go:45-52 | the top n pointers, top first, and the deck shrinks by n |
| GameDeck.Deck.ReturnCards | game/deck.go:54-56 | the pointers are appended in order |
| GamePlayer.Player.InitPlayer | game/player.go:12-20 | empty hand, no tricks, no score, the given name |
| GamePlayer.Player.GiveCards | game/player.go:34-36 | the cards are appended to the hand in order |
| GamePlayer.Player.ReturnCards | game/player.go:38-43 | returns the old hand in order and empties it |
| GamePlayer.Player.GetPlayableCards | game/player.go:49-78 | every playable pointer is in the hand, and a non-empty hand always has one |
| GamePlayer.PlayableWithinHand | game/player.go:49-78 | the playable cards keep hand order, and a non-empty hand always has one |
| GamePlayer.PlayableCharacterisation | game/player.go:49-78 | card by card: the led printed suit when held; otherwise trump and the left bower when held; otherwise anything |
| GameBoard.NextSeat | game/board.go:50-52 | the next seat stays in 0..3 and wraps from 3 to 0 |
| GameBoard.FourTurnsReturn | game/board.go:50-52 | four turns return to the starting seat |
| GameBoard.Board.NewGameBoard | game/board.go:18-34 | no deck, four fresh empty-handed players "Player 1".."Player 4", dealer and turn 0, nobody ordered (-1), no trump, the empty turned card, nothing played or logged, seed 1 |
| GameBoard.Board.Log | game/board.go:36-38 | only the format string is appended |
| GameBoard.Board.PlayCard | game/board.go:40-42 | exactly one card is appended to the played cards |
| GameBoard.Board.ReturnPlayedCards | game/board.go:44-48 | the played cards go onto the deck in order and the trick empties; deck plus trick size is unchanged |
| GameBoard.Board.NextPlayer | game/board.go:50-52 | the turn moves to the next seat |
| GameState.StateString | game/state.go:30 | every state has a name |
| GameState.StateStringInjective | game/state.go:16-18 | distinct states have distinct names |
| GameState.Transition | game/state.go:48-135 | init goes to determineFirstDealer, endGame is absorbing and is entered only from a drawn jack, and drawForJack is entered only on an empty or drawn-card event |
| GameState.Game.NewGame | game/state.go:28-32 | a game in the init state with nothing set up |
| GameState.Game.DoState | game/state.go:34-131 | init installs a fresh 24-card deck and four players. determineFirstDealer shuffles on an empty event and plays a drawn card; on a jack it sets the dealer to (played count) mod 4 and returns the played cards to the deck. drawForJack draws the top card into an event, and endGame reports the end |
| GameState.Game.NextState | game/state.go:48-135 | the state becomes the transition of the produced event |
| GameState.Game.Step | game/state.go:34-135 | one act-then-move turn keeps Ready, so drawForJack always finds a card |
| RootCard.LeftBauerSuite | card.go:30-35 | a named suit maps to another named suit; any other rune reads as the zero rune |
| RootCard.LeftBauerSuiteInvolution | card.go:30-35 | applying the pairing twice gives the suit back, and the colour is kept |
| RootCard.GetCardRanking | card.go:72-96 | 0 for a card of neither trump nor the led suit; at least 1 for a real card of either |
| RootCard.RankingTable | card.go:72-96 | right bower 18, led left bower 17, trump 11..16, lead 1..6 |
| RootCard.TrumpBeatsLead | card.go:79-95 | every trump card outranks every plain card of the led suit |
| RootCard.LeftBauerScoresZeroOffLead | card.go:75-77 | as written: off its printed suit the left bower scores 0, below the nine of trump |
| RootCard.IsCardEqual | card.go:98-104 | the sign of the result is the order of the two rankings |
| RootCard.IsCardEqualAntisymmetric | card.go:98-104 | antisymmetric, and 0 for two off-suit cards |
| RootPlayer.Player.InitPlayer | player.go:9-16 | empty hand, no tricks, no score |
| RootPlayer.Player.GiveCards | player.go:26-28 | the cards are appended in order |
| RootPlayer.Player.ReturnCards | player.go:30-35 | returns the old hand in order and empties it |
| RootPlayer.Player.GetPlayableCards | player.go:37-66 | every playable card is in the hand, and a non-empty hand always has one |
| RootPlayer.PlayableWithinHand | player.go:37-66 | the playable cards keep hand order, and a non-empty hand always has one |
| RootPlayer.PlayableCharacterisation | player.go:37-66 | card by card: the led suit when held; otherwise trump and the left bower when held; otherwise anything |
| Cli.NewClientDeck | cmd/cli/cli.go:34 | `NewEuchreDeck(PreShuffled())` corrected: a fresh deck with seed 0, no table, Nine..Ace and pre-shuffle set, whose cards are the euchre block shuffled by seed 0 and are exactly the euchre cards |
| Cli.ClientDeckSize | cmd/cli/cli.go:34 | the client's deck holds 24 cards |
| Cli.GameState.NewGameState | cmd/cli/cli.go:28-38 | disconnected, turn 0, seat 0, empty hand, "Waiting for player...", the four names, and a fresh client deck as `NewClientDeck` builds it |
| Cli.GameState.Held | cmd/cli/cli.go:20-22 | the cards in hand and deck, counted together |
| Cli.GameState.Hit | cmd/cli/cli.go:50-64 | five cards already held is an error; an empty deck reports its error; otherwise the top card moves to the hand; no card is created or lost |
| Cli.GameState.Play | cmd/cli/cli.go:66-76 | an empty hand is an error; otherwise the last card of the hand moves onto the deck; no card is created or lost |
| Cli.GameState.TurnTrump | cmd/cli/cli.go:77-86 | an empty deck reports its error; otherwise the top card becomes the turned card |
| Cli.GameState.HandleInput | cmd/cli/cli.go:40-94 | each command's effect and status line; the turn advances mod 4 on `next` only; unknown input is "invalid input"; at most five cards in hand; hand plus deck conserved except on `trump`; the deck object and its settings never change |

## Left out

- Terminal output: the view functions of cmd/cli/cli.go, `EnterState`'s print, `PrintHand`, `Info`, `ToString` and `ToChar` render text and have no behavioural contract.
- The trivial getters (`GetName`, `GetTricks`, `GetScore`, `GetCards`, `Rank`, `Suit`) read a field or datatype member. They are not separate members.
- The distribution of random numbers: `rand.Intn` is an oracle bounded by its argument, and `rand.Int63` and the clock are parameters. Go's own generator is not modelled.
- The goroutines, channels, TCP client and server, the generic FSM runner and the round-level `GameMachine` are outside this model. The `GameMachine` source is not part of this model.
- GameState.Game: the `Game` struct and `TransitionState` are not part of this model. The fields are inferred from their uses in game/state.go, and a transition is modelled as setting the state.
- GameState.Game.DoState: the source passes `&game.PlayedCards` to a `ReturnCards` that takes a slice. It is modelled as the `ReturnCards` of game/deck.go:54-56 (append, argument untouched). The played cards are not cleared.
- GameState.Game.DoState: game/state.go keeps players as struct values. They are fresh `Player` objects here.
- GameBoard.Board.NewGameBoard: the two-argument `InitPlayer(name, seat)` it calls is not part of this model. The one-argument `InitPlayer` of game/player.go:12 is used instead, and the seat number is dropped.
- RootPlayer.Player: the hand holds card values instead of pointers. Nothing in player.go writes through them or compares them by address.
- Cli.GameState.NewGameState: it builds its deck with the corrected `NewEuchreDeckPopulated`. The source calls `NewEuchreDeck`, whose deck is empty (see Findings). The random source of the shuffle is its `rng` parameter.
- GodeckDeck.Deck.SetRankValue, ResetRankValues and `AceHigh`/`AceLow` (through `Writable`) require an allocated table. Go panics on a write into a nil map.
- GameDeck.Deck.Pop and DrawCards require enough cards. Go panics on an out-of-range slice index.
- GameBoard.Board.ReturnPlayedCards requires a deck. Go panics on a nil pointer.
- The root deck.go: its `InitDeck` calls `GetRank` and `GetSuite`, which are not part of this model, and its `Shuffle` starts at `i = len(d)` and so indexes past the end on a non-empty deck. game/deck.go holds the working version, `GameDeck`.
- The `card` package (card/premades.go, card/rank.go, card/suit.go) wraps a `Deck` and `EuchreDeck` that are not part of this model. godeck supersedes it.
- game/input.go is left out because it is a stdin prompt loop.

## Findings

| source | as written | input that shows it | evidently intended | confidence | as-written member | corrected member |
|---|---|---|---|---|---|---|
| godeck/euchre.go:14-23 | `NewEuchreDeck` sets the range Nine..Ace but never populates, so the deck it returns has no cards | `NewEuchreDeck(PreShuffled())`: 0 cards, so the CLI's first `hit` fails with "no cards left in deck" | a deck of the 24 euchre cards, shuffled when `PreShuffled` is given | high, not executed | GodeckEuchre.NewEuchreDeck | GodeckEuchre.NewEuchreDeckPopulated |
| game/card.go:165-167 | the off-suit check runs before the left-bower bonus, so the left bower scores 0 unless its printed suit was led | trump DIAMOND, lead DIAMOND: J♥ scores 0 and 9♦ scores 11 | the left bower ranks second only to the right bower | high, not executed | GameCard.LeftBauerScoresZeroOffLead | GodeckEuchre.CardValueRanking |
| card.go:75-77 | the same early return: the left bower scores 0 unless its printed suit was led | trump '♦', lead '♦': J♥ scores 0 and 9♦ scores 11 | the left bower ranks second only to the right bower | high, not executed | RootCard.LeftBauerScoresZeroOffLead | GodeckEuchre.CardValueRanking |
| game/card.go:248-253 | the follow pass tests the printed suit, so the left bower is forced to follow its printed suit | trump HEART, lead 9♦, hand [J♦, K♣]: only J♦ is playable | the left bower is trump, so the hand holds no diamond and may play either card | medium, not executed | GameCard.LeftBauerFollowsPrintedSuit | GodeckEuchre.LeftBauerLeavesHandFree |
