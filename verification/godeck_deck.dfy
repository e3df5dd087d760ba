/**
 * The generic deck of the latest revision (`godeck` package): a slice of
 * cards plus the settings that functional options write (shuffle seed,
 * rank-value table, rank range, pre-shuffle flag).
 *
 * Randomness is the oracle `Base.Rng`.
 */
module GodeckDeck {
  import opened Base
  import opened GodeckRank
  import opened GodeckSuit
  import opened GodeckCard

  const NoCardsLeft := "no cards left in deck"
  const RangeError := "start must be less than or equal to end"

  /** The error text of a failed `DrawCards`. */
  function ShortageMessage(wanted: int, have: int): string
  {
    "not enough cards in deck, tried to draw " + DecimalString(wanted)
      + " cards when only " + DecimalString(have) + " are in the deck"
  }

  // ---------------------------------------------------------------------
  // Options
  // ---------------------------------------------------------------------

  /**
   * The functional options. Go's `RandomShuffleSeed` closure calls
   * `rand.Int63()` each time it is applied; here the drawn value is a
   * parameter of the option, so applying one option value twice reuses it.
   */
  datatype DeckOption =
    | Range(start: Rank, end: Rank)
    | ShuffleSeed(seed: int)
    | RandomShuffleSeed(drawn: int)
    | RankValues(values: map<Rank, int>)
    | AceHigh
    | AceLow
    | PreShuffled

  /**
   * The deck's fields other than its cards. A missing table (`None`) is Go's nil
   * map: reading it yields 0, writing into it panics.
   */
  datatype DeckSettings = DeckSettings(shuffleSeed: int, rankValues: Option<map<Rank, int>>,
                               deckRange: (Rank, Rank), preShuffled: bool)

  /** The settings of Go's zero `Deck{}`. */
  const ZeroSettings := DeckSettings(0, Option.None, (Null, Null), false)

  /** An option may run on these settings without writing into a nil map. */
  predicate Writable(c: DeckSettings, o: DeckOption)
  {
    (o.AceHigh? || o.AceLow?) ==> c.rankValues.Some?
  }

  /** One option applied to the settings: the new settings and the error it returns. */
  function ApplyOption(c: DeckSettings, o: DeckOption): (r: (DeckSettings, Option<string>))
    requires Writable(c, o)
    ensures r.1.Some? <==> o.Range? && RankOrdinal(o.start) > RankOrdinal(o.end)
    ensures r.1.Some? ==> r.1.value == RangeError && r.0 == c
    ensures c.rankValues.Some? ==> r.0.rankValues.Some?
  {
    match o
    case Range(start, end) =>
      if RankOrdinal(start) > RankOrdinal(end) then (c, Some(RangeError))
      else (c.(deckRange := (start, end)), Option.None)
    case ShuffleSeed(seed) => (c.(shuffleSeed := seed), Option.None)
    case RandomShuffleSeed(drawn) => (c.(shuffleSeed := drawn), Option.None)
    case RankValues(values) => (c.(rankValues := Some(values)), Option.None)
    case AceHigh => (c.(rankValues := Some(c.rankValues.value[Ace := 14])), Option.None)
    case AceLow => (c.(rankValues := Some(c.rankValues.value[Ace := 1])), Option.None)
    case PreShuffled => (c.(preShuffled := true), Option.None)
  }

  /** Every option of `opts` that runs (up to the first error) finds a writable table. */
  predicate SafeOptions(c: DeckSettings, opts: seq<DeckOption>)
    decreases |opts|, 0
  {
    opts == [] ||
    (var init := opts[..|opts| - 1];
     SafeOptions(c, init) &&
     (ApplyAll(c, init).1.Some? || Writable(ApplyAll(c, init).0, opts[|opts| - 1])))
  }

  /** Options applied in order, stopping at the first that returns an error (as `NewDeck` does). */
  function ApplyAll(c: DeckSettings, opts: seq<DeckOption>): (r: (DeckSettings, Option<string>))
    requires SafeOptions(c, opts)
    ensures r.1.Some? ==> r.1.value == RangeError
    ensures c.rankValues.Some? ==> r.0.rankValues.Some?
    decreases |opts|, 1
  {
    if opts == [] then (c, Option.None)
    else
      var before := ApplyAll(c, opts[..|opts| - 1]);
      if before.1.Some? then before else ApplyOption(before.0, opts[|opts| - 1])
  }

  /** Once the table is allocated no option writes into a nil map. */
  lemma {:induction false} AllocatedTableIsSafe(c: DeckSettings, opts: seq<DeckOption>)
    requires c.rankValues.Some?
    ensures SafeOptions(c, opts)
    ensures ApplyAll(c, opts).0.rankValues.Some?
  {
    if opts != [] {
      AllocatedTableIsSafe(c, opts[..|opts| - 1]);
    }
  }

  /** The defaults `NewDeck` applies before the caller's options. */
  function Defaults(entropy: int): seq<DeckOption>
  {
    [Range(Two, Ace), RankValues(DefaultRankValues), AceHigh(), RandomShuffleSeed(entropy)]
  }

  /** What the defaults produce: the full Two..Ace range, the default table, a random seed. */
  lemma {:induction false} DefaultSettings(entropy: int, options: seq<DeckOption>)
    ensures SafeOptions(ZeroSettings, Defaults(entropy))
    ensures ApplyAll(ZeroSettings, Defaults(entropy)) == (StartSettings(entropy), Option.None)
    ensures SafeOptions(StartSettings(entropy), options)
    ensures SafeOptions(ZeroSettings, Defaults(entropy) + options)
    ensures ApplyAll(ZeroSettings, Defaults(entropy) + options) == ApplyAll(StartSettings(entropy), options)
  {
    var d := Defaults(entropy);
    var z := ZeroSettings;
    assert d[..1][..0] == [] && d[..2][..1] == d[..1] && d[..3][..2] == d[..2] && d[..4][..3] == d[..3];
    assert d[..4] == d;
    var s1 := z.(deckRange := (Two, Ace));
    var s2 := s1.(rankValues := Some(DefaultRankValues));
    assert d[..1] == [Range(Two, Ace)];
    assert ApplyOption(z, Range(Two, Ace)) == (s1, Option.None);
    assert SafeOptions(z, d[..1]);
    assert ApplyAll(z, d[..1]) == (s1, Option.None);
    assert SafeOptions(z, d[..2]) && ApplyAll(z, d[..2]) == (s2, Option.None);
    assert DefaultRankValues[Ace := 14] == DefaultRankValues;
    assert SafeOptions(z, d[..3]) && ApplyAll(z, d[..3]) == (s2, Option.None);
    assert SafeOptions(z, d) && ApplyAll(z, d) == (StartSettings(entropy), Option.None);
    DefaultsThen(StartSettings(entropy), d, options);
  }

  /** The settings after the defaults: seed from `entropy`, default table, range Two..Ace. */
  function StartSettings(entropy: int): DeckSettings
  {
    DeckSettings(entropy, Some(DefaultRankValues), (Two, Ace), false)
  }

  lemma {:induction false} DefaultsThen(start: DeckSettings, d: seq<DeckOption>, options: seq<DeckOption>)
    requires SafeOptions(ZeroSettings, d) && ApplyAll(ZeroSettings, d) == (start, Option.None)
    requires start.rankValues.Some?
    ensures SafeOptions(start, options)
    ensures SafeOptions(ZeroSettings, d + options)
    ensures ApplyAll(ZeroSettings, d + options) == ApplyAll(start, options)
    decreases |options|
  {
    AllocatedTableIsSafe(start, options);
    if options == [] {
      assert d + options == d;
    } else {
      var init := options[..|options| - 1];
      assert (d + options)[..|d + options| - 1] == d + init;
      DefaultsThen(start, d, init);
      AllocatedTableIsSafe(start, init);
    }
  }

  /** Option application fails exactly when some option is a reversed `Range`, and then with its message. */
  lemma {:induction false} FailsIffReversedRange(c: DeckSettings, opts: seq<DeckOption>)
    requires SafeOptions(c, opts)
    ensures ApplyAll(c, opts).1.Some? <==>
            exists i :: 0 <= i < |opts| && opts[i].Range? && RankOrdinal(opts[i].start) > RankOrdinal(opts[i].end)
    ensures ApplyAll(c, opts).1.Some? ==> ApplyAll(c, opts).1.value == RangeError
  {
    if opts != [] {
      var init := opts[..|opts| - 1];
      FailsIffReversedRange(c, init);
      assert forall i :: 0 <= i < |init| ==> init[i] == opts[i];
    }
  }

  /** A later option overrides an earlier one: the last successful option's field is the final one. */
  lemma LaterOptionWins(c: DeckSettings, opts: seq<DeckOption>, o: DeckOption)
    requires SafeOptions(c, opts) && ApplyAll(c, opts).1.None?
    requires Writable(ApplyAll(c, opts).0, o)
    ensures SafeOptions(c, opts + [o])
    ensures o.ShuffleSeed? ==> ApplyAll(c, opts + [o]).0.shuffleSeed == o.seed
    ensures o.Range? && RankOrdinal(o.start) <= RankOrdinal(o.end) ==>
              ApplyAll(c, opts + [o]).0.deckRange == (o.start, o.end)
    ensures o.AceLow? ==> ApplyAll(c, opts + [o]).0.rankValues.value[Ace] == 1
    ensures o.AceHigh? ==> ApplyAll(c, opts + [o]).0.rankValues.value[Ace] == 14
  {
    assert (opts + [o])[..|opts + [o]| - 1] == opts;
  }

  /** Options applied in order with their errors ignored (as `NewEuchreDeck` does). */
  function ApplyIgnoringErrors(c: DeckSettings, opts: seq<DeckOption>): (r: DeckSettings)
    requires SafeIgnoring(c, opts)
    decreases |opts|, 1
  {
    if opts == [] then c
    else ApplyOption(ApplyIgnoringErrors(c, opts[..|opts| - 1]), opts[|opts| - 1]).0
  }

  predicate SafeIgnoring(c: DeckSettings, opts: seq<DeckOption>)
    decreases |opts|, 0
  {
    opts == [] ||
    (var init := opts[..|opts| - 1];
     SafeIgnoring(c, init) && Writable(ApplyIgnoringErrors(c, init), opts[|opts| - 1]))
  }

  // ---------------------------------------------------------------------
  // Populating
  // ---------------------------------------------------------------------

  /** One rank in every playing suit, in suit order Hearts, Diamonds, Clubs, Spades. */
  function Row(r: Rank): (row: seq<Card>)
    ensures |row| == 4
    ensures forall k :: 0 <= k < 4 ==> row[k] == Card(r, SuitFromOrdinal(k + 1))
  {
    seq(4, k requires 0 <= k < 4 => Card(r, SuitFromOrdinal(k + 1)))
  }

  /** The cards for rank ordinals `lo..hi`, rank-major. */
  function Rows(lo: nat, hi: int): seq<Card>
    requires hi <= 13
    decreases hi - lo
  {
    if hi < lo then [] else Rows(lo, hi - 1) + Row(RankFromOrdinal(hi))
  }

  /** What `populate` appends for the range `[start, end]`. */
  function Populated(start: Rank, end: Rank): seq<Card>
  {
    Rows(RankOrdinal(start), RankOrdinal(end))
  }

  /** A populated block has four cards per rank in range. */
  lemma {:induction false} RowsSize(lo: nat, hi: int)
    requires hi <= 13
    ensures |Rows(lo, hi)| == if hi < lo then 0 else 4 * (hi - lo + 1)
    decreases hi - lo
  {
    if lo <= hi {
      RowsSize(lo, hi - 1);
    }
  }

  /** Size and contents of a populated block: four suits per rank in range, never suit `None`, no repeats. */
  lemma {:induction false} RowsContents(lo: nat, hi: int)
    requires hi <= 13
    ensures |Rows(lo, hi)| == if hi < lo then 0 else 4 * (hi - lo + 1)
    ensures forall c :: c in Rows(lo, hi) <==> lo <= RankOrdinal(c.rank) <= hi && c.suit != Suit.None
    ensures forall i, j :: 0 <= i < j < |Rows(lo, hi)| ==> Rows(lo, hi)[i] != Rows(lo, hi)[j]
    decreases hi - lo
  {
    RowsSize(lo, hi);
    if lo <= hi {
      RowsContents(lo, hi - 1);
      var prev, row := Rows(lo, hi - 1), Row(RankFromOrdinal(hi));
      forall c: Card | c.suit != Suit.None && RankOrdinal(c.rank) == hi
        ensures c in row
      {
        assert row[SuitOrdinal(c.suit) - 1] == c;
      }
      forall c | c in row
        ensures RankOrdinal(c.rank) == hi && c.suit != Suit.None
      {
      }
      var all := prev + row;
      forall i, j | 0 <= i < j < |all|
        ensures all[i] != all[j]
      {
        if j >= |prev| && i < |prev| {
          assert all[i] in prev;
        }
      }
    }
  }

  lemma PopulatedContents(start: Rank, end: Rank)
    ensures |Populated(start, end)| ==
            if RankOrdinal(start) <= RankOrdinal(end) then 4 * (RankOrdinal(end) - RankOrdinal(start) + 1) else 0
    ensures forall c :: c in Populated(start, end) <==>
            RankOrdinal(start) <= RankOrdinal(c.rank) <= RankOrdinal(end) && c.suit != Suit.None
    ensures forall i, j :: 0 <= i < j < |Populated(start, end)| ==> Populated(start, end)[i] != Populated(start, end)[j]
  {
    RowsContents(RankOrdinal(start), RankOrdinal(end));
  }

  /** The default range Two..Ace gives the 52-card deck; Nine..Ace gives the 24-card euchre deck. */
  lemma StandardSizes()
    ensures |Populated(Two, Ace)| == 52
    ensures |Populated(Nine, Ace)| == 24
  {
    RowsSize(RankOrdinal(Two), RankOrdinal(Ace));
    RowsSize(RankOrdinal(Nine), RankOrdinal(Ace));
  }

  // ---------------------------------------------------------------------
  // Shuffling
  // ---------------------------------------------------------------------

  /** The first `n` steps of the seeded swap shuffle: step i swaps index i with `Intn(i + 1)`. */
  function ShuffleSteps(s: seq<Card>, seed: int, rng: Rng, n: nat): (r: seq<Card>)
    requires ValidRng(rng) && n <= |s|
    ensures |r| == |s|
    ensures multiset(r) == multiset(s)
  {
    if n == 0 then s
    else
      var prev := ShuffleSteps(s, seed, rng, n - 1);
      SwapMultiset(prev, n - 1, rng(seed, n - 1, n));
      Swap(prev, n - 1, rng(seed, n - 1, n))
  }

  /** The shuffled order: a permutation of `s` determined by `seed` alone. */
  function Shuffled(s: seq<Card>, seed: int, rng: Rng): (r: seq<Card>)
    requires ValidRng(rng)
    ensures |r| == |s| && multiset(r) == multiset(s)
  {
    ShuffleSteps(s, seed, rng, |s|)
  }

  /** Shuffling keeps exactly the cards it was given. */
  lemma ShuffledMembers(s: seq<Card>, seed: int, rng: Rng)
    requires ValidRng(rng)
    ensures forall c :: c in Shuffled(s, seed, rng) <==> c in s
  {
    var r := Shuffled(s, seed, rng);
    forall c ensures c in r <==> c in s {
      assert c in r <==> c in multiset(r);
      assert c in s <==> c in multiset(s);
    }
  }

  /** A map overlaid with another, key by key, as Go's copy loops do. */
  method Overlay(base: map<Rank, int>, m: map<Rank, int>) returns (r: map<Rank, int>)
    ensures r.Keys == base.Keys + m.Keys
    ensures forall k :: k in m ==> r[k] == m[k]
    ensures forall k :: k in base && k !in m ==> r[k] == base[k]
  {
    r := base;
    var todo := m.Keys;
    while todo != {}
      invariant todo <= m.Keys
      invariant r.Keys == base.Keys + (m.Keys - todo)
      invariant forall k :: k in r ==> r[k] == if k in m.Keys - todo then m[k] else base[k]
      decreases todo
    {
      var k :| k in todo;
      r := r[k := m[k]];
      todo := todo - {k};
    }
  }

  class Deck {
    var cards: seq<Card>
    var shuffleSeed: int
    var rankValues: Option<map<Rank, int>>
    var deckRange: (Rank, Rank)
    var preShuffled: bool

    function Settings(): DeckSettings
      reads this`shuffleSeed, this`rankValues, this`deckRange, this`preShuffled
    {
      DeckSettings(shuffleSeed, rankValues, deckRange, preShuffled)
    }

    /** Go's zero `Deck{}`: no cards, seed 0, nil table, range Null..Null. */
    constructor ()
      ensures cards == [] && Settings() == ZeroSettings
    {
      cards := [];
      shuffleSeed := 0;
      rankValues := Option.None;
      deckRange := (Null, Null);
      preShuffled := false;
    }

    /** Runs one option closure on this deck. */
    method Apply(o: DeckOption) returns (err: Option<string>)
      requires Writable(Settings(), o)
      modifies this
      ensures (Settings(), err) == ApplyOption(old(Settings()), o)
      ensures cards == old(cards)
    {
      err := Option.None;
      match o
      case Range(start, end) =>
        if RankOrdinal(start) > RankOrdinal(end) {
          err := Some(RangeError);
          return;
        }
        deckRange := (start, end);
      case ShuffleSeed(seed) =>
        shuffleSeed := seed;
      case RandomShuffleSeed(drawn) =>
        shuffleSeed := drawn;
      case RankValues(values) =>
        var copy := Overlay(map[], values);
        assert copy == values;
        rankValues := Some(copy);
      case AceHigh =>
        rankValues := Some(rankValues.value[Ace := 14]);
      case AceLow =>
        rankValues := Some(rankValues.value[Ace := 1]);
      case PreShuffled =>
        preShuffled := true;
    }

    /** Runs the options in order and stops at the first error. */
    method ApplyEach(opts: seq<DeckOption>) returns (err: Option<string>)
      requires SafeOptions(Settings(), opts)
      modifies this
      ensures (Settings(), err) == ApplyAll(old(Settings()), opts)
      ensures cards == old(cards)
    {
      ghost var start := Settings();
      var i := 0;
      while i < |opts|
        invariant 0 <= i <= |opts|
        invariant cards == old(cards)
        invariant SafeOptions(start, opts[..i])
        invariant ApplyAll(start, opts[..i]) == (Settings(), Option.None)
      {
        assert opts[..i + 1][..i] == opts[..i];
        PrefixSafe(start, opts, i + 1);
        var e := Apply(opts[i]);
        if e.Some? {
          PrefixErrorSticks(start, opts, i + 1);
          return e;
        }
        i := i + 1;
      }
      assert opts[..|opts|] == opts;
      return Option.None;
    }

    /** `populate`: appends one card per rank in range and per playing suit, rank-major. */
    method Populate()
      modifies this`cards
      ensures cards == old(cards) + Populated(deckRange.0, deckRange.1)
    {
      var lo, hi := RankOrdinal(deckRange.0), RankOrdinal(deckRange.1);
      var r: int := lo;
      while r <= hi
        invariant lo <= r <= 14 && (lo <= hi ==> r <= hi + 1) && (hi < lo ==> r == lo)
        invariant cards == old(cards) + Rows(lo, r - 1)
      {
        var rank := RankFromOrdinal(r);
        var s := SuitOrdinal(Hearts);
        while s <= SuitOrdinal(Spades)
          invariant 1 <= s <= 5
          invariant cards == old(cards) + Rows(lo, r - 1) + Row(rank)[..s - 1]
        {
          cards := cards + [NewCard(rank, SuitFromOrdinal(s))];
          assert Row(rank)[..s] == Row(rank)[..s - 1] + [Row(rank)[s - 1]];
          s := s + 1;
        }
        assert Row(rank)[..4] == Row(rank);
        r := r + 1;
      }
      assert Rows(lo, r - 1) == Rows(lo, hi);
    }

    /** `NewDeck`: defaults, then the caller's options (first error aborts), then populate and maybe shuffle. */
    static method NewDeck(options: seq<DeckOption>, entropy: int, rng: Rng) returns (d: Deck?, err: Option<string>)
      requires ValidRng(rng)
      ensures SafeOptions(ZeroSettings, Defaults(entropy) + options)
      ensures err == ApplyAll(ZeroSettings, Defaults(entropy) + options).1
      ensures err.Some? <==> d == null
      ensures d != null ==> fresh(d) && d.Settings() == ApplyAll(ZeroSettings, Defaults(entropy) + options).0
      ensures d != null ==> d.cards == if d.preShuffled
                                       then Shuffled(Populated(d.deckRange.0, d.deckRange.1), d.shuffleSeed, rng)
                                       else Populated(d.deckRange.0, d.deckRange.1)
    {
      DefaultSettings(entropy, options);
      ghost var result := ApplyAll(ZeroSettings, Defaults(entropy) + options);
      var deck := new Deck();
      var e := deck.ApplyEach(Defaults(entropy) + options);
      if e.Some? {
        return null, e;
      }
      assert deck.Settings() == result.0;
      deck.Populate();
      ghost var populated := deck.cards;
      assert populated == Populated(deck.deckRange.0, deck.deckRange.1);
      if deck.preShuffled {
        deck.Shuffle(rng);
      }
      return deck, Option.None;
    }

    function Length(): (n: nat)
      reads this
      ensures n == |cards|
    {
      |cards|
    }

    /** The seeded swap shuffle: index i is exchanged with `Intn(i + 1)` for each i. */
    method Shuffle(rng: Rng)
      requires ValidRng(rng)
      modifies this`cards
      ensures cards == Shuffled(old(cards), shuffleSeed, rng)
    {
      ghost var orig := cards;
      for i := 0 to |cards|
        invariant |cards| == |orig|
        invariant cards == ShuffleSteps(orig, shuffleSeed, rng, i)
      {
        var j := rng(shuffleSeed, i, i + 1);
        cards := cards[i := cards[j]][j := cards[i]];
      }
    }

    /** Takes the top (last) card; on an empty deck returns the zero card and an error. */
    method DrawCard() returns (c: Card, err: Option<string>)
      modifies this`cards
      ensures old(cards) == [] ==> c == EmptyCard() && err == Some(NoCardsLeft) && cards == old(cards)
      ensures old(cards) != [] ==> c == old(cards)[|old(cards)| - 1] && err == Option.None
                                   && cards == old(cards)[..|old(cards)| - 1]
    {
      if |cards| == 0 {
        return Card(Null, Suit.None), Some(NoCardsLeft);
      }
      var index := |cards| - 1;
      c := cards[index];
      cards := cards[..index];
      err := Option.None;
    }

    /**
     * Draws `n` cards, top first. On a shortage every card already drawn is
     * appended back (the whole deck has been drawn by then, so it comes back
     * reversed) and the error reports the restored size.
     */
    method DrawCards(n: int) returns (drawn: seq<Card>, err: Option<string>)
      modifies this`cards
      ensures n <= |old(cards)| ==>
                var k := if n < 0 then 0 else n;
                err == Option.None && drawn == Reversed(old(cards)[|old(cards)| - k..])
                && cards == old(cards)[..|old(cards)| - k]
      ensures n > |old(cards)| ==>
                err == Some(ShortageMessage(n, |old(cards)|)) && drawn == []
                && cards == Reversed(old(cards))
    {
      ghost var orig := cards;
      drawn := [];
      err := Option.None;
      var i := 0;
      while i < n
        invariant 0 <= i <= |orig| && (0 <= n ==> i <= n) && (n < 0 ==> i == 0)
        invariant cards == orig[..|orig| - i]
        invariant drawn == Reversed(orig[|orig| - i..])
      {
        var c, e := DrawCard();
        if e.Some? {
          assert orig[|orig| - i..] == orig;
          cards := cards + drawn;
          err := Some(ShortageMessage(n, |cards|));
          drawn := [];
          return;
        }
        assert orig[|orig| - (i + 1)..][1..] == orig[|orig| - i..];
        drawn := drawn + [c];
        i := i + 1;
      }
      assert n <= |orig|;
      assert i == if n < 0 then 0 else n;
    }

    method ReturnCards(cs: seq<Card>)
      modifies this`cards
      ensures cards == old(cards) + cs
    {
      cards := cards + cs;
    }

    method ReturnCard(c: Card)
      modifies this`cards
      ensures cards == old(cards) + [c]
    {
      cards := cards + [c];
    }

    /** Copies each entry of `m` into the table (a nil table panics unless `m` is empty). */
    method SetRankValues(m: map<Rank, int>)
      requires rankValues.Some? || m == map[]
      modifies this`rankValues
      ensures old(rankValues).None? ==> rankValues == old(rankValues)
      ensures old(rankValues).Some? ==> rankValues == Some(old(rankValues).value + m)
    {
      if rankValues.Some? {
        var table := Overlay(rankValues.value, m);
        assert table == rankValues.value + m;
        rankValues := Some(table);
      }
    }

    method SetRankValue(r: Rank, value: int)
      requires rankValues.Some?
      modifies this`rankValues
      ensures rankValues == Some(old(rankValues).value[r := value])
      ensures RankValue(r) == value
      ensures forall other :: other != r ==> RankValue(other) == old(RankValue(other))
    {
      rankValues := Some(rankValues.value[r := value]);
    }

    /** Copies the default table back over the current one. */
    method ResetRankValues()
      requires rankValues.Some?
      modifies this`rankValues
      ensures rankValues == Some(old(rankValues).value + DefaultRankValues)
      ensures forall r :: RankValue(r) == if r == Null then 0 else RankOrdinal(r) + 1
    {
      var table := Overlay(rankValues.value, DefaultRankValues);
      assert table == rankValues.value + DefaultRankValues;
      rankValues := Some(table);
      forall r ensures RankValue(r) == if r == Null then 0 else RankOrdinal(r) + 1 {
        DefaultRankValue(r);
      }
    }

    /** Looks a rank up in the table; a missing entry or a nil table reads as Go's zero value. */
    function RankValue(r: Rank): (v: int)
      reads this
      ensures rankValues.None? || r !in rankValues.value ==> v == 0
      ensures rankValues.Some? && r in rankValues.value ==> v == rankValues.value[r]
    {
      if rankValues.Some? && r in rankValues.value then rankValues.value[r] else 0
    }
  }

  lemma {:induction false} PrefixSafe(c: DeckSettings, all: seq<DeckOption>, k: nat)
    requires k <= |all| && SafeOptions(c, all)
    ensures SafeOptions(c, all[..k])
    decreases |all| - k
  {
    if k < |all| {
      var init := all[..|all| - 1];
      assert init[..k] == all[..k];
      PrefixSafe(c, init, k);
    } else {
      assert all[..k] == all;
    }
  }

  lemma {:induction false} PrefixErrorSticks(c: DeckSettings, all: seq<DeckOption>, k: nat)
    requires k <= |all| && SafeOptions(c, all)
    requires SafeOptions(c, all[..k]) && ApplyAll(c, all[..k]).1.Some?
    ensures ApplyAll(c, all) == ApplyAll(c, all[..k])
    decreases |all| - k
  {
    if k < |all| {
      var init := all[..|all| - 1];
      assert init[..k] == all[..k];
      PrefixErrorSticks(c, init, k);
    } else {
      assert all[..k] == all;
    }
  }
}
