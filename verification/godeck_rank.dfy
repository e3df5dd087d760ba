/**
 * Ranks of the latest revision (`godeck` package): an integer enumeration
 * from `Null` (0, the rank of the empty card) to `Ace` (13), with a default
 * table of point values.
 */
module GodeckRank {

  datatype Rank = Null | Two | Three | Four | Five | Six | Seven | Eight
                | Nine | Ten | Jack | Queen | King | Ace

  /** The integer value Go gives each constant (`iota` order). */
  function RankOrdinal(r: Rank): (n: nat)
    ensures n <= 13
  {
    match r
    case Null => 0
    case Two => 1
    case Three => 2
    case Four => 3
    case Five => 4
    case Six => 5
    case Seven => 6
    case Eight => 7
    case Nine => 8
    case Ten => 9
    case Jack => 10
    case Queen => 11
    case King => 12
    case Ace => 13
  }

  /** The constant with integer value `n`; the inverse of `RankOrdinal`. */
  function RankFromOrdinal(n: nat): (r: Rank)
    requires n <= 13
    ensures RankOrdinal(r) == n
  {
    [Null, Two, Three, Four, Five, Six, Seven, Eight, Nine, Ten, Jack, Queen, King, Ace][n]
  }

  lemma RankOrdinalRoundTrip(r: Rank)
    ensures RankFromOrdinal(RankOrdinal(r)) == r
  {
  }

  /** Distinct ranks have distinct integer values. */
  lemma RankOrdinalInjective(a: Rank, b: Rank)
    ensures RankOrdinal(a) == RankOrdinal(b) ==> a == b
  {
    RankOrdinalRoundTrip(a);
    RankOrdinalRoundTrip(b);
  }

  /** `Null` sits strictly below every real rank, and Nine..Ace are six consecutive values. */
  lemma NullIsLowest(r: Rank)
    ensures r != Null ==> RankOrdinal(Null) < RankOrdinal(r)
    ensures RankOrdinal(Ace) - RankOrdinal(Nine) == 5
  {
  }

  /** `defaultRankValues`. */
  const DefaultRankValues: map<Rank, int> :=
    map[Null := 0, Two := 2, Three := 3, Four := 4, Five := 5, Six := 6, Seven := 7,
        Eight := 8, Nine := 9, Ten := 10, Jack := 11, Queen := 12, King := 13, Ace := 14]

  /** The default table covers every rank: 0 for `Null`, ordinal + 1 (2..14) otherwise. */
  lemma DefaultRankValue(r: Rank)
    ensures r in DefaultRankValues
    ensures DefaultRankValues[r] == if r == Null then 0 else RankOrdinal(r) + 1
  {
  }

  /** `Rank.String`. */
  function RankString(r: Rank): (s: string)
    ensures |s| >= 3
    ensures forall k :: 0 <= k < |s| ==> s[k] != ' '
  {
    match r
    case Null => "Null"
    case Two => "Two"
    case Three => "Three"
    case Four => "Four"
    case Five => "Five"
    case Six => "Six"
    case Seven => "Seven"
    case Eight => "Eight"
    case Nine => "Nine"
    case Ten => "Ten"
    case Jack => "Jack"
    case Queen => "Queen"
    case King => "King"
    case Ace => "Ace"
  }

  /** `Rank.Symbol`: digits for the pip ranks ("10" for Ten), a letter for the face ranks. */
  function RankSymbol(r: Rank): (s: string)
    ensures |s| == (if r == Ten then 2 else 1)
  {
    match r
    case Null => "0"
    case Two => "2"
    case Three => "3"
    case Four => "4"
    case Five => "5"
    case Six => "6"
    case Seven => "7"
    case Eight => "8"
    case Nine => "9"
    case Ten => "10"
    case Jack => "J"
    case Queen => "Q"
    case King => "K"
    case Ace => "A"
  }

  lemma RankStringInjective(a: Rank, b: Rank)
    ensures RankString(a) == RankString(b) ==> a == b
  {
  }

  lemma RankSymbolInjective(a: Rank, b: Rank)
    ensures RankSymbol(a) == RankSymbol(b) ==> a == b
  {
  }
}
