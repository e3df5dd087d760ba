/**
 * Suits of the latest revision (`godeck` package): an integer enumeration
 * whose zero value `None` stands for "no suit" / "no trump".
 */
module GodeckSuit {

  datatype Suit = None | Hearts | Diamonds | Clubs | Spades

  /** The integer value Go gives each constant (`iota` order). */
  function SuitOrdinal(s: Suit): (n: nat)
    ensures n <= 4
  {
    match s
    case None => 0
    case Hearts => 1
    case Diamonds => 2
    case Clubs => 3
    case Spades => 4
  }

  /** The constant with integer value `n`; the inverse of `SuitOrdinal`. */
  function SuitFromOrdinal(n: nat): (s: Suit)
    requires n <= 4
    ensures SuitOrdinal(s) == n
  {
    if n == 0 then None
    else if n == 1 then Hearts
    else if n == 2 then Diamonds
    else if n == 3 then Clubs
    else Spades
  }

  lemma SuitOrdinalRoundTrip(s: Suit)
    ensures SuitFromOrdinal(SuitOrdinal(s)) == s
  {
  }

  /** The four playing suits are exactly the contiguous ordinals Hearts..Spades. */
  lemma RealSuitsContiguous(s: Suit)
    ensures s != None <==> SuitOrdinal(Hearts) <= SuitOrdinal(s) <= SuitOrdinal(Spades)
  {
  }

  /** `Suit.String`. */
  function SuitString(s: Suit): (r: string)
    ensures |r| >= 4
  {
    match s
    case None => "None"
    case Hearts => "Hearts"
    case Diamonds => "Diamonds"
    case Clubs => "Clubs"
    case Spades => "Spades"
  }

  lemma SuitStringInjective(a: Suit, b: Suit)
    ensures SuitString(a) == SuitString(b) ==> a == b
  {
    if SuitString(a) == SuitString(b) {
      assert SuitString(a)[0] == SuitString(b)[0];
    }
  }

  /**
   * `Suit.Symbol`: one character per suit, "N" for `None`. A `string` here is
   * a sequence of characters; Go's `len` counts the suit symbols as 3 bytes.
   */
  function SuitSymbol(s: Suit): (r: string)
    ensures |r| == 1
  {
    match s
    case Hearts => "♥"
    case Diamonds => "♦"
    case Clubs => "♣"
    case Spades => "♠"
    case None => "N"
  }

  lemma SuitSymbolInjective(a: Suit, b: Suit)
    ensures SuitSymbol(a) == SuitSymbol(b) ==> a == b
  {
    if SuitSymbol(a) == SuitSymbol(b) {
      assert SuitSymbol(a)[0] == SuitSymbol(b)[0];
    }
  }
}
