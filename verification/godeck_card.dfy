/**
 * The card value of the latest revision (`godeck` package): a rank and a
 * suit, compared field by field. The Go accessors `Rank()` and `Suit()` are
 * the datatype's destructors `rank` and `suit`.
 */
module GodeckCard {
  import opened GodeckRank
  import opened GodeckSuit

  datatype Card = Card(rank: Rank, suit: Suit)

  /** The sentinel "no card": Go's zero `Card{}`. */
  function EmptyCard(): (c: Card)
    ensures c.rank == Null && c.suit == None
    ensures RankOrdinal(c.rank) == 0 && SuitOrdinal(c.suit) == 0
  {
    Card(Null, None)
  }

  function NewCard(r: Rank, s: Suit): (c: Card)
    ensures c.rank == r && c.suit == s
  {
    Card(r, s)
  }

  /** Only the sentinel has the `Null` rank or the `None` suit among cards built from real values. */
  lemma EmptyCardIsSentinel(r: Rank, s: Suit)
    ensures NewCard(r, s) == EmptyCard() <==> r == Null && s == None
  {
  }

  /** `Card.String`: "<rank name> of <suit name>". */
  function CardString(c: Card): (s: string)
  {
    RankString(c.rank) + " of " + SuitString(c.suit)
  }

  /** Distinct cards print differently: the rank name ends at the first space. */
  lemma {:induction false} CardStringInjective(c1: Card, c2: Card)
    ensures CardString(c1) == CardString(c2) ==> c1 == c2
  {
    var r1, r2 := RankString(c1.rank), RankString(c2.rank);
    var s1, s2 := CardString(c1), CardString(c2);
    if s1 == s2 {
      assert s1[|r1|] == ' ' && s2[|r2|] == ' ';
      assert forall k :: 0 <= k < |r1| ==> s1[k] == r1[k] != ' ';
      assert forall k :: 0 <= k < |r2| ==> s2[k] == r2[k] != ' ';
      assert |r1| == |r2|;
      assert r1 == s1[..|r1|] == s2[..|r2|] == r2;
      RankStringInjective(c1.rank, c2.rank);
      assert SuitString(c1.suit) == s1[|r1| + 4..] == s2[|r2| + 4..] == SuitString(c2.suit);
      SuitStringInjective(c1.suit, c2.suit);
    }
  }
}
