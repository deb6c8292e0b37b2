/** The two cards shown for a hand class: ranks from the hand's first two
    characters, suits from its suffix. */
module HandCard {
  import opened Types

  datatype Suit = H | D | C | S

  /** The two cards: a rank and a suit each. */
  datatype Cards = Cards(r1: string, s1: Suit, r2: string, s2: Suit)

  /** `handToCards`. A hand shorter than two characters shows two unknown
      cards; otherwise the first card is a heart, and the second a heart as
      well only when the third character is "s". */
  function HandToCards(hand: string): (c: Cards)
    ensures |hand| < 2 ==> c == Cards("?", S, "?", H)
    ensures |hand| >= 2 ==> c.r1 == hand[..1] && c.r2 == hand[1..2]
    ensures |hand| >= 2 ==> c.s1 == H && c.s2 in {H, S}
    ensures |hand| >= 2 ==> (c.s1 == c.s2 <==> |hand| >= 3 && hand[2] == 's')
  {
    if |hand| < 2 then Cards("?", S, "?", H)
    else
      var r1, r2 := [hand[0]], [hand[1]];
      if |hand| < 3 then Cards(r1, H, r2, S)
      else if hand[2] == 's' then Cards(r1, H, r2, H)
      else Cards(r1, H, r2, S)
  }

  /** For every hand of the grid: the ranks are the hand's two ranks, higher
      first, and the suits agree exactly on the suited hands, above the
      diagonal. */
  lemma GridHandCards(i: nat, j: nat)
    requires i < 13 && j < 13
    ensures var c := HandToCards(HandKeyFromIJ(i, j));
      && c.r1 == [Ranks[if i < j then i else j]]
      && c.r2 == [Ranks[if i < j then j else i]]
      && (c.s1 == c.s2 <==> j > i)
  {
    var h := HandKeyFromIJ(i, j);
    assert h[..1] == [h[0]] && h[1..2] == [h[1]];
  }

  /** No hand of the grid shows the same card twice. */
  lemma GridHandCardsDiffer(i: nat, j: nat)
    requires i < 13 && j < 13
    ensures var c := HandToCards(HandKeyFromIJ(i, j)); (c.r1, c.s1) != (c.r2, c.s2)
  {
    GridHandCards(i, j);
    RanksDistinct();
    var c := HandToCards(HandKeyFromIJ(i, j));
    if i != j && j > i {
      assert c.r1[0] == Ranks[i] && c.r2[0] == Ranks[j];
    }
  }
}
