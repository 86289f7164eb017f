// The Prospector game object: at start it takes the shuffled deck and turns
// it into the draw pile, viewing every card as a CardProspector. C#'s `as`
// gives the same card when it is a CardProspector and null otherwise, so a
// plain card leaves a null in its place rather than being dropped.

module ProspectorGame {
  import opened Cards

  /** `card as CardProspector`: the card itself when its runtime type is CardProspector, otherwise null. */
  function AsProspector(card: Card?): (cp: Card?)
    ensures cp == null || cp == card
    ensures cp != null <==> card != null && card.isProspector
  {
    if card != null && card.isProspector then card else null
  }

  /** The list the conversion builds: one entry per input card, appended in input order. */
  function Converted(cards: seq<Card?>): (r: seq<Card?>)
    ensures |r| == |cards|
    decreases |cards|
  {
    if cards == [] then [] else Converted(cards[..|cards| - 1]) + [AsProspector(cards[|cards| - 1])]
  }

  lemma {:induction false} ConvertedAt(cards: seq<Card?>, i: int)
    requires 0 <= i < |cards|
    ensures Converted(cards)[i] == AsProspector(cards[i])
    decreases |cards|
  {
    if i < |cards| - 1 {
      ConvertedAt(cards[..|cards| - 1], i);
    }
  }

  /** Each position keeps its card exactly when that card is a CardProspector (or already null),
      and holds null exactly when it is not; no card is skipped or moved. */
  lemma ConvertedKeepsOrNulls(cards: seq<Card?>)
    ensures |Converted(cards)| == |cards|
    ensures forall i :: 0 <= i < |cards| ==>
              (Converted(cards)[i] == cards[i] <==> cards[i] == null || cards[i].isProspector)
    ensures forall i :: 0 <= i < |cards| ==>
              (Converted(cards)[i] == null <==> cards[i] == null || !cards[i].isProspector)
  {
    forall i | 0 <= i < |cards| ensures Converted(cards)[i] == AsProspector(cards[i]) {
      ConvertedAt(cards, i);
    }
  }

  /** Every non-null entry of the result is a CardProspector. */
  lemma ConvertedOnlyProspectors(cards: seq<Card?>)
    ensures forall c :: c in Converted(cards) && c != null ==> c.isProspector
  {
    ConvertedKeepsOrNulls(cards);
  }

  /** A deck made only of CardProspectors comes through unchanged. */
  lemma ConvertedAllProspectors(cards: seq<Card?>)
    requires forall i :: 0 <= i < |cards| ==> cards[i] != null && cards[i].isProspector
    ensures Converted(cards) == cards
  {
    ConvertedKeepsOrNulls(cards);
  }

  class Prospector {
    var drawPile: seq<Card?>
    // deck.cards: the deck's card list as the Deck component holds it
    var deckCards: seq<Card?>

    constructor ()
      ensures drawPile == [] && deckCards == []
    {
      drawPile, deckCards := [], [];
    }

    /** Takes the deck as it stands after it was built and shuffled and makes the draw pile from it. */
    method Start(shuffled: seq<Card?>)
      modifies this
      ensures deckCards == shuffled
      ensures drawPile == Converted(deckCards) && |drawPile| == |deckCards|
    {
      deckCards := shuffled;
      drawPile := ConvertCardsToCardsProspectors(deckCards);
    }

    /** Builds a new list by appending each card viewed as a CardProspector. */
    method ConvertCardsToCardsProspectors(listCard: seq<Card?>) returns (listCP: seq<Card?>)
      ensures listCP == Converted(listCard)
    {
      listCP := [];
      for i := 0 to |listCard|
        invariant listCP == Converted(listCard[..i])
      {
        var cp := AsProspector(listCard[i]);
        assert listCard[..i + 1][..i] == listCard[..i];
        listCP := listCP + [cp];
      }
      assert listCard[..|listCard|] == listCard;
    }
  }
}
