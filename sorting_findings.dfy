// Two runs of the same card life: built face-up, sorted, turned face-down,
// sorted again. Gathered as written (inactive objects skipped, result cached),
// the back never joins the cache and stays under the face; gathered with
// inactive objects included, it ends above the face.

module SortingFindings {
  import opened Cards

  /** An active face followed by an inactive back gathers to the face alone. */
  lemma GatheredSkipsInactiveBack(face: SpriteRenderer, back: SpriteRenderer)
    requires face.active && !back.active
    ensures Gathered([face, back], false) == [face]
  {
    var single := [face];
    assert single[..0] == [] && single[0] == face;
    assert Gathered(single, false) == [face];
    var pair := [face, back];
    assert pair[..1] == single && pair[1] == back;
    assert Gathered(pair, false) == Gathered(single, false);
  }

  /** A new card "C5" with one renderer on its own object, initialised face-up. */
  method NewFaceUpCard() returns (card: Card, face: SpriteRenderer)
    ensures fresh(card) && fresh(face) && card.back != null && fresh(card.back)
    ensures card.children == [face, card.back] && card.spriteRenderers == null
    ensures face.active && !card.back.active && face != card.back
    ensures LayerOf(face) == CardFace && LayerOf(card.back) == CardBack && card.back.sortingOrder == 2
  {
    face := new SpriteRenderer(true, "C5", 0, true);
    card := new Card("Card", false, [face]);
    card.Init('C', 5, []);
  }

  /** Turns a card gathered with only its face down and sorts it again: the back was
      never gathered, so the re-sort leaves it where it was. */
  method TurnDownAndResort(card: Card, face: SpriteRenderer, sOrd: int)
    requires card.back != null && card.spriteRenderers != null && card.spriteRenderers[..] == [face]
    requires card.back in card.children && card.back != face && LayerOf(face) == CardFace
    modifies card`spriteRenderers, card.back`active, face`sortingOrder
    ensures !card.FaceUp() && face.sortingOrder == sOrd
    ensures card.back.sortingOrder == old(card.back.sortingOrder)
  {
    card.SetFaceUp(false);
    card.SetSortingOrder(sOrd);
    assert card.spriteRenderers[0] == face;
  }

  /** Sorts a face-up card for the first time: only the face is gathered and moved. */
  method FirstSortSkipsBack(card: Card, face: SpriteRenderer, sOrd: int)
    requires card.back != null && card.children == [face, card.back] && card.spriteRenderers == null
    requires face.active && !card.back.active && LayerOf(face) == CardFace
    modifies card`spriteRenderers, face`sortingOrder, card.back`sortingOrder
    ensures card.spriteRenderers != null && card.spriteRenderers[..] == [face]
    ensures face.sortingOrder == sOrd && card.back.sortingOrder == old(card.back.sortingOrder)
  {
    var b := card.back;
    GatheredSkipsInactiveBack(face, b);
    assert card.Renderers() == {face, b};
    card.SetSortingOrder(sOrd);
    assert card.spriteRenderers[0] == face;
  }

  /** As written: the back keeps the order 2 that AddBack gave it, under a face at 20. */
  method FaceUpSortLeavesBackUnderFace() returns (faceOrder: int, backOrder: int)
    ensures faceOrder == 20 && backOrder == 2
    ensures backOrder < faceOrder
  {
    var card, face := NewFaceUpCard();
    var b := card.back;
    FirstSortSkipsBack(card, face, 10);
    TurnDownAndResort(card, face, 20);
    faceOrder, backOrder := face.sortingOrder, b.sortingOrder;
  }

  /** Corrected: the back is gathered too, so it lies two above the face. */
  method FaceUpSortAllKeepsBackAboveFace() returns (faceOrder: int, backOrder: int)
    ensures faceOrder == 20 && backOrder == 22
    ensures faceOrder < backOrder
  {
    var card, face := NewFaceUpCard();
    card.SetSortingOrderAll(10);
    assert card.spriteRenderers[..] == [face, card.back];
    card.SetFaceUp(false);
    card.SetSortingOrderAll(20);
    assert card.spriteRenderers[..] == [face, card.back];
    assert card.spriteRenderers[0] == face && card.spriteRenderers[1] == card.back;
    faceOrder, backOrder := face.sortingOrder, card.back.sortingOrder;
  }
}
