// A playing card of the Prospector game: its suit and rank, the colour name
// derived from the suit, its name, its face-up flag (the inverse of whether
// the back sprite's object is active) and the sorting order of the sprites it
// renders with, gathered once from the active objects of the card. The
// rank-adjacency rule that decides which cards match is a function of two
// card views.

module Cards {
  import opened Decimal

  /** What the matching rule looks at in a card: its rank and whether it is face-up. */
  datatype CardView = CardView(rank: int, faceUp: bool)

  /** The place of a sprite in a card's stack: the card face itself, the back,
      or anything in between (decorators, pips, face art). */
  datatype Layer = CardFace | CardBack | Between

  /** A sprite renderer found on a card or on one of its child objects. */
  class SpriteRenderer {
    // true when the renderer sits on the card's own game object
    const onCardObject: bool
    // the name of the game object the renderer sits on
    const objectName: string
    var sortingOrder: int
    // whether the game object the renderer sits on is active
    var active: bool

    constructor (onCardObject: bool, objectName: string, sortingOrder: int, active: bool)
      ensures this.onCardObject == onCardObject && this.objectName == objectName
      ensures this.sortingOrder == sortingOrder && this.active == active
    {
      this.onCardObject := onCardObject;
      this.objectName := objectName;
      this.sortingOrder := sortingOrder;
      this.active := active;
    }
  }

  /** Which layer a renderer belongs to: the card's own object first, then the object named "back". */
  function LayerOf(r: SpriteRenderer): (l: Layer)
    ensures l == CardFace <==> r.onCardObject
    ensures l == CardBack <==> !r.onCardObject && r.objectName == "back"
  {
    if r.onCardObject then CardFace else if r.objectName == "back" then CardBack else Between
  }

  /** The sorting order a renderer of the given layer receives for a card at order sOrd. */
  function OrderFor(layer: Layer, sOrd: int): (o: int)
    ensures sOrd <= o <= sOrd + 2
    ensures o == sOrd <==> layer == CardFace
    ensures o == sOrd + 2 <==> layer == CardBack
  {
    match layer
    case CardFace => sOrd
    case CardBack => sOrd + 2
    case Between => sOrd + 1
  }

  /** The back covers the pips and decorators, which cover the face. */
  lemma BackAboveBetweenAboveFace(sOrd: int)
    ensures OrderFor(CardFace, sOrd) < OrderFor(Between, sOrd) < OrderFor(CardBack, sOrd)
  {
  }

  /** Every face renderer lies under every other one, and every back renderer over every other one. */
  ghost predicate StackedByLayer(rs: seq<SpriteRenderer>)
    reads set r | r in rs
  {
    forall j, k :: 0 <= j < |rs| && 0 <= k < |rs| ==>
      (LayerOf(rs[j]) == CardFace && LayerOf(rs[k]) != CardFace ==> rs[j].sortingOrder < rs[k].sortingOrder) &&
      (LayerOf(rs[j]) != CardBack && LayerOf(rs[k]) == CardBack ==> rs[j].sortingOrder < rs[k].sortingOrder)
  }

  /** Renderers that each carry the order of their layer are stacked face, in-between, back. */
  lemma OrderedByLayerIsStacked(rs: seq<SpriteRenderer>, sOrd: int)
    requires forall j :: 0 <= j < |rs| ==> rs[j].sortingOrder == OrderFor(LayerOf(rs[j]), sOrd)
    ensures StackedByLayer(rs)
  {
    BackAboveBetweenAboveFace(sOrd);
  }

  /** GetComponentsInChildren<SpriteRenderer>(includeInactive): the renderers in scene order,
      without those on inactive objects unless includeInactive is set. */
  function Gathered(cs: seq<SpriteRenderer>, includeInactive: bool): (g: seq<SpriteRenderer>)
    reads (set r | r in cs)`active
    ensures forall r :: r in g ==> r in cs && (includeInactive || r.active)
    ensures forall r :: r in cs && (includeInactive || r.active) ==> r in g
    ensures includeInactive ==> g == cs
    decreases |cs|
  {
    if cs == [] then []
    else
      var rest := Gathered(cs[..|cs| - 1], includeInactive);
      var last := cs[|cs| - 1];
      assert cs == cs[..|cs| - 1] + [last];
      if includeInactive || last.active then rest + [last] else rest
  }

  predicate IsRedSuit(s: char) { s == 'D' || s == 'H' }

  /** The name a card takes: its suit character followed by the decimal text of its rank.
      The name determines both. */
  function CardName(s: char, r: int): (n: string)
    ensures |n| >= 2 && n[0] == s
    ensures IsIntText(n[1..]) && IntValue(n[1..]) == r
  {
    IntRoundTrip(r);
    assert ([s] + IntToDecimal(r))[1..] == IntToDecimal(r);
    [s] + IntToDecimal(r)
  }

  lemma NameIdentifiesCard(s1: char, r1: int, s2: char, r2: int)
    requires CardName(s1, r1) == CardName(s2, r2)
    ensures s1 == s2 && r1 == r2
  {
  }

  class Card {
    // the runtime type: a CardProspector rather than a plain Card
    const isProspector: bool
    var suit: char
    var rank: int
    var colS: string
    var name: string
    // the renderer of the back object; null until Init makes it
    var back: SpriteRenderer?
    // the renderers on the card and its children, as the scene holds them
    var children: seq<SpriteRenderer>
    // the cached result of gathering the renderers; null until gathered
    var spriteRenderers: array?<SpriteRenderer>

    /** A card object as instantiated from the prefab, before Init. */
    constructor (objectName: string, isProspector: bool, components: seq<SpriteRenderer>)
      requires forall r :: r in components && r.onCardObject ==> r.active
      ensures this.isProspector == isProspector && name == objectName
      ensures suit == '\0' && rank == 0 && colS == "Black"
      ensures back == null && children == components && spriteRenderers == null
    {
      this.isProspector := isProspector;
      name := objectName;
      suit, rank, colS := '\0', 0, "Black";
      back := null;
      children := components;
      spriteRenderers := null;
    }

    /** The faceUp getter: the card shows its face exactly when the back object is inactive. */
    function FaceUp(): (up: bool)
      reads this, back
      requires back != null
      ensures up <==> !back.active
    {
      !back.active
    }

    method SetFaceUp(v: bool)
      requires back != null
      modifies back`active
      ensures back.active == !v
      ensures FaceUp() == v
    {
      back.active := !v;
    }

    function View(): CardView
      reads this, back
      requires back != null
    {
      CardView(rank, FaceUp())
    }

    /** Sets suit, rank, colour name and name, builds the sprites and turns the card
        face-up or face-down. The decorator, pip and face sprites arrive as built
        (child objects at order 1, none named "back"); the back sprite is made here. */
    method Init(eSuit: char, eRank: int, built: seq<SpriteRenderer>, startFaceUp: bool := true)
      requires forall r :: r in built ==> !r.onCardObject && r.objectName != "back" && r.sortingOrder == 1
      modifies this`name, this`suit, this`rank, this`colS, this`back, this`children
      ensures name == CardName(eSuit, eRank) && suit == eSuit && rank == eRank
      ensures colS == if IsRedSuit(eSuit) then "Red" else old(colS)
      ensures back != null && fresh(back) && children == old(children) + built + [back]
      ensures FaceUp() == startFaceUp
      ensures LayerOf(back) == CardBack && back.sortingOrder == OrderFor(CardBack, 0)
      ensures forall r :: r in built ==> LayerOf(r) == Between && r.sortingOrder == OrderFor(Between, 0)
    {
      name := CardName(eSuit, eRank);
      suit := eSuit;
      rank := eRank;
      if suit == 'D' || suit == 'H' {
        colS := "Red";
      }
      var b := new SpriteRenderer(false, "back", 2, true);
      back := b;
      children := children + built + [b];
      SetFaceUp(startFaceUp);
    }

    /** The renderers a re-sort may touch: the cached array once gathered, otherwise those in the scene. */
    function Renderers(): set<SpriteRenderer>
      reads this, spriteRenderers
    {
      if spriteRenderers == null then set r | r in children else set r | r in spriteRenderers[..]
    }

    /** Fills the cache, once, with GetComponentsInChildren(includeInactive). */
    method GatherOnce(includeInactive: bool)
      modifies this`spriteRenderers
      ensures spriteRenderers != null
      ensures old(spriteRenderers) != null ==> spriteRenderers == old(spriteRenderers)
      ensures old(spriteRenderers) == null ==>
                fresh(spriteRenderers) && spriteRenderers[..] == Gathered(children, includeInactive)
    {
      if spriteRenderers != null {
        return;
      }
      var cs := Gathered(children, includeInactive);
      spriteRenderers := new SpriteRenderer[|cs|](i requires 0 <= i < |cs| => cs[i]);
    }

    /** Gathers the renderers into the cache, once, skipping those on inactive objects
        (the call omits includeInactive). */
    method PopulateSpriteRenderers()
      modifies this`spriteRenderers
      ensures spriteRenderers != null
      ensures old(spriteRenderers) != null ==> spriteRenderers == old(spriteRenderers)
      ensures old(spriteRenderers) == null ==>
                fresh(spriteRenderers) && spriteRenderers[..] == Gathered(children, false)
    {
      GatherOnce(false);
    }

    /** The gathering the doc comment describes: all renderers, inactive ones included. */
    method PopulateAllSpriteRenderers()
      modifies this`spriteRenderers
      ensures spriteRenderers != null
      ensures old(spriteRenderers) != null ==> spriteRenderers == old(spriteRenderers)
      ensures old(spriteRenderers) == null ==> fresh(spriteRenderers) && spriteRenderers[..] == children
    {
      GatherOnce(true);
    }

    /** The foreach over the cache: each renderer gets the order of its layer. */
    method SortGathered(sOrd: int)
      requires spriteRenderers != null
      modifies Renderers()`sortingOrder
      ensures forall j :: 0 <= j < spriteRenderers.Length ==>
                spriteRenderers[j].sortingOrder == OrderFor(LayerOf(spriteRenderers[j]), sOrd)
      ensures StackedByLayer(spriteRenderers[..])
    {
      var a := spriteRenderers;
      for i := 0 to a.Length
        invariant forall j :: 0 <= j < i ==> a[j].sortingOrder == OrderFor(LayerOf(a[j]), sOrd)
      {
        a[i].sortingOrder := OrderFor(LayerOf(a[i]), sOrd);
      }
      OrderedByLayerIsStacked(a[..], sOrd);
    }

    /** Gathers once (skipping inactive objects) and gives every gathered renderer the
        order of its layer: the face sOrd, the back sOrd + 2, everything else sOrd + 1.
        Renderers that were not gathered keep their order. By OrderedByLayerIsStacked
        the gathered renderers are then stacked face, in-between, back. */
    method SetSortingOrder(sOrd: int)
      modifies this`spriteRenderers, Renderers()`sortingOrder
      ensures spriteRenderers != null
      ensures old(spriteRenderers) != null ==> spriteRenderers == old(spriteRenderers)
      ensures old(spriteRenderers) == null ==>
                fresh(spriteRenderers) && spriteRenderers[..] == Gathered(children, false)
      ensures forall j :: 0 <= j < spriteRenderers.Length ==>
                spriteRenderers[j].sortingOrder == OrderFor(LayerOf(spriteRenderers[j]), sOrd)
      ensures forall r :: r in children && r !in spriteRenderers[..] ==> r.sortingOrder == old(r.sortingOrder)
    {
      PopulateSpriteRenderers();
      SortGathered(sOrd);
    }

    /** SetSortingOrder over the corrected gathering: on a card gathered for the first
        time every renderer, the back included, gets the order of its layer. */
    method SetSortingOrderAll(sOrd: int)
      modifies this`spriteRenderers, Renderers()`sortingOrder
      ensures spriteRenderers != null
      ensures old(spriteRenderers) != null ==> spriteRenderers == old(spriteRenderers)
      ensures old(spriteRenderers) == null ==> fresh(spriteRenderers) && spriteRenderers[..] == children
      ensures forall j :: 0 <= j < spriteRenderers.Length ==>
                spriteRenderers[j].sortingOrder == OrderFor(LayerOf(spriteRenderers[j]), sOrd)
      ensures forall r :: r in children && r !in spriteRenderers[..] ==> r.sortingOrder == old(r.sortingOrder)
    {
      PopulateAllSpriteRenderers();
      SortGathered(sOrd);
    }
  }

  /** The ranks next to x: one either side, and with wrap the Ace (1) and King (13) touch. */
  function NeighbourRanks(x: int, wrap: bool): set<int>
  {
    {x - 1, x + 1} + (if wrap && x == 1 then {13} else {}) + (if wrap && x == 13 then {1} else {})
  }

  function Abs(x: int): nat { if x < 0 then -x else x }

  /** The matching rule: both cards face-up and their ranks adjacent, the Ace/King pair counting when wrap is set. */
  function AdjacentTo(a: CardView, b: CardView, wrap: bool := true): (r: bool)
    ensures !a.faceUp || !b.faceUp ==> !r
    ensures a.faceUp && b.faceUp ==> (r <==> b.rank in NeighbourRanks(a.rank, wrap))
  {
    if !a.faceUp || !b.faceUp then false
    else if Abs(a.rank - b.rank) == 1 then true
    else if wrap && a.rank == 1 && b.rank == 13 then true
    else if wrap && a.rank == 13 && b.rank == 1 then true
    else false
  }

  lemma FaceDownNeverAdjacent(a: CardView, b: CardView, wrap: bool)
    requires !a.faceUp || !b.faceUp
    ensures !AdjacentTo(a, b, wrap)
  {
  }

  lemma OneApartAdjacent(a: CardView, b: CardView, wrap: bool)
    requires a.faceUp && b.faceUp
    requires a.rank - b.rank == 1 || b.rank - a.rank == 1
    ensures AdjacentTo(a, b, wrap)
  {
  }

  lemma AceKingWrap(a: CardView, b: CardView)
    requires a.faceUp && b.faceUp
    requires (a.rank == 1 && b.rank == 13) || (a.rank == 13 && b.rank == 1)
    ensures AdjacentTo(a, b, true) && AdjacentTo(a, b)  // wrap defaults to true
    ensures !AdjacentTo(a, b, false)
  {
  }

  /** Nothing else is adjacent: not equal ranks, not ranks two or more apart, not a wrap other than Ace/King. */
  lemma OnlyNeighboursAdjacent(a: CardView, b: CardView, wrap: bool)
    ensures AdjacentTo(a, b, wrap) ==>
              a.faceUp && b.faceUp &&
              (a.rank - b.rank == 1 || b.rank - a.rank == 1 ||
               (wrap && ((a.rank == 1 && b.rank == 13) || (a.rank == 13 && b.rank == 1))))
    ensures a.rank == b.rank ==> !AdjacentTo(a, b, wrap)
  {
  }

  lemma AdjacentSymmetric(a: CardView, b: CardView, wrap: bool)
    ensures AdjacentTo(a, b, wrap) == AdjacentTo(b, a, wrap)
  {
  }

  /** Setting faceUp to false on a card takes it out of matching: whatever the other card
      and the wrap, the two are not adjacent. */
  method TurnDownMatchesNothing(c: Card, d: Card, wrap: bool)
    requires c.back != null && d.back != null
    modifies c.back`active
    ensures !c.FaceUp()
    ensures !AdjacentTo(c.View(), d.View(), wrap)
  {
    c.SetFaceUp(false);
  }
}
