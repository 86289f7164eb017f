# Prospector cards in Dafny

A model of the card logic of a Unity implementation of Prospector, a solitaire
in which a face-up tableau card may be played onto the target card when their
ranks are adjacent. Two source files are modelled:

- `Card.cs`: a card's suit, rank, colour name ("Red" for diamonds and hearts,
  otherwise the default "Black") and name (suit character followed by the
  rank in decimal); the `faceUp` property, which is the inverse of the back
  object's active flag; the one-time gathering of the sprite renderers on the
  card's active objects, and the re-sorting that puts the face at `sOrd`, the
  back at `sOrd + 2` and every other gathered sprite at `sOrd + 1`; and the
  `AdjacentTo` matching rule (both cards face-up, ranks one apart, Ace and
  King adjacent when `wrap` is set).
- `Prospector.cs`: the conversion of the shuffled deck's `List<Card>` into the
  `List<CardProspector>` draw pile with C#'s `as`, which keeps order and
  length and leaves `null` for any card that is not a `CardProspector`.

Files:

- `decimal.dfy` (module `Decimal`): the decimal text C# gives an `int`, with
  a parser and the round-trip lemma, so that a card's name determines its suit
  and rank.
- `cards.dfy` (module `Cards`): classes `SpriteRenderer` and `Card`, the
  `CardView` snapshot that the matching rule reads, `AdjacentTo` and its
  properties.
- `sorting_findings.dfy` (module `SortingFindings`): one card's life, traced with
  the gathering as written and with the corrected gathering (see Findings).
- `prospector.dfy` (module `ProspectorGame`): `AsProspector` (the `as` cast),
  the specification `Converted`, class `Prospector` with `Start` and
  `ConvertCardsToCardsProspectors`.

A card's runtime type is the constant `Card.isProspector`. A cast therefore
gives the same reference or `null`. Renderers are objects whose
`sortingOrder` is updated in place, and each carries the active flag of the
object it sits on. The card's `back` field is the back object's renderer. The
cached renderer array is a real `array` that is allocated once. C#'s default
arguments are kept: `wrap` defaults to true and `startFaceUp` to true.

## Model

| member | source | states |
|---|---|---|
| `Decimal.NatToDecimal` | Assets/Prospector/__Scripts/Card.cs:29 | the decimal text of a rank is non-empty, all digits, with no leading zero |
| `Decimal.NatRoundTrip` | Assets/Prospector/__Scripts/Card.cs:29 | reading the digits back gives the number they were written from |
| `Decimal.IntToDecimal` | Assets/Prospector/__Scripts/Card.cs:29 | the text starts with '-' exactly when the rank is negative |
| `Decimal.IntRoundTrip` | Assets/Prospector/__Scripts/Card.cs:29 | the text of any int is well-formed and parses back to that int |
| `Cards.CardName` | Assets/Prospector/__Scripts/Card.cs:29 | a card's name is its suit character followed by text that parses back to its rank |
| `Cards.NameIdentifiesCard` | Assets/Prospector/__Scripts/Card.cs:29 | two cards with the same name have the same suit and the same rank |
| `Cards.Gathered` | Assets/Prospector/__Scripts/Card.cs:186 | GetComponentsInChildren: a renderer is gathered exactly when it is on the card and its object is active, or inactive ones are included; including them gathers every renderer |
| `Cards.Card.constructor` | Assets/Prospector/__Scripts/Card.cs:8-12 | before Init, colS is "Black", there is no back object, and the renderer cache (line 177) is null; a renderer on the card's own object is on an active object |
| `Cards.Card.FaceUp` | Assets/Prospector/__Scripts/Card.cs:158-159 | the faceUp getter: the card is face-up exactly when its back object is inactive |
| `Cards.Card.Init` | Assets/Prospector/__Scripts/Card.cs:27-45 | suit and rank are stored; name is CardName(suit, rank); colS becomes "Red" for 'D' and 'H' and keeps its earlier value otherwise; the built sprites (order 1) and then a fresh back named "back" (order 2) are added, the starting orders of a card at 0; faceUp equals startFaceUp, which defaults to true |
| `Cards.Card.SetFaceUp` | Assets/Prospector/__Scripts/Card.cs:158-161 | setting faceUp to v makes the back object inactive exactly when v, and faceUp then reads v |
| `Cards.Card.GatherOnce` | Assets/Prospector/__Scripts/Card.cs:184-186 | the first call allocates an array holding the renderers GetComponentsInChildren returns; later calls keep the same array |
| `Cards.Card.PopulateSpriteRenderers` | Assets/Prospector/__Scripts/Card.cs:182-187 | the first call caches the renderers on active objects only, so the back of a face-up card is left out; later calls keep the same array |
| `Cards.Card.PopulateAllSpriteRenderers` | Assets/Prospector/__Scripts/Card.cs:180-186 | corrected gathering, as the doc comment says: the first call caches every renderer of the card, the back included |
| `Cards.Card.SortGathered` | Assets/Prospector/__Scripts/Card.cs:210-223 | the foreach gives every cached renderer the order of its layer, leaving them stacked face, in-between, back |
| `Cards.Card.SetSortingOrder` | Assets/Prospector/__Scripts/Card.cs:207-224 | after gathering once (active objects only), every cached renderer gets OrderFor its layer: the card's own object sOrd, the object named "back" sOrd+2, the others sOrd+1 (so, by OrderedByLayerIsStacked, the cache is stacked face below in-between below back); a renderer of the card that is not cached keeps its order |
| `Cards.Card.SetSortingOrderAll` | Assets/Prospector/__Scripts/Card.cs:207-224 | the same re-sort over the corrected gathering: on first gathering every renderer of the card, the back included, is cached and gets the order of its layer |
| `Cards.LayerOf` | Assets/Prospector/__Scripts/Card.cs:211-221 | a renderer is the face exactly when it sits on the card's own object, and the back exactly when it does not and its object is named "back"; all others lie between |
| `Cards.OrderFor` | Assets/Prospector/__Scripts/Card.cs:213-221 | each layer gets its own order within sOrd to sOrd + 2: the face exactly sOrd, the back exactly sOrd + 2 |
| `Cards.BackAboveBetweenAboveFace` | Assets/Prospector/__Scripts/Card.cs:211-222 | the back is ordered strictly above pips and decorators, which are strictly above the face |
| `Cards.OrderedByLayerIsStacked` | Assets/Prospector/__Scripts/Card.cs:211-222 | renderers that each carry their layer's order are stacked: every face below every other renderer, every back above every other renderer |
| `Cards.AdjacentTo` | Assets/Prospector/__Scripts/Card.cs:238-251 | false when either card is face-down; with both face-up, true exactly when the other rank is one of the neighbour ranks (±1, and 13 for an Ace and 1 for a King when wrap is set) |
| `Cards.FaceDownNeverAdjacent` | Assets/Prospector/__Scripts/Card.cs:240 | a face-down card is adjacent to nothing, whatever the ranks and wrap |
| `Cards.OneApartAdjacent` | Assets/Prospector/__Scripts/Card.cs:243 | face-up cards whose ranks differ by one are adjacent with and without wrap |
| `Cards.AceKingWrap` | Assets/Prospector/__Scripts/Card.cs:238-249 | face-up Ace and King are adjacent in either order with wrap, also when wrap is left at its default, and not without it |
| `Cards.OnlyNeighboursAdjacent` | Assets/Prospector/__Scripts/Card.cs:243-250 | an adjacent pair is face-up and one apart or the wrapped Ace/King pair; equal ranks are never adjacent |
| `Cards.TurnDownMatchesNothing` | Assets/Prospector/__Scripts/Card.cs:158-161 | after faceUp is set to false on a card, its snapshot is adjacent to no card's snapshot, for either wrap |
| `Cards.AdjacentSymmetric` | Assets/Prospector/__Scripts/Card.cs:238-251 | swapping the two cards does not change the answer |
| `SortingFindings.GatheredSkipsInactiveBack` | Assets/Prospector/__Scripts/Card.cs:186 | an active face followed by an inactive back gathers to the face alone |
| `SortingFindings.NewFaceUpCard` | Assets/Prospector/__Scripts/Card.cs:27-45 | a card initialised with the default startFaceUp holds its face and then its back, with the back's object inactive and at order 2 |
| `SortingFindings.FirstSortSkipsBack` | Assets/Prospector/__Scripts/Card.cs:207-224 | the first sort of a face-up card caches the face alone, moves it to sOrd and leaves the back's order as it was |
| `SortingFindings.TurnDownAndResort` | Assets/Prospector/__Scripts/Card.cs:158-161 | on a card whose cache holds only its face, turning it face-down and re-sorting moves the face and leaves the back's order as it was |
| `SortingFindings.FaceUpSortLeavesBackUnderFace` | Assets/Prospector/__Scripts/Card.cs:184-186 | as written: Init face-up, sort at 10, turn face-down, sort at 20 leaves the back at 2 under the face at 20 |
| `SortingFindings.FaceUpSortAllKeepsBackAboveFace` | Assets/Prospector/__Scripts/Card.cs:207-224 | corrected: the same steps put the face at 20 and the back above it at 22 |
| `ProspectorGame.AsProspector` | Assets/Prospector/__Scripts/Prospector.cs:44 | `card as CardProspector` gives the same reference or null, and a non-null result exactly when the card is a CardProspector |
| `ProspectorGame.Converted` | Assets/Prospector/__Scripts/Prospector.cs:40-48 | the converted list has the input's length |
| `ProspectorGame.ConvertedAt` | Assets/Prospector/__Scripts/Prospector.cs:43-46 | entry i of the converted list is input card i cast with `as` |
| `ProspectorGame.ConvertedKeepsOrNulls` | Assets/Prospector/__Scripts/Prospector.cs:43-46 | each position keeps its card exactly when it is a CardProspector or null, and holds null exactly when it is not a CardProspector; no card is skipped |
| `ProspectorGame.ConvertedOnlyProspectors` | Assets/Prospector/__Scripts/Prospector.cs:44-45 | every non-null entry of the result is a CardProspector |
| `ProspectorGame.ConvertedAllProspectors` | Assets/Prospector/__Scripts/Prospector.cs:40-48 | a list made only of CardProspectors is returned unchanged |
| `ProspectorGame.Prospector.constructor` | Assets/Prospector/__Scripts/Prospector.cs:14 | the draw pile starts empty |
| `ProspectorGame.Prospector.ConvertCardsToCardsProspectors` | Assets/Prospector/__Scripts/Prospector.cs:40-48 | the append loop returns exactly Converted(listCard) |
| `ProspectorGame.Prospector.Start` | Assets/Prospector/__Scripts/Prospector.cs:19-32 | after Start, drawPile is the conversion of the deck's cards as they stand after shuffling, of the same length |

## Findings

| source | as written | input that shows it | evidently intended | confidence | as-written member | corrected member |
|---|---|---|---|---|---|---|
| Assets/Prospector/__Scripts/Card.cs:186 | `GetComponentsInChildren<SpriteRenderer>()` omits includeInactive, so the back of a face-up card is not gathered, and line 184 never gathers again | `Init('C', 5)` (face-up), `SetSortingOrder(10)`, `faceUp = false`, `SetSortingOrder(20)`: the back stays at 2, under the face at 20 | gather all renderers, as the doc comment at line 180 says, so that the back is always at sOrd + 2 | medium, not executed | `SortingFindings.FaceUpSortLeavesBackUnderFace` | `Cards.Card.SetSortingOrderAll` |

`Cards.Card.SetSortingOrder` keeps the behaviour as written. No game operation in the
model calls SetSortingOrder. Only the scenarios in `sorting_findings.dfy` call
it. The piles that call it in the game (per the comment at Card.cs:203-204) are
not in the shown source.

## Left out

- Sprite construction in AddDecorators, AddPips and AddFace: it uses Unity instantiation, transforms and sprite lookups. `Init` receives the renderers these methods create as the parameter `built`. Only the back renderer that AddBack makes is modelled, with its name "back" and its order 2.
- The JSON card definition (`def`) is not modelled. `JsonParseDeck`, `Deck` and `CardSpritesSO` are not part of this model.
- The `Color` tint values are floating-point engine colours. Only the `colS` name is modelled.
- `SetLocalPos`, `SetSpriteSortingLayer` and the base `OnMouseUpAsButton` are not modelled: they are engine transforms, layer names and console output.
- `Cards.AdjacentTo`: ranks are unbounded integers. The C# code subtracts two 32-bit ints, so a difference can wrap around, and `Mathf.Abs`, which calls `Math.Abs`, throws on the smallest int. Neither is modelled. Dealt ranks are 1 to 13, where neither can happen.
- `Cards.Card.PopulateSpriteRenderers`: a renderer counts as active by its own object's flag. The card's objects are taken to sit directly under an active card object, so `activeInHierarchy` is not modelled separately. The card's own object is taken as active: the constructor requires every renderer on it to be active.
- `Cards.Card.Init`: the decorator, pip and face sprites are taken as child objects named other than "back", each at order 1.
- `Cards.AdjacentTo`: the rule reads two card snapshots, so both cards need a back. The C# getter short-circuits: a face-down receiver never reads the other card's `faceUp`.
- `faceUp` before `Init` fails in the source because there is no back object. The model rules this out with `requires back != null`.
- `ProspectorGame.Prospector.ConvertCardsToCardsProspectors`: lists are modelled as immutable sequences. The result cannot alias the input, and the input cannot change. The C# list's fresh allocation is therefore not stated.
- `ProspectorGame.Prospector.Start`: `Deck.InitDeck` and `Deck.Shuffle` use randomness and are not shown. The shuffled list is a parameter. Loading the JSON layout is not modelled.
- The static singleton `S` and its "set more than once" log are not modelled: they belong to the Unity lifecycle.
- CardProspector's fields (`state` and its `eCardState` enum, `hiddenBy`, `layoutID`, `layoutSlot`) are not modelled: no shown code reads or updates them. Its click handler forwards to `Prospector.CARD_CLICKED`, which is not defined in the shown code. Only the runtime type test that `as` performs is kept.
- Dealing the tableau, drawing, promoting the target, discarding, uncovering cards and detecting a win or a loss are not modelled: no shown file implements them.
- The rank's decimal text assumes the invariant culture's '-' sign.
