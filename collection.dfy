/**
 * A user's collection as a table from card id to card, and the pure
 * changes the add, update and remove handlers make to it in memory
 * (src/magic-app.ts). Each change is stated by what it does to the keys
 * and entries, and each keeps the table well keyed.
 */
module Collections {
  import opened Wrappers
  import opened Cards

  type Collection = map<int, Card>

  /** Every entry is stored under its own id, as the add handler stores it. */
  ghost predicate WellKeyed(c: Collection) {
    forall k :: k in c ==> c[k].id == k
  }

  /** The add handler's `collection[id] = { id, ... }`, reached only for an absent id. */
  function Insert(c: Collection, card: Card): (r: Collection)
    requires card.id !in c
    ensures r.Keys == c.Keys + {card.id}
    ensures r[card.id] == card
    ensures forall k :: k in c ==> r[k] == c[k]
    ensures |r| == |c| + 1
    ensures WellKeyed(c) ==> WellKeyed(r)
  {
    c[card.id := card]
  }

  /** The remove handler's `delete collection[id]`, reached only for a present id. */
  function Delete(c: Collection, id: int): (r: Collection)
    requires id in c
    ensures r.Keys == c.Keys - {id}
    ensures forall k :: k in r ==> r[k] == c[k]
    ensures |r| == |c| - 1
    ensures WellKeyed(c) ==> WellKeyed(r)
  {
    var r := c - {id};
    assert r.Keys + {id} == c.Keys;
    r
  }

  /** Removing a card just added gives back the collection it was added to. */
  lemma RemoveUndoesAdd(c: Collection, card: Card)
    requires card.id !in c
    ensures Delete(Insert(c, card), card.id) == c
  {
    var r := Delete(Insert(c, card), card.id);
    assert r.Keys == c.Keys;
  }

  /** Adding back the card just removed gives back the collection it was removed from. */
  lemma AddUndoesRemove(c: Collection, id: int)
    requires id in c
    requires c[id].id == id
    ensures Insert(Delete(c, id), c[id]) == c
  {
    var r := Insert(Delete(c, id), c[id]);
    assert r.Keys == c.Keys;
  }

  /**
   * The values the update command was given; a field the caller left out
   * is None. The id is not part of it: it selects the card.
   */
  datatype Patch = Patch(
    name: Option<string>,
    manaCost: Option<int>,
    color: Option<Color>,
    cardType: Option<string>,
    rarity: Option<string>,
    rulesText: Option<string>,
    strength: Option<int>,
    toughness: Option<int>,
    loyalty: Option<int>,
    marketValue: Option<int>)

  /** An update that supplies nothing. */
  const NoChange := Patch(None, None, None, None, None, None, None, None, None, None)

  /** `supplied || current` on a mandatory string field. */
  function EitherText(supplied: Option<string>, current: string): string {
    if TruthyText(supplied) then supplied.value else current
  }

  /** `supplied || current` on a mandatory number field. */
  function EitherNumber(supplied: Option<int>, current: int): int {
    if TruthyNumber(supplied) then supplied.value else current
  }

  /** `supplied || current` on an optional number field: a falsy value keeps the current one, even an absent one. */
  function EitherOptional(supplied: Option<int>, current: Option<int>): Option<int> {
    if TruthyNumber(supplied) then supplied else current
  }

  /** `supplied || current` on the colour field, whose values are strings. */
  function EitherColor(supplied: Option<Color>, current: Color): Color {
    if supplied.Some? && Name(supplied.value) != "" then supplied.value else current
  }

  /**
   * The update handler's merged record: a spread of the current card with
   * every field overridden by `supplied || current`.
   */
  function Merge(card: Card, p: Patch): (r: Card)
    ensures r.id == card.id
    ensures r.name == (if TruthyText(p.name) then p.name.value else card.name)
    ensures r.manaCost == (if TruthyNumber(p.manaCost) then p.manaCost.value else card.manaCost)
    ensures r.color == (if p.color.Some? then p.color.value else card.color)
    ensures r.cardType == (if TruthyText(p.cardType) then p.cardType.value else card.cardType)
    ensures r.rarity == (if TruthyText(p.rarity) then p.rarity.value else card.rarity)
    ensures r.rulesText == (if TruthyText(p.rulesText) then p.rulesText.value else card.rulesText)
    ensures r.strength == (if TruthyNumber(p.strength) then p.strength else card.strength)
    ensures r.toughness == (if TruthyNumber(p.toughness) then p.toughness else card.toughness)
    ensures r.loyalty == (if TruthyNumber(p.loyalty) then p.loyalty else card.loyalty)
    ensures r.marketValue == (if TruthyNumber(p.marketValue) then p.marketValue else card.marketValue)
  {
    card.(
      name := EitherText(p.name, card.name),
      manaCost := EitherNumber(p.manaCost, card.manaCost),
      color := EitherColor(p.color, card.color),
      cardType := EitherText(p.cardType, card.cardType),
      rarity := EitherText(p.rarity, card.rarity),
      rulesText := EitherText(p.rulesText, card.rulesText),
      strength := EitherOptional(p.strength, card.strength),
      toughness := EitherOptional(p.toughness, card.toughness),
      loyalty := EitherOptional(p.loyalty, card.loyalty),
      marketValue := EitherOptional(p.marketValue, card.marketValue))
  }

  /** A supplied string, unless it is falsy. */
  function KeepText(s: Option<string>): (r: Option<string>)
    ensures r.Some? <==> TruthyText(s)
    ensures r.Some? ==> r == s
  {
    if TruthyText(s) then s else None
  }

  /** A supplied number, unless it is falsy. */
  function KeepNumber(n: Option<int>): (r: Option<int>)
    ensures r.Some? <==> TruthyNumber(n)
    ensures r.Some? ==> r == n
  {
    if TruthyNumber(n) then n else None
  }

  /** The patch with every falsy value (0, "") dropped, as if the caller had not supplied it. */
  function WithoutFalsy(p: Patch): (q: Patch)
    ensures q.name.Some? ==> q.name.value != ""
    ensures q.manaCost.Some? ==> q.manaCost.value != 0
    ensures q.cardType.Some? ==> q.cardType.value != ""
    ensures q.rarity.Some? ==> q.rarity.value != ""
    ensures q.rulesText.Some? ==> q.rulesText.value != ""
    ensures q.strength.Some? ==> q.strength.value != 0
    ensures q.toughness.Some? ==> q.toughness.value != 0
    ensures q.loyalty.Some? ==> q.loyalty.value != 0
    ensures q.marketValue.Some? ==> q.marketValue.value != 0
  {
    Patch(KeepText(p.name), KeepNumber(p.manaCost), p.color, KeepText(p.cardType), KeepText(p.rarity),
          KeepText(p.rulesText), KeepNumber(p.strength), KeepNumber(p.toughness), KeepNumber(p.loyalty),
          KeepNumber(p.marketValue))
  }

  /** Supplying 0 or "" for a field is the same as not supplying it: such a value can never be stored by an update. */
  lemma FalsyIsOmitted(card: Card, p: Patch)
    ensures Merge(card, p) == Merge(card, WithoutFalsy(p))
  {
  }

  /** An update that supplies nothing gives back the same card. */
  lemma NoChangeKeepsCard(card: Card)
    ensures Merge(card, NoChange) == card
  {
  }

  /** Applying the same update twice is the same as applying it once. */
  lemma MergeIdempotent(card: Card, p: Patch)
    ensures Merge(Merge(card, p), p) == Merge(card, p)
  {
  }

  /** The update handler's change to the table, reached only for a present id. */
  function Modify(c: Collection, id: int, p: Patch): (r: Collection)
    requires id in c
    ensures r.Keys == c.Keys
    ensures r[id] == Merge(c[id], p)
    ensures forall k :: k in c && k != id ==> r[k] == c[k]
    ensures WellKeyed(c) ==> WellKeyed(r)
  {
    c[id := Merge(c[id], p)]
  }

  /**
   * A partial update of one field leaves the others intact: Serra Angel
   * (mana cost 5, white) updated with only mana cost 6.
   */
  lemma SerraAngelUpdate()
    ensures
      var angel := Card(1, "Serra Angel", 5, Blanco, "Creature", "Uncommon", "Flying, vigilance", None, None, None, None);
      var c := map[1 := angel];
      Modify(c, 1, NoChange.(manaCost := Some(6))) == map[1 := angel.(manaCost := 6)]
  {
  }
}
