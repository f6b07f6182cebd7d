/**
 * The record schema of a card collection: the closed set of colours and
 * the card record with its seven mandatory and four optional fields
 * (src/card.ts), together with JavaScript's notion of a "truthy" value
 * for the field types the handlers test.
 */
module Cards {
  import opened Wrappers

  /** The colour identity of a card; the names are those of the source's Color enum. */
  datatype Color = Blanco | Azul | Negro | Rojo | Verde | Incoloro | Multicolor

  /** The text a colour is stored and displayed as. */
  function Name(c: Color): (s: string)
    ensures s != ""
  {
    match c
    case Blanco => "Blanco"
    case Azul => "Azul"
    case Negro => "Negro"
    case Rojo => "Rojo"
    case Verde => "Verde"
    case Incoloro => "Incoloro"
    case Multicolor => "Multicolor"
  }

  /** Every colour, in the order of the enum. */
  const AllColors: seq<Color> := [Blanco, Azul, Negro, Rojo, Verde, Incoloro, Multicolor]

  /** No two colours share a name. */
  lemma NamesDistinct(a: Color, b: Color)
    requires Name(a) == Name(b)
    ensures a == b
  {
  }

  /** The first colour of `cs` named `s`. */
  function FindColor(s: string, cs: seq<Color>): (r: Option<Color>)
    ensures r.Some? ==> r.value in cs && Name(r.value) == s
    ensures r.None? ==> forall i :: 0 <= i < |cs| ==> Name(cs[i]) != s
  {
    if cs == [] then None
    else if Name(cs[0]) == s then Some(cs[0])
    else FindColor(s, cs[1..])
  }

  /** The colour whose name is `s`, if there is one. */
  function ColorNamed(s: string): (r: Option<Color>)
    ensures r.Some? ==> Name(r.value) == s
    ensures forall c :: Name(c) == s ==> r == Some(c)
  {
    var r := FindColor(s, AllColors);
    forall c | Name(c) == s ensures r == Some(c) {
      assert c in AllColors;
      if r.Some? { NamesDistinct(r.value, c); }
    }
    r
  }

  /**
   * One card. `cardType` is the source's `type` field. Numbers are
   * integers here (see README for floating-point `marketValue`).
   */
  datatype Card = Card(
    id: int,
    name: string,
    manaCost: int,
    color: Color,
    cardType: string,
    rarity: string,
    rulesText: string,
    strength: Option<int>,
    toughness: Option<int>,
    loyalty: Option<int>,
    marketValue: Option<int>)

  /** An optional number is truthy when it is present and non-zero. */
  predicate TruthyNumber(n: Option<int>) {
    n.Some? && n.value != 0
  }

  /** An optional string is truthy when it is present and non-empty. */
  predicate TruthyText(s: Option<string>) {
    s.Some? && s.value != ""
  }
}
