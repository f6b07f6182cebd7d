/**
 * Presentation: the terminal lines the read and list handlers print
 * (src/magic-app.ts). Styling is abstract: a piece of text carries the
 * chalk style it is painted with, and a Multicolor letter carries the
 * palette its style is drawn from at random. Alongside the renderers sit
 * the readers a user applies to the output (ParseCard, SplitBlocks), so
 * that what a rendering shows can be stated as a round trip.
 */
module Render {
  import opened Wrappers
  import opened Cards
  import opened Collections
  import opened Keys

  /** The chalk styles the program uses. */
  datatype Style = White | Blue | Black | Red | Green | Gray

  /** The styles a Multicolor letter is drawn from, in the order of the source's array. */
  const Palette: seq<Style> := [White, Blue, Black, Red, Green, Gray]

  /** How a piece of text is painted: unstyled, with a fixed style, or with one drawn at random from `choices`. */
  datatype Paint = Plain | Chalk(style: Style) | RandomOf(choices: seq<Style>)

  datatype Segment = Segment(paint: Paint, text: string)

  /** The characters a sequence of painted segments shows, styling removed. */
  function TextOf(segs: seq<Segment>): string {
    if segs == [] then "" else segs[0].text + TextOf(segs[1..])
  }

  /** getColoredText: one fixed style per colour; any other colour comes back unstyled. */
  function ColoredText(c: Color): (r: Segment)
    ensures r.text == Name(c)
    ensures r.paint == Plain <==> c == Multicolor
    ensures r.paint.Chalk? ==> r.paint.style in Palette
  {
    match c
    case Blanco => Segment(Chalk(White), Name(c))
    case Azul => Segment(Chalk(Blue), Name(c))
    case Negro => Segment(Chalk(Black), Name(c))
    case Rojo => Segment(Chalk(Red), Name(c))
    case Verde => Segment(Chalk(Green), Name(c))
    case Incoloro => Segment(Chalk(Gray), Name(c))
    case Multicolor => Segment(Plain, Name(c))
  }

  /** No two colours share a style. */
  lemma ColoredTextInjective(a: Color, b: Color)
    requires ColoredText(a).paint == ColoredText(b).paint
    ensures a == b
  {
  }

  /** Each letter of `s` painted separately with a style drawn from the palette. */
  function RandomLetters(s: string): (r: seq<Segment>)
    ensures |r| == |s|
    ensures TextOf(r) == s
    ensures forall i :: 0 <= i < |r| ==> r[i].paint == RandomOf(Palette) && |r[i].text| == 1
  {
    if s == [] then []
    else
      assert [s[0]] + s[1..] == s;
      [Segment(RandomOf(Palette), [s[0]])] + RandomLetters(s[1..])
  }

  /** What the Color line shows: the colour's name, letter by letter at random for Multicolor. */
  function ColorValue(c: Color): seq<Segment> {
    if c == Multicolor then RandomLetters(Name(c)) else [ColoredText(c)]
  }

  /**
   * The Color line spells the colour's name: for Multicolor one letter per
   * segment, each painted at random from the palette; otherwise the whole
   * name in the colour's fixed style.
   */
  lemma ColorValueSpellsName(c: Color)
    ensures TextOf(ColorValue(c)) == Name(c)
    ensures c == Multicolor ==> |ColorValue(c)| == |Name(c)|
    ensures c == Multicolor ==> forall i :: 0 <= i < |ColorValue(c)| ==> ColorValue(c)[i].paint == RandomOf(Palette)
    ensures c != Multicolor ==> ColorValue(c) == [ColoredText(c)] && ColoredText(c).paint.Chalk?
  {
    if c != Multicolor {
      assert TextOf([ColoredText(c)]) == ColoredText(c).text + TextOf([]);
    }
  }

  /** The one-line status reports of the handlers. */
  datatype Message =
    | CardAdded | CardExists | CardModified | CardNotFound | CardRemoved | CardMissing | CollectionEmpty

  function MessageText(m: Message): string {
    match m
    case CardAdded => "New card added to collection!"
    case CardExists => "Card already exists in collection!"
    case CardModified => "Card successfully modified!"
    case CardNotFound => "Card not found in collection!"
    case CardRemoved => "Card removed from collection!"
    case CardMissing => "Card does not exist in collection!"
    case CollectionEmpty => "Collection is empty!"
  }

  /** No two reports print the same text. */
  lemma MessageTextInjective(a: Message, b: Message)
    requires MessageText(a) == MessageText(b)
    ensures a == b
  {
  }

  /** Whether a report is printed in red (a refusal) rather than green. */
  predicate IsRefusal(m: Message) {
    m in {CardExists, CardNotFound, CardMissing, CollectionEmpty}
  }

  /** The captions of a card block's lines. */
  datatype Caption =
    | IdLine | NameLine | ManaCostLine | ColorLine | TypeLine | RarityLine | RulesTextLine
    | StrengthLine | ToughnessLine | LoyaltyLine | MarketValueLine

  /** The words printed before the colon. */
  function CaptionText(c: Caption): string {
    match c
    case IdLine => "ID"
    case NameLine => "Name"
    case ManaCostLine => "Mana Cost"
    case ColorLine => "Color"
    case TypeLine => "Type"
    case RarityLine => "Rarity"
    case RulesTextLine => "Rules Text"
    case StrengthLine => "Strength"
    case ToughnessLine => "Toughness"
    case LoyaltyLine => "Loyalty"
    case MarketValueLine => "Market Value"
  }

  /** No two captions print the same words. */
  lemma CaptionTextInjective(a: Caption, b: Caption)
    requires CaptionText(a) == CaptionText(b)
    ensures a == b
  {
  }

  /** The value after a caption: a number, a text, `undefined` for a missing optional number, or painted segments. */
  datatype Value = Number(n: int) | Text(s: string) | Undefined | Colored(segments: seq<Segment>)

  /** One printed line: a status report, a heading, the dashed separator, or `Caption: value`. */
  datatype OutputLine = Notice(message: Message) | Title(text: string) | Rule | Field(caption: Caption, value: Value)

  /** How a template literal shows an optional number. */
  function Shown(n: Option<int>): Value {
    if n.Some? then Number(n.value) else Undefined
  }

  predicate IsCreature(cardType: string) {
    cardType == "Creature"
  }

  predicate IsPlaneswalker(cardType: string) {
    cardType == "Planeswalker"
  }

  /** The card as its rendering shows it: type-dependent fields only for their type, market value only when truthy. */
  function Visible(card: Card): Card {
    card.(
      strength := if IsCreature(card.cardType) then card.strength else None,
      toughness := if IsCreature(card.cardType) then card.toughness else None,
      loyalty := if !IsCreature(card.cardType) && IsPlaneswalker(card.cardType) then card.loyalty else None,
      marketValue := if TruthyNumber(card.marketValue) then card.marketValue else None)
  }

  const Mandatory: seq<Caption> := [IdLine, NameLine, ManaCostLine, ColorLine, TypeLine, RarityLine, RulesTextLine]

  /** The captions of the lines that depend on the card's type. */
  function TypeCaptions(cardType: string): seq<Caption> {
    if IsCreature(cardType) then [StrengthLine, ToughnessLine]
    else if IsPlaneswalker(cardType) then [LoyaltyLine]
    else []
  }

  /** The captions after the mandatory ones: the type's lines, then the market value when it is truthy. */
  function TailCaptions(card: Card): seq<Caption> {
    TypeCaptions(card.cardType) + (if TruthyNumber(card.marketValue) then [MarketValueLine] else [])
  }

  /** What the line with caption `c` shows of the card. */
  function FieldValue(card: Card, c: Caption): Value {
    match c
    case IdLine => Number(card.id)
    case NameLine => Text(card.name)
    case ManaCostLine => Number(card.manaCost)
    case ColorLine => Colored(ColorValue(card.color))
    case TypeLine => Text(card.cardType)
    case RarityLine => Text(card.rarity)
    case RulesTextLine => Text(card.rulesText)
    case StrengthLine => Shown(card.strength)
    case ToughnessLine => Shown(card.toughness)
    case LoyaltyLine => Shown(card.loyalty)
    case MarketValueLine => Shown(card.marketValue)
  }

  /** The captions of a block whose lines are all labelled. */
  function Captions(lines: seq<OutputLine>): seq<Caption>
    requires forall i :: 0 <= i < |lines| ==> lines[i].Field?
  {
    seq(|lines|, i requires 0 <= i < |lines| => lines[i].caption)
  }

  /**
   * The labelled lines of one card block, in a fixed order: the seven
   * mandatory fields, strength and toughness for a creature or loyalty for
   * a planeswalker, then the market value when it is truthy.
   */
  function CardLines(card: Card): (r: seq<OutputLine>)
    ensures forall i :: 0 <= i < |r| ==> r[i].Field?
    ensures Captions(r) == Mandatory + TypeCaptions(card.cardType)
                           + (if TruthyNumber(card.marketValue) then [MarketValueLine] else [])
  {
    var r := LinesFor(card, Mandatory) + LinesFor(card, TailCaptions(card));
    assert Captions(r) == Mandatory + TailCaptions(card);
    r
  }

  /** One line per caption of `cs`, each showing that field of the card. */
  function LinesFor(card: Card, cs: seq<Caption>): seq<OutputLine> {
    seq(|cs|, i requires 0 <= i < |cs| => Field(cs[i], FieldValue(card, cs[i])))
  }

  // A reader of card blocks: the inverse of CardLines on what it shows.

  function NumberField(line: OutputLine, caption: Caption): Option<int> {
    if line.Field? && line.caption == caption && line.value.Number? then Some(line.value.n) else None
  }

  function TextField(line: OutputLine, caption: Caption): Option<string> {
    if line.Field? && line.caption == caption && line.value.Text? then Some(line.value.s) else None
  }

  /** The colour a Color line names, whichever way its letters are painted. */
  function ColorField(line: OutputLine): Option<Color> {
    if line.Field? && line.caption == ColorLine && line.value.Colored? then ColorNamed(TextOf(line.value.segments)) else None
  }

  /** An optional number line: Some(None) when it shows `undefined`. */
  function OptionalField(line: OutputLine, caption: Caption): Option<Option<int>> {
    if line.Field? && line.caption == caption && line.value.Number? then Some(Some(line.value.n))
    else if line.Field? && line.caption == caption && line.value.Undefined? then Some(None)
    else None
  }

  /** Reads the seven mandatory lines. */
  function ParseMandatory(lines: seq<OutputLine>): Option<Card>
    requires |lines| >= 7
  {
    var id, name, cost := NumberField(lines[0], IdLine), TextField(lines[1], NameLine), NumberField(lines[2], ManaCostLine);
    var color, cardType := ColorField(lines[3]), TextField(lines[4], TypeLine);
    var rarity, rules := TextField(lines[5], RarityLine), TextField(lines[6], RulesTextLine);
    if id.None? || name.None? || cost.None? || color.None? || cardType.None? || rarity.None? || rules.None? then None
    else Some(Card(id.value, name.value, cost.value, color.value, cardType.value, rarity.value, rules.value,
                   None, None, None, None))
  }

  /** Reads the lines after the mandatory ones, as the card's type dictates. */
  function ParseRest(card: Card, rest: seq<OutputLine>): Option<Card> {
    if IsCreature(card.cardType) then
      if |rest| < 2 then None
      else
        var s, t := OptionalField(rest[0], StrengthLine), OptionalField(rest[1], ToughnessLine);
        if s.None? || t.None? then None
        else ParseMarketValue(card.(strength := s.value, toughness := t.value), rest[2..])
    else if IsPlaneswalker(card.cardType) then
      if |rest| < 1 then None
      else
        var l := OptionalField(rest[0], LoyaltyLine);
        if l.None? then None else ParseMarketValue(card.(loyalty := l.value), rest[1..])
    else ParseMarketValue(card, rest)
  }

  /** The block's tail: nothing, or one Market Value line. */
  function ParseMarketValue(card: Card, rest: seq<OutputLine>): Option<Card> {
    if rest == [] then Some(card)
    else if |rest| == 1 && NumberField(rest[0], MarketValueLine).Some? then
      Some(card.(marketValue := NumberField(rest[0], MarketValueLine)))
    else None
  }

  /** Reads the card a block shows; None when the lines are not a card block. */
  function ParseCard(lines: seq<OutputLine>): Option<Card> {
    if |lines| < 7 then None
    else
      match ParseMandatory(lines)
      case None => None
      case Some(card) => ParseRest(card, lines[7..])
  }

  /** The card with its four optional fields left out. */
  function Bare(card: Card): Card {
    card.(strength := None, toughness := None, loyalty := None, marketValue := None)
  }

  /** The Color line names the card's colour, however its letters were painted. */
  lemma ColorLineReadBack(c: Color)
    ensures ColorField(Field(ColorLine, Colored(ColorValue(c)))) == Some(c)
  {
    ColorValueSpellsName(c);
  }

  lemma ParseMandatoryOf(lines: seq<OutputLine>, card: Card)
    requires |lines| >= 7
    requires lines[0] == Field(IdLine, Number(card.id))
    requires lines[1] == Field(NameLine, Text(card.name))
    requires lines[2] == Field(ManaCostLine, Number(card.manaCost))
    requires ColorField(lines[3]) == Some(card.color)
    requires lines[4] == Field(TypeLine, Text(card.cardType))
    requires lines[5] == Field(RarityLine, Text(card.rarity))
    requires lines[6] == Field(RulesTextLine, Text(card.rulesText))
    ensures ParseMandatory(lines) == Some(Bare(card))
  {
  }

  /** Every card block starts with the seven mandatory lines; the Color line is the fourth. */
  lemma MandatoryHeadAt(card: Card)
    ensures |CardLines(card)| >= 7
    ensures CardLines(card)[0] == Field(IdLine, Number(card.id))
    ensures CardLines(card)[1] == Field(NameLine, Text(card.name))
    ensures CardLines(card)[2] == Field(ManaCostLine, Number(card.manaCost))
  {
  }

  lemma MandatoryTailAt(card: Card)
    ensures |CardLines(card)| >= 7
    ensures CardLines(card)[4] == Field(TypeLine, Text(card.cardType))
    ensures CardLines(card)[5] == Field(RarityLine, Text(card.rarity))
    ensures CardLines(card)[6] == Field(RulesTextLine, Text(card.rulesText))
  {
  }

  lemma ColorLineAt(card: Card)
    ensures |CardLines(card)| >= 7
    ensures CardLines(card)[3] == Field(ColorLine, Colored(ColorValue(card.color)))
  {
    var m := LinesFor(card, Mandatory);
    assert CardLines(card)[3] == m[3];
    assert Mandatory[3] == ColorLine;
  }

  lemma MandatoryReadBack(card: Card)
    ensures |CardLines(card)| >= 7
    ensures ParseMandatory(CardLines(card)) == Some(Bare(card))
  {
    MandatoryHeadAt(card);
    MandatoryTailAt(card);
    ColorLineAt(card);
    ColorLineReadBack(card.color);
    ParseMandatoryOf(CardLines(card), card);
  }

  lemma RestReadBack(card: Card)
    requires |CardLines(card)| >= 7
    ensures ParseRest(Bare(card), CardLines(card)[7..]) == Some(Visible(card))
  {
    var tail := TailCaptions(card);
    assert CardLines(card)[7..] == LinesFor(card, tail);
  }

  /** Reading a card block back gives exactly the fields it shows. */
  lemma CardLinesReadBack(card: Card)
    ensures ParseCard(CardLines(card)) == Some(Visible(card))
  {
    MandatoryReadBack(card);
    RestReadBack(card);
  }

  /** The read handler's output for `id`: the card block, or the not-found report. */
  function ReadLines(c: Collection, id: int): (r: seq<OutputLine>)
    ensures id !in c <==> r == [Notice(CardNotFound)]
    ensures id in c ==> |r| >= 2 && r[..2] == [Title("Card information:"), Rule]
    ensures id in c ==> ParseCard(r[2..]) == Some(Visible(c[id]))
  {
    if id in c then
      var r := [Title("Card information:"), Rule] + CardLines(c[id]);
      assert r[2..] == CardLines(c[id]);
      CardLinesReadBack(c[id]);
      r
    else [Notice(CardNotFound)]
  }

  /** Index of the first separator line, or the length when there is none. */
  function FirstRule(lines: seq<OutputLine>): (n: nat)
    ensures n <= |lines|
    ensures forall i :: 0 <= i < n ==> !lines[i].Rule?
    ensures n < |lines| ==> lines[n].Rule?
  {
    if lines == [] || lines[0].Rule? then 0 else 1 + FirstRule(lines[1..])
  }

  /** Cuts a listing at its separator lines: the lines between each separator and the next. */
  function SplitBlocks(lines: seq<OutputLine>): seq<seq<OutputLine>>
    decreases |lines|
  {
    if lines == [] then []
    else
      var n := FirstRule(lines[1..]);
      [lines[1..1 + n]] + SplitBlocks(lines[1 + n..])
  }

  /** The list handler's forEach: a separator and the card's lines for every id of `ks`, in order. */
  function Blocks(c: Collection, ks: seq<int>): seq<OutputLine>
    requires forall i :: 0 <= i < |ks| ==> ks[i] in c
  {
    if ks == [] then [] else [Rule] + CardLines(c[ks[0]]) + Blocks(c, ks[1..])
  }

  /** The first separator after a block without separators is the one that follows it. */
  lemma FirstRuleAfter(block: seq<OutputLine>, rest: seq<OutputLine>)
    requires forall i :: 0 <= i < |block| ==> !block[i].Rule?
    requires rest == [] || rest[0] == Rule
    ensures FirstRule(block + rest) == |block|
  {
    assert forall i :: 0 <= i < |block| ==> (block + rest)[i] == block[i];
    assert rest != [] ==> (block + rest)[|block|] == rest[0];
  }

  /** A separator, a block without separators, then more blocks: the block is cut out whole. */
  lemma SplitFirst(block: seq<OutputLine>, rest: seq<OutputLine>)
    requires forall i :: 0 <= i < |block| ==> !block[i].Rule?
    requires rest == [] || rest[0] == Rule
    ensures SplitBlocks([Rule] + block + rest) == [block] + SplitBlocks(rest)
  {
    var lines := [Rule] + block + rest;
    assert lines[1..] == block + rest;
    FirstRuleAfter(block, rest);
    assert lines[1..1 + |block|] == block;
    assert lines[1 + |block|..] == rest;
  }

  /** Cutting the listing at its separators gives back exactly one card block per id, in order. */
  lemma {:induction false} BlocksSplit(c: Collection, ks: seq<int>)
    requires forall i :: 0 <= i < |ks| ==> ks[i] in c
    ensures |SplitBlocks(Blocks(c, ks))| == |ks|
    ensures forall i :: 0 <= i < |ks| ==> SplitBlocks(Blocks(c, ks))[i] == CardLines(c[ks[i]])
  {
    if ks != [] {
      var block, rest := CardLines(c[ks[0]]), Blocks(c, ks[1..]);
      BlocksSplit(c, ks[1..]);
      SplitFirst(block, rest);
      assert SplitBlocks(Blocks(c, ks)) == [block] + SplitBlocks(rest);
    }
  }

  /**
   * The list handler's output: the empty-collection report, or a heading
   * and one block per card, by ascending id.
   */
  function ListLines(user: string, c: Collection): (r: seq<OutputLine>)
    ensures |c| == 0 <==> r == [Notice(CollectionEmpty)]
    ensures |c| != 0 ==> |r| >= 1 && r[0] == Title(user + "'s collection:")
  {
    if |c| == 0 then [Notice(CollectionEmpty)]
    else [Title(user + "'s collection:")] + Blocks(c, SortedKeys(c.Keys))
  }

  /**
   * Reading a non-empty listing back: cut after the title at the separators, it holds one
   * block per card, in ascending id order, and each block reads back as that card.
   */
  lemma ListingReadBack(user: string, c: Collection)
    requires |c| != 0
    ensures |SplitBlocks(ListLines(user, c)[1..])| == |c|
    ensures forall i :: 0 <= i < |c| ==>
              ParseCard(SplitBlocks(ListLines(user, c)[1..])[i]) == Some(Visible(c[SortedKeys(c.Keys)[i]]))
  {
    var ks := SortedKeys(c.Keys);
    BlocksSplit(c, ks);
    assert ListLines(user, c)[1..] == Blocks(c, ks);
    forall i | 0 <= i < |c|
      ensures ParseCard(SplitBlocks(Blocks(c, ks))[i]) == Some(Visible(c[ks[i]]))
    {
      CardLinesReadBack(c[ks[i]]);
    }
  }

  /** A collection of one card lists as one block that reads back as that card. */
  lemma SingleCardListing(user: string, card: Card)
    ensures |ListLines(user, map[card.id := card])| >= 1
    ensures |SplitBlocks(ListLines(user, map[card.id := card])[1..])| == 1
    ensures ParseCard(SplitBlocks(ListLines(user, map[card.id := card])[1..])[0]) == Some(Visible(card))
  {
    var c := map[card.id := card];
    assert c.Keys == {card.id};
    ListingReadBack(user, c);
    assert SortedKeys(c.Keys)[0] in c.Keys;
  }
}
