# Magic card collection: a Dafny model

This project models the core of a command-line tool that keeps one
collection of Magic: The Gathering cards per user. Each collection is a
table from integer card id to a card record, stored in a per-user JSON
file. The tool has five commands:

- **add** stores a new card, unless its id is already taken.
- **update** merges new values into an existing card. A supplied value wins
  only when it is truthy: a non-zero number or a non-empty string.
- **remove** deletes a card, if it is present.
- **read** prints one card.
- **list** prints every card of the user's collection.

Files:

- `wrappers.dfy`: the `Option` type.
- `cards.dfy` (module `Cards`) holds:
  - the card record of `src/card.ts`;
  - the closed `Color` enum with its Spanish names;
  - a lookup of a colour by name;
  - JavaScript truthiness of optional numbers and strings.
- `collection.dfy` (module `Collections`) holds the in-memory changes the handlers make to a collection:
  - insert;
  - delete;
  - the `supplied || current` merge of the update handler.
- `keys.dfy` (module `Keys`): the ascending order of ids in which the list handler visits cards.
- `render.dfy` (module `Render`) holds:
  - the printed lines of the read and list handlers;
  - `getColoredText`;
  - readers (`ParseCard`, `SplitBlocks`) that recover what a printed block shows, so that each rendering is stated as a round trip.
- `app.dfy` (module `MagicApp`) holds:
  - the class `App`, whose `disk` field stands for the data directory: a map from user name to the file stored under that name;
  - `loadCollection`, `saveCollection` and the five handlers, as members of `App`.

The file store is abstract: one entry per user name. A file is either a
saved collection or contents that do not parse (see "Left out" for
what this leaves out). Loading gives the empty collection when the
file is missing or unreadable. Saving replaces the user's whole file.

The terminal styling is abstract too:

- A piece of text carries the chalk style it is painted with.
- Each letter of a Multicolor colour carries `RandomOf(Palette)`: its style is drawn at random from the six-style palette.
- A status report is a `Message`. Its exact text is `MessageText`, and `IsRefusal` says whether it is printed in red.

## Model

| member | source | states |
|---|---|---|
| Cards.ColorNamed | src/magic-app.ts:310-326 | the colour named by a string is the only colour with that name; none when no colour has it |
| Cards.FindColor | src/magic-app.ts:310-326 | a found colour is in the searched list and has the name; not found means no colour of the list has it |
| Collections.Insert | src/magic-app.ts:91-96 | keys gain exactly the new id, the card is stored under it, every other entry is unchanged, the size grows by one, well-keyedness is kept |
| Collections.Delete | src/magic-app.ts:246-248 | keys lose exactly the id, every other entry is unchanged, the size shrinks by one, well-keyedness is kept |
| Collections.RemoveUndoesAdd | src/magic-app.ts:94-96 | removing a card just added restores the collection |
| Collections.AddUndoesRemove | src/magic-app.ts:246-248 | adding back a card just removed restores the collection |
| Collections.Merge | src/magic-app.ts:209-221 | the id is kept; each other field takes the supplied value only when it is present and truthy, otherwise keeps the current value |
| Collections.WithoutFalsy | src/magic-app.ts:209-221 | every value left in the patch is non-zero or non-empty |
| Collections.FalsyIsOmitted | src/magic-app.ts:209-221 | supplying 0 or "" is the same as supplying nothing, so no update can store a falsy value |
| Collections.NoChangeKeepsCard | src/magic-app.ts:209-221 | an update supplying nothing leaves the card as it was |
| Collections.MergeIdempotent | src/magic-app.ts:209-221 | applying the same update twice equals applying it once |
| Collections.Modify | src/magic-app.ts:207-223 | keys are unchanged, the card under the id is the merged card, every other entry is unchanged, well-keyedness is kept |
| Collections.SerraAngelUpdate | src/magic-app.ts:209-223 | updating only the mana cost of Serra Angel changes that field and no other |
| Keys.HasLeast | src/magic-app.ts:117 | a non-empty set of ids has a least element |
| Keys.Least | src/magic-app.ts:117 | the result is in the set and no member is smaller |
| Keys.SortedKeys | src/magic-app.ts:117 | the ids of the set, each once, in strictly ascending order |
| Render.ColoredText | src/magic-app.ts:310-326 | the text is the colour's name; it is unstyled exactly for Multicolor; otherwise it has a palette style |
| Render.ColoredTextInjective | src/magic-app.ts:310-326 | no two of the seven colours share a paint: six fixed styles, and unstyled only for Multicolor |
| Render.RandomLetters | src/magic-app.ts:124-131 | one segment per letter, each letter painted from the palette at random, the letters spelling the text |
| Render.ColorValueSpellsName | src/magic-app.ts:122-135 | the Color line spells the colour's name: letter by letter at random for Multicolor, whole in its fixed style otherwise |
| Render.MessageTextInjective | src/magic-app.ts:92-303 | no two status reports print the same text |
| Render.CaptionTextInjective | src/magic-app.ts:119-146 | no two card lines carry the same caption |
| Render.CardLines | src/magic-app.ts:119-147 | every line is labelled; the captions are ID, Name, Mana Cost, Color, Type, Rarity, Rules Text, then Strength and Toughness for a creature or Loyalty for a planeswalker, then Market Value when truthy |
| Render.ColorLineReadBack | src/magic-app.ts:276-289 | reading the Color line gives back the card's colour, however its letters were painted |
| Render.MandatoryReadBack | src/magic-app.ts:273-292 | the seven mandatory lines read back as the card without its optional fields |
| Render.RestReadBack | src/magic-app.ts:293-301 | the lines after the mandatory ones read back as the optional fields the card shows |
| Render.CardLinesReadBack | src/magic-app.ts:273-301 | reading a card block back gives the card exactly as it is shown |
| Render.ReadLines | src/magic-app.ts:269-304 | an absent id gives only the not-found report; a present id gives the heading, the separator and a block that reads back as the card |
| Render.FirstRule | src/magic-app.ts:118 | the index of the first separator: none before it, and a separator at it unless it is the end |
| Render.FirstRuleAfter | src/magic-app.ts:118 | after a block without separators, the first separator is the one that follows the block |
| Render.SplitFirst | src/magic-app.ts:117-148 | cutting at separators takes off a leading block whole |
| Render.BlocksSplit | src/magic-app.ts:117-148 | cutting the listing at its separators gives one block per id, in order, each the lines of that id's card |
| Render.ListLines | src/magic-app.ts:113-148 | the empty collection gives only the empty report; otherwise the output starts with the user's heading |
| Render.ListingReadBack | src/magic-app.ts:113-148 | a non-empty listing holds exactly one block per card, in ascending id order, each reading back as that card |
| Render.SingleCardListing | src/magic-app.ts:116-148 | a collection of one card lists as one block that reads back as that card |
| MagicApp.App.constructor | src/magic-app.ts:12-20 | a fresh data directory loads the empty collection for every user |
| MagicApp.App.LoadCollection | src/magic-app.ts:12-20 | a saved file loads as its collection; no file or an unreadable file gives the empty collection |
| MagicApp.App.SaveCollection | src/magic-app.ts:23-25 | the user's file is replaced; loading the user gives back the saved collection; no other user's collection changes |
| MagicApp.App.Add | src/magic-app.ts:87-97 | a taken id is refused (a red report) and the store is unchanged; otherwise the card is inserted and the collection saved |
| MagicApp.App.Update | src/magic-app.ts:203-229 | an absent id is reported not found (a red report) and the store is unchanged; otherwise the card is replaced by the merged card and the collection saved |
| MagicApp.App.Remove | src/magic-app.ts:242-252 | an absent id is reported missing (a red report) and the store is unchanged; otherwise the id is deleted and the collection saved |
| MagicApp.App.Read | src/magic-app.ts:265-305 | the read lines of the loaded collection: the red not-found report exactly when the id is absent; otherwise the heading, the separator and a block that reads back as the stored card, whose ID line shows the id when every saved card is stored under its own id |
| MagicApp.App.List | src/magic-app.ts:109-149 | the listing of the loaded collection; the red empty report exactly when it is empty |
| MagicApp.Session | src/magic-app.ts:87-305 | on a fresh store: add succeeds, a second add is refused, read and list each show the card as its type shows it, remove succeeds, and read then reports not found |
| MagicApp.ShivanDragonShown | src/magic-app.ts:293-301 | Shivan Dragon, a creature, shows strength and toughness but not its loyalty or its zero market value |
| MagicApp.ShivanDragonSession | src/magic-app.ts:87-305 | the session above for alice and Shivan Dragon |

## Left out

- yargs argument parsing and option declarations: the handlers take their arguments already parsed. An absent optional argument is `None`.
- Real file input and output and JSON text: the store is the `disk` map.
- JSON encoding is taken as exact:
  - An absent optional field stays absent.
  - Integer keys come back as the same ids.
- chalk escape codes and `console.log`: each printed line is an `OutputLine` value.
- `Math.random`: the style of a Multicolor letter is the abstract `RandomOf(Palette)`.
- Floating-point numbers (`marketValue` and the others) are integers, so NaN is not modelled.
- Card objects that are `null` or not objects in a hand-edited file are not modelled. Every stored entry is a card, so the handlers' `if (collection[id])` test is `id in collection`.
- Keys.SortedKeys: `Object.values` visits array-index keys (0 <= id < 2^32 - 1) in ascending order, then every other id (negative, fractional, or 2^32 - 1 and above) in creation order. The model lists every id in ascending order, so Render.ListLines and Render.ListingReadBack match the source only for array-index ids.
- `src/color.ts` is not part of this model. Its enum values are taken to be the member names: Blanco, Azul, Negro, Rojo, Verde, Incoloro, Multicolor. The proofs only use that the names are non-empty and distinct.
- The tests save an array rather than a record. This is a type mismatch in the tests, not behaviour of the program.
- MagicApp.App.SaveCollection: the store is keyed by the raw user name, so it does not capture that the file path `./data/<user>.json` can make distinct names share one file ("alice", "./alice", "x/../alice", or names differing only in case on a case-insensitive file system). It also leaves out three failures:
  - `writeFileSync` throws, uncaught, when the directory does not exist (no `./data/`, or a user name such as "a/b"), so the handler crashes and prints nothing.
  - A file holding JSON that is not an object (`null`) makes the handler's `collection[id]` throw.
  - A file with other non-card content is not modelled: a file is either a saved collection or unreadable.
- Concurrent runs of the tool on the same file are not modelled.
- The remove handler reports an absent id as "Card does not exist in collection!", not as not found; the model follows the code (`CardMissing`).
