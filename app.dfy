/**
 * The command handlers of src/magic-app.ts over an abstract store. The
 * data directory is a map from user name to that user's file; a handler
 * loads the user's collection, changes it in memory and, only when it
 * succeeds, writes the whole collection back. The read and list handlers
 * change nothing and return the lines they print.
 */
module MagicApp {
  import opened Wrappers
  import opened Cards
  import opened Collections
  import opened Render

  /** A user's file: a collection as last saved, or contents that do not parse. */
  datatype File = Saved(cards: Collection) | Unreadable

  class App {
    /** The data directory: one file per user name. */
    var disk: map<string, File>

    /** Every saved collection stores each card under its own id. */
    ghost predicate Valid()
      reads this
    {
      forall u :: u in disk && disk[u].Saved? ==> WellKeyed(disk[u].cards)
    }

    /** An empty data directory. */
    constructor()
      ensures disk == map[]
      ensures Valid()
      ensures forall u :: LoadCollection(u) == map[]
    {
      disk := map[];
    }

    /**
     * loadCollection: the user's saved collection; the empty collection
     * when there is no file or it cannot be parsed.
     */
    function LoadCollection(user: string): (c: Collection)
      reads this
      ensures user !in disk ==> c == map[]
      ensures user in disk && disk[user].Unreadable? ==> c == map[]
      ensures user in disk && disk[user].Saved? ==> c == disk[user].cards
      ensures c != map[] ==> user in disk && disk[user] == Saved(c)
    {
      if user in disk && disk[user].Saved? then disk[user].cards else map[]
    }

    /** saveCollection: the user's file is replaced by the whole collection; no other file changes. */
    method SaveCollection(user: string, c: Collection)
      modifies this
      ensures disk == old(disk)[user := Saved(c)]
      ensures LoadCollection(user) == c
      ensures forall u :: u != user ==> LoadCollection(u) == old(LoadCollection(u))
      ensures old(Valid()) && WellKeyed(c) ==> Valid()
    {
      disk := disk[user := Saved(c)];
    }

    /** The add handler: stores the card under its id unless that id is taken. */
    method Add(user: string, card: Card) returns (m: Message)
      modifies this
      ensures m == CardExists || m == CardAdded
      ensures m == CardExists <==> card.id in old(LoadCollection(user))
      ensures IsRefusal(m) <==> card.id in old(LoadCollection(user))
      ensures IsRefusal(m) ==> disk == old(disk)
      ensures m == CardExists ==> disk == old(disk)
      ensures m == CardAdded ==> disk == old(disk)[user := Saved(Insert(old(LoadCollection(user)), card))]
      ensures m == CardAdded ==> LoadCollection(user) == Insert(old(LoadCollection(user)), card)
      ensures old(Valid()) ==> Valid()
    {
      var collection := LoadCollection(user);
      if card.id in collection {
        m := CardExists;
      } else {
        collection := Insert(collection, card);
        SaveCollection(user, collection);
        m := CardAdded;
      }
    }

    /** The update handler: merges the supplied values into the card with that id, if there is one. */
    method Update(user: string, id: int, p: Patch) returns (m: Message)
      modifies this
      ensures m == CardModified || m == CardNotFound
      ensures m == CardNotFound <==> id !in old(LoadCollection(user))
      ensures IsRefusal(m) <==> id !in old(LoadCollection(user))
      ensures IsRefusal(m) ==> disk == old(disk)
      ensures m == CardNotFound ==> disk == old(disk)
      ensures m == CardModified ==> disk == old(disk)[user := Saved(Modify(old(LoadCollection(user)), id, p))]
      ensures m == CardModified ==> LoadCollection(user)[id] == Merge(old(LoadCollection(user))[id], p)
      ensures old(Valid()) ==> Valid()
    {
      var collection := LoadCollection(user);
      if id in collection {
        collection := Modify(collection, id, p);
        SaveCollection(user, collection);
        m := CardModified;
      } else {
        m := CardNotFound;
      }
    }

    /** The remove handler: deletes the card with that id, if there is one. */
    method Remove(user: string, id: int) returns (m: Message)
      modifies this
      ensures m == CardRemoved || m == CardMissing
      ensures m == CardMissing <==> id !in old(LoadCollection(user))
      ensures IsRefusal(m) <==> id !in old(LoadCollection(user))
      ensures IsRefusal(m) ==> disk == old(disk)
      ensures m == CardMissing ==> disk == old(disk)
      ensures m == CardRemoved ==> disk == old(disk)[user := Saved(Delete(old(LoadCollection(user)), id))]
      ensures m == CardRemoved ==> LoadCollection(user).Keys == old(LoadCollection(user)).Keys - {id}
      ensures old(Valid()) ==> Valid()
    {
      var collection := LoadCollection(user);
      if id in collection {
        collection := Delete(collection, id);
        SaveCollection(user, collection);
        m := CardRemoved;
      } else {
        m := CardMissing;
      }
    }

    /** The read handler: the card's block, or the not-found report. */
    method Read(user: string, id: int) returns (out: seq<OutputLine>)
      ensures out == ReadLines(LoadCollection(user), id)
      ensures id !in LoadCollection(user) <==> out == [Notice(CardNotFound)]
      ensures id !in LoadCollection(user) ==> IsRefusal(out[0].message)
      ensures id in LoadCollection(user) ==> |out| >= 3 && out[..2] == [Title("Card information:"), Rule]
      ensures id in LoadCollection(user) ==> ParseCard(out[2..]) == Some(Visible(LoadCollection(user)[id]))
      ensures Valid() && id in LoadCollection(user) ==> out[2] == Field(IdLine, Number(id))
    {
      var collection := LoadCollection(user);
      out := ReadLines(collection, id);
      if id in collection {
        MandatoryHeadAt(collection[id]);
        assert out[2..] == CardLines(collection[id]);
      }
    }

    /** The list handler: the empty report, or a heading and one block per card in ascending id order. */
    method List(user: string) returns (out: seq<OutputLine>)
      ensures out == ListLines(user, LoadCollection(user))
      ensures |LoadCollection(user)| == 0 <==> out == [Notice(CollectionEmpty)]
      ensures |LoadCollection(user)| == 0 ==> IsRefusal(out[0].message)
    {
      var collection := LoadCollection(user);
      out := ListLines(user, collection);
    }
  }

  /** Shivan Dragon with a loyalty its type hides and a market value of 0. */
  const ShivanDragon := Card(2, "Shivan Dragon", 6, Rojo, "Creature", "Rare", "Flying", Some(5), Some(5), Some(3), Some(0))

  /** A creature shows strength and toughness; the loyalty and the zero market value are not shown. */
  lemma ShivanDragonShown()
    ensures Visible(ShivanDragon) == Card(2, "Shivan Dragon", 6, Rojo, "Creature", "Rare", "Flying", Some(5), Some(5), None, None)
  {
  }

  /** Adding a card to an empty directory succeeds; adding it again is refused. */
  method AddTwice(app: App, user: string, card: Card) returns (first: Message, second: Message)
    requires app.disk == map[]
    modifies app
    ensures first == CardAdded && second == CardExists
    ensures app.disk == map[user := Saved(map[card.id := card])]
  {
    first := app.Add(user, card);
    assert app.disk == map[user := Saved(map[card.id := card])];
    second := app.Add(user, card);
  }

  /** With one card stored for a user, reading it shows it as its type shows it. */
  method ReadOnly(app: App, user: string, card: Card) returns (shown: seq<OutputLine>)
    requires app.disk == map[user := Saved(map[card.id := card])]
    ensures |shown| >= 2 && ParseCard(shown[2..]) == Some(Visible(card))
  {
    assert app.LoadCollection(user) == map[card.id := card];
    shown := app.Read(user, card.id);
  }

  /** With one card stored for a user, the listing holds one block, which shows it as its type shows it. */
  method ListOnly(app: App, user: string, card: Card) returns (listed: seq<OutputLine>)
    requires app.disk == map[user := Saved(map[card.id := card])]
    ensures |listed| >= 1 && listed[0] == Title(user + "'s collection:")
    ensures |SplitBlocks(listed[1..])| == 1
    ensures ParseCard(SplitBlocks(listed[1..])[0]) == Some(Visible(card))
  {
    assert app.LoadCollection(user) == map[card.id := card];
    listed := app.List(user);
    SingleCardListing(user, card);
  }

  /** With one card stored for a user, removing it succeeds and reading it afterwards reports not-found. */
  method RemoveAndRead(app: App, user: string, card: Card) returns (removed: Message, after: seq<OutputLine>)
    requires app.disk == map[user := Saved(map[card.id := card])]
    modifies app
    ensures removed == CardRemoved
    ensures after == [Notice(CardNotFound)]
  {
    removed := app.Remove(user, card.id);
    assert app.disk == map[user := Saved(map[])];
    after := app.Read(user, card.id);
  }

  /**
   * A session on a fresh data directory: adding a card succeeds, adding it
   * again is refused, reading it back and listing both show it as its type
   * shows it, removing it succeeds, and reading it afterwards reports
   * not-found.
   */
  method Session(user: string, card: Card)
    returns (first: Message, second: Message, shown: seq<OutputLine>, listed: seq<OutputLine>,
             removed: Message, after: seq<OutputLine>)
    ensures first == CardAdded && second == CardExists
    ensures |shown| >= 2 && ParseCard(shown[2..]) == Some(Visible(card))
    ensures |listed| >= 1 && listed[0] == Title(user + "'s collection:")
    ensures |SplitBlocks(listed[1..])| == 1
    ensures ParseCard(SplitBlocks(listed[1..])[0]) == Some(Visible(card))
    ensures removed == CardRemoved
    ensures after == [Notice(CardNotFound)]
  {
    var app := new App();
    first, second := AddTwice(app, user, card);
    shown := ReadOnly(app, user, card);
    listed := ListOnly(app, user, card);
    removed, after := RemoveAndRead(app, user, card);
  }

  /** The session for alice and Shivan Dragon; ShivanDragonShown says what the shown card is. */
  method ShivanDragonSession()
    returns (first: Message, second: Message, shown: seq<OutputLine>, listed: seq<OutputLine>,
             removed: Message, after: seq<OutputLine>)
    ensures first == CardAdded && second == CardExists
    ensures |shown| >= 2
    ensures ParseCard(shown[2..]) == Some(Visible(ShivanDragon))
    ensures |listed| >= 1 && listed[0] == Title("alice" + "'s collection:")
    ensures |SplitBlocks(listed[1..])| == 1
    ensures ParseCard(SplitBlocks(listed[1..])[0]) == Some(Visible(ShivanDragon))
    ensures removed == CardRemoved
    ensures after == [Notice(CardNotFound)]
  {
    first, second, shown, listed, removed, after := Session("alice", ShivanDragon);
  }
}
