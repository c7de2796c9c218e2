/**
 * The `App` component: the consumption coordinator (`handleSwipe` and the
 * duplicate-free likes list) and the session store mirrored into local storage.
 */
module App {
  import opened Wrappers
  import opened Listing
  import opened UseListings
  import opened SwipeDeck

  /** The identity record the login widget yields. */
  datatype User = User(name: string, email: string, avatar: string)

  const UserStorageKey: string := "depa_finder:user"

  /** A stored entry: a serialized user, or text that does not parse as one. */
  datatype StoredValue = Serialized(user: User) | Unreadable

  type Storage = map<string, StoredValue>

  // ---------------------------------------------------------------------
  // Session store
  // ---------------------------------------------------------------------

  /** The user the startup effect restores: none when the key is absent or unreadable. */
  function RestoredUser(entries: Storage): (u: Option<User>)
    ensures u.Some? <==> UserStorageKey in entries && entries[UserStorageKey].Serialized?
    ensures u.Some? ==> u.value == entries[UserStorageKey].user
  {
    if UserStorageKey in entries && entries[UserStorageKey].Serialized?
    then Some(entries[UserStorageKey].user)
    else None
  }

  /** The storage after `persistUser(next)` wrote or removed the key. */
  function Persisted(entries: Storage, next: Option<User>): (r: Storage)
    ensures RestoredUser(r) == next
    ensures next.None? ==> UserStorageKey !in r
    ensures forall k :: k != UserStorageKey ==> (k in r <==> k in entries)
    ensures forall k :: k in r && k != UserStorageKey ==> r[k] == entries[k]
  {
    if next.Some? then entries[UserStorageKey := Serialized(next.value)]
    else entries - {UserStorageKey}
  }

  /** Persisting again overrides what was persisted before. */
  lemma PersistedOverrides(entries: Storage, first: Option<User>, second: Option<User>)
    ensures Persisted(Persisted(entries, first), second) == Persisted(entries, second)
  {
    var a := Persisted(Persisted(entries, first), second);
    var b := Persisted(entries, second);
    assert a.Keys == b.Keys;
    forall k | k in a ensures a[k] == b[k] {
      if k == UserStorageKey {
        assert RestoredUser(a) == RestoredUser(b);
      }
    }
  }

  // ---------------------------------------------------------------------
  // Likes
  // ---------------------------------------------------------------------

  /** The likes list after a swipe of `listing`: only a right swipe on a new id appends it. */
  function AddLike(likes: seq<Listing>, direction: Direction, listing: Listing): (r: seq<Listing>)
    ensures direction != Right ==> r == likes
    ensures direction == Right && listing.id in IdsOf(likes) ==> r == likes
    ensures direction == Right && listing.id !in IdsOf(likes) ==> r == likes + [listing]
    ensures IdsOf(r) == if direction == Right then IdsOf(likes) + {listing.id} else IdsOf(likes)
    ensures UniqueIds(likes) ==> UniqueIds(r)
  {
    if direction == Right && listing.id !in IdsOf(likes) then
      AppendNewId(likes, listing);
      likes + [listing]
    else likes
  }

  /** Appending an entry with a new id adds that id and keeps the sequence duplicate-free. */
  lemma AppendNewId(s: seq<Listing>, l: Listing)
    requires l.id !in IdsOf(s)
    ensures IdsOf(s + [l]) == IdsOf(s) + {l.id}
    ensures UniqueIds(s) ==> UniqueIds(s + [l])
  {
    assert IdsOf([l]) == {l.id} by { assert [l][1..] == []; }
    IdsOfConcat(s, [l]);
    assert UniqueIds([l]);
    UniqueIdsConcat(s, [l]);
  }

  /** Liking two listings with the same id keeps exactly one entry with that id. */
  lemma LikeTwiceKeepsOne(likes: seq<Listing>, first: Listing, second: Listing)
    requires UniqueIds(likes) && first.id == second.id
    ensures var r := AddLike(AddLike(likes, Right, first), Right, second);
      r == AddLike(likes, Right, first) && Occurrences(r, first.id) == 1
  {
    var r := AddLike(likes, Right, first);
    OccurrencesOfUnique(r, first.id);
  }

  /** A run of swipes never puts the same id into the likes list twice, and keeps earlier entries. */
  lemma {:induction false} SwipesKeepLikesUnique(likes: seq<Listing>, swipes: seq<SwipeEvent>)
    requires UniqueIds(likes)
    ensures UniqueIds(AfterSwipes(likes, swipes))
    ensures |likes| <= |AfterSwipes(likes, swipes)| && AfterSwipes(likes, swipes)[..|likes|] == likes
    decreases |swipes|
  {
    if swipes != [] {
      var next := AddLike(likes, swipes[0].direction, swipes[0].listing);
      SwipesKeepLikesUnique(next, swipes[1..]);
      assert next[..|likes|] == likes;
    }
  }

  /** The likes list after a sequence of swipes. */
  function AfterSwipes(likes: seq<Listing>, swipes: seq<SwipeEvent>): seq<Listing>
    decreases |swipes|
  {
    if swipes == [] then likes
    else AfterSwipes(AddLike(likes, swipes[0].direction, swipes[0].listing), swipes[1..])
  }

  // ---------------------------------------------------------------------
  // The component's state
  // ---------------------------------------------------------------------

  /** The browser's local storage, which outlives one run of the app. */
  class BrowserStorage {
    var entries: Storage

    constructor (entries: Storage)
      ensures this.entries == entries
    {
      this.entries := entries;
    }
  }

  class AppState {
    /** The `useListings` hook instance. */
    const listings: ListingBuffer
    const storage: BrowserStorage
    var user: Option<User>
    var likes: seq<Listing>

    ghost predicate Valid()
      reads this, listings
    {
      listings.Valid() && UniqueIds(likes)
    }

    /** The first render: no user yet, no likes, and a fresh hook state. */
    constructor (storage: BrowserStorage)
      ensures Valid() && fresh(listings) && this.storage == storage
      ensures user == None && likes == []
      ensures listings.displayed == [] && listings.pool == [] && listings.loading
      ensures listings.error == None && !listings.initialized
    {
      listings := new ListingBuffer();
      this.storage := storage;
      user := None;
      likes := [];
    }

    /** The startup effect: adopts a readable stored user, and otherwise changes nothing. */
    method RestoreSession()
      requires Valid()
      modifies this
      ensures Valid()
      ensures user == if RestoredUser(storage.entries).Some? then RestoredUser(storage.entries) else old(user)
      ensures likes == old(likes)
    {
      var saved := RestoredUser(storage.entries);
      if saved.Some? {
        user := saved;
      }
    }

    /** `persistUser(next)`: sets `user` and mirrors it into storage; a throwing storage is ignored. */
    method PersistUser(next: Option<User>, storageThrows: bool)
      requires Valid()
      modifies this, storage
      ensures Valid()
      ensures user == next && likes == old(likes)
      ensures storage.entries == if storageThrows then old(storage.entries) else Persisted(old(storage.entries), next)
    {
      user := next;
      if !storageThrows {
        storage.entries := Persisted(storage.entries, next);
      }
    }

    /** `handleLogout`. */
    method Logout(storageThrows: bool)
      requires Valid()
      modifies this, storage
      ensures Valid()
      ensures user == None && likes == old(likes)
      ensures storage.entries == if storageThrows then old(storage.entries) else Persisted(old(storage.entries), None)
      ensures !storageThrows ==> UserStorageKey !in storage.entries && RestoredUser(storage.entries) == None
    {
      PersistUser(None, storageThrows);
    }

    /**
     * `handleSwipe(direction, listing)`: a missing listing changes nothing; otherwise
     * the listing is consumed from the window and, on a right swipe, liked once.
     */
    method HandleSwipe(direction: Direction, listing: Option<Listing>)
      requires Valid()
      modifies this, listings
      ensures Valid()
      ensures user == old(user)
      ensures listing.None? ==> likes == old(likes) && listings.displayed == old(listings.displayed)
      ensures listing.Some? ==>
        && likes == AddLike(old(likes), direction, listing.value)
        && listings.displayed == Consumed(old(listings.displayed), listing.value.id)
      ensures listings.pool == old(listings.pool) && listings.loading == old(listings.loading)
      ensures listings.error == old(listings.error) && listings.initialized == old(listings.initialized)
      ensures old(listings.IdsApart()) ==> listings.IdsApart()
    {
      if listing.None? {
        return;
      }
      var l := listing.value;
      listings.ConsumeListing(l.id);
      if direction == Right && l.id !in IdsOf(likes) {
        likes := likes + [l];
      }
    }

    /** A swipe on a card of `deck`, delivered to `handleSwipe` through `onSwipe`. */
    method SwipeCard(deck: Deck, direction: Direction, listing: Listing)
      requires Valid()
      modifies this, listings, deck
      ensures Valid()
      ensures user == old(user)
      ensures direction == Up || direction == Down ==>
        likes == old(likes) && listings.displayed == old(listings.displayed) && deck.lastSwipe == old(deck.lastSwipe)
      ensures direction == Left || direction == Right ==>
        && likes == AddLike(old(likes), direction, listing)
        && listings.displayed == Consumed(old(listings.displayed), listing.id)
        && deck.lastSwipe == Some(Feedback(direction, SwipeMessage(direction), listing))
      ensures listings.pool == old(listings.pool) && listings.loading == old(listings.loading)
      ensures listings.error == old(listings.error) && listings.initialized == old(listings.initialized)
    {
      var forwarded := deck.CardSwiped(direction, listing, true);
      if forwarded != [] {
        HandleSwipe(forwarded[0].direction, Some(forwarded[0].listing));
      }
    }

    /** What the deck column shows. */
    function DeckView(deck: Deck): (v: Screen)
      reads this, listings, deck
      ensures v.DeckScreen? ==> v.cards == Stack(listings.displayed) && v.banner == deck.lastSwipe
      ensures v == LoadingScreen <==> listings.loading
    {
      Render(listings.displayed, listings.loading, listings.error, deck.lastSwipe)
    }
  }
}
