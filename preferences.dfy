/**
 * The preferences slice: dark mode, category choices, the favourites list and
 * the manual feed order, each mirrored into browser storage.
 */
module PreferencesSlice {

  /** The JSON value stored under a key: a boolean or an array of strings. */
  datatype Stored = Flag(on: bool) | Strings(values: seq<string>)

  const DarkModeKey := "darkMode"
  const CategoriesKey := "categories"
  const FavoritesKey := "favorites"
  const FeedOrderKey := "feedOrder"

  const DefaultCategories := ["Technology", "Sports", "Finance"]

  /** Each key this slice writes holds the kind of value it writes there. */
  predicate WellFormedStorage(storage: map<string, Stored>) {
    && (DarkModeKey in storage ==> storage[DarkModeKey].Flag?)
    && (CategoriesKey in storage ==> storage[CategoriesKey].Strings?)
    && (FavoritesKey in storage ==> storage[FavoritesKey].Strings?)
    && (FeedOrderKey in storage ==> storage[FeedOrderKey].Strings?)
  }

  predicate NoDuplicates(ids: seq<string>) {
    forall i, j :: 0 <= i < j < |ids| ==> ids[i] != ids[j]
  }

  /** The list after `addToFavorites(id)`: unchanged when present, `id` pushed at the end otherwise. */
  function Added(ids: seq<string>, id: string): seq<string> {
    if id in ids then ids else ids + [id]
  }

  /** `ids.filter(x => x !== id)` */
  function Removed(ids: seq<string>, id: string): (r: seq<string>)
    ensures forall x :: x in r <==> x in ids && x != id
    ensures multiset(r) == multiset(ids)[id := 0]
  {
    if ids == [] then []
    else
      assert ids == [ids[0]] + ids[1..];
      (if ids[0] != id then [ids[0]] else []) + Removed(ids[1..], id)
  }

  /** Removal works element by element: it keeps the remaining ids in their original order. */
  lemma {:induction false} RemovedConcat(a: seq<string>, b: seq<string>, id: string)
    ensures Removed(a + b, id) == Removed(a, id) + Removed(b, id)
  {
    if a == [] {
      assert a + b == b;
    } else {
      var ab := a + b;
      assert ab[0] == a[0] && ab[1..] == a[1..] + b;
      RemovedConcat(a[1..], b, id);
    }
  }

  /** Removing an id that is absent changes nothing. */
  lemma {:induction false} RemovedAbsent(ids: seq<string>, id: string)
    requires id !in ids
    ensures Removed(ids, id) == ids
  {
    if ids != [] {
      assert ids[0] in ids;
      assert id !in ids[1..];
      RemovedAbsent(ids[1..], id);
      assert ids == [ids[0]] + ids[1..];
    }
  }

  /** Adding an id that is absent and then removing it restores the list. */
  lemma AddThenRemoveRestores(ids: seq<string>, id: string)
    requires id !in ids
    ensures Removed(Added(ids, id), id) == ids
  {
    RemovedConcat(ids, [id], id);
    RemovedAbsent(ids, id);
  }

  /** Adding the same id twice gives what adding it once gives. */
  lemma AddTwiceIsAddOnce(ids: seq<string>, id: string)
    ensures Added(Added(ids, id), id) == Added(ids, id)
  {
  }

  /** On a list without duplicates, the added id is then present exactly once. */
  lemma AddedCountsOnce(ids: seq<string>, id: string)
    requires NoDuplicates(ids)
    ensures multiset(Added(ids, id))[id] == 1
  {
    if id in ids {
      var k :| 0 <= k < |ids| && ids[k] == id;
      NoDuplicatesCountsOnce(ids, k);
    } else {
      assert multiset(ids)[id] == 0;
    }
  }

  lemma {:induction false} NoDuplicatesCountsOnce(ids: seq<string>, k: nat)
    requires NoDuplicates(ids) && k < |ids|
    ensures multiset(ids)[ids[k]] == 1
  {
    var x := ids[k];
    var tail := ids[1..];
    assert ids == [ids[0]] + tail;
    assert NoDuplicates(tail) by {
      forall i, j | 0 <= i < j < |tail| ensures tail[i] != tail[j] {
        assert tail[i] == ids[i + 1] && tail[j] == ids[j + 1];
      }
    }
    if k == 0 {
      assert x !in tail;
    } else {
      NoDuplicatesCountsOnce(tail, k - 1);
      assert tail[k - 1] == x && ids[0] != x;
    }
  }

  /** Adding keeps the list free of duplicates. */
  lemma AddedKeepsNoDuplicates(ids: seq<string>, id: string)
    requires NoDuplicates(ids)
    ensures NoDuplicates(Added(ids, id))
  {
  }

  /** Removing keeps the list free of duplicates. */
  lemma {:induction false} RemovedKeepsNoDuplicates(ids: seq<string>, id: string)
    requires NoDuplicates(ids)
    ensures NoDuplicates(Removed(ids, id))
  {
    if ids != [] {
      var tail := ids[1..];
      assert NoDuplicates(tail) by {
        forall i, j | 0 <= i < j < |tail| ensures tail[i] != tail[j] {
          assert tail[i] == ids[i + 1] && tail[j] == ids[j + 1];
        }
      }
      RemovedKeepsNoDuplicates(tail, id);
      var rest := Removed(tail, id);
      if ids[0] != id {
        var r := [ids[0]] + rest;
        assert ids[0] !in tail;
        forall i, j | 0 <= i < j < |r| ensures r[i] != r[j] {
          if i == 0 {
            assert r[j] == rest[j - 1] && r[j] in rest;
          } else {
            assert r[i] == rest[i - 1] && r[j] == rest[j - 1];
          }
        }
      }
    }
  }

  class Preferences {
    var darkMode: bool
    var categories: seq<string>
    var favorites: seq<string>
    var feedOrder: seq<string>
    /** The browser's `localStorage`, with JSON values already parsed. */
    var storage: map<string, Stored>

    ghost predicate Valid()
      reads this
    {
      WellFormedStorage(storage)
    }

    /** `initialState`, next to a browser storage left by earlier sessions. */
    constructor (saved: map<string, Stored>)
      requires WellFormedStorage(saved)
      ensures Valid()
      ensures !darkMode && categories == DefaultCategories && favorites == [] && feedOrder == []
      ensures storage == saved
    {
      darkMode := false;
      categories := DefaultCategories;
      favorites := [];
      feedOrder := [];
      storage := saved;
    }

    method ToggleDarkMode()
      requires Valid()
      modifies this
      ensures Valid()
      ensures darkMode == !old(darkMode)
      ensures storage == old(storage)[DarkModeKey := Flag(darkMode)]
      ensures categories == old(categories) && favorites == old(favorites) && feedOrder == old(feedOrder)
    {
      darkMode := !darkMode;
      storage := storage[DarkModeKey := Flag(darkMode)];
    }

    /** Sets the flag without writing storage. */
    method SetDarkMode(on: bool)
      requires Valid()
      modifies this
      ensures Valid()
      ensures darkMode == on
      ensures storage == old(storage)
      ensures categories == old(categories) && favorites == old(favorites) && feedOrder == old(feedOrder)
    {
      darkMode := on;
    }

    method UpdateCategories(payload: seq<string>)
      requires Valid()
      modifies this
      ensures Valid()
      ensures categories == payload
      ensures storage == old(storage)[CategoriesKey := Strings(payload)]
      ensures darkMode == old(darkMode) && favorites == old(favorites) && feedOrder == old(feedOrder)
    {
      categories := payload;
      storage := storage[CategoriesKey := Strings(payload)];
    }

    method AddToFavorites(id: string)
      requires Valid()
      modifies this
      ensures Valid()
      ensures favorites == Added(old(favorites), id)
      ensures id in old(favorites) ==> storage == old(storage)
      ensures id !in old(favorites) ==> favorites == old(favorites) + [id]
      ensures id !in old(favorites) ==> storage == old(storage)[FavoritesKey := Strings(favorites)]
      ensures NoDuplicates(old(favorites)) ==> NoDuplicates(favorites)
      ensures darkMode == old(darkMode) && categories == old(categories) && feedOrder == old(feedOrder)
    {
      if NoDuplicates(favorites) {
        AddedKeepsNoDuplicates(favorites, id);
      }
      if id !in favorites {
        favorites := favorites + [id];
        storage := storage[FavoritesKey := Strings(favorites)];
      }
    }

    method RemoveFromFavorites(id: string)
      requires Valid()
      modifies this
      ensures Valid()
      ensures favorites == Removed(old(favorites), id)
      ensures id !in favorites
      ensures storage == old(storage)[FavoritesKey := Strings(favorites)]
      ensures NoDuplicates(old(favorites)) ==> NoDuplicates(favorites)
      ensures darkMode == old(darkMode) && categories == old(categories) && feedOrder == old(feedOrder)
    {
      if NoDuplicates(favorites) {
        RemovedKeepsNoDuplicates(favorites, id);
      }
      favorites := Removed(favorites, id);
      storage := storage[FavoritesKey := Strings(favorites)];
    }

    method UpdateFeedOrder(payload: seq<string>)
      requires Valid()
      modifies this
      ensures Valid()
      ensures feedOrder == payload
      ensures storage == old(storage)[FeedOrderKey := Strings(payload)]
      ensures darkMode == old(darkMode) && categories == old(categories) && favorites == old(favorites)
    {
      feedOrder := payload;
      storage := storage[FeedOrderKey := Strings(payload)];
    }

    /** Overwrites a field only when its key is in storage; storage itself is not written. */
    method LoadFromStorage()
      requires Valid()
      modifies this
      ensures Valid()
      ensures storage == old(storage)
      ensures darkMode == if DarkModeKey in storage then storage[DarkModeKey].on else old(darkMode)
      ensures categories == if CategoriesKey in storage then storage[CategoriesKey].values else old(categories)
      ensures favorites == if FavoritesKey in storage then storage[FavoritesKey].values else old(favorites)
      ensures feedOrder == if FeedOrderKey in storage then storage[FeedOrderKey].values else old(feedOrder)
    {
      if DarkModeKey in storage {
        darkMode := storage[DarkModeKey].on;
      }
      if CategoriesKey in storage {
        categories := storage[CategoriesKey].values;
      }
      if FavoritesKey in storage {
        favorites := storage[FavoritesKey].values;
      }
      if FeedOrderKey in storage {
        feedOrder := storage[FeedOrderKey].values;
      }
    }
  }

  /** Toggling twice restores the flag; storage then holds the restored value. */
  method ToggleDarkModeTwice(p: Preferences)
    requires p.Valid()
    modifies p
    ensures p.Valid()
    ensures p.darkMode == old(p.darkMode)
    ensures p.storage == old(p.storage)[DarkModeKey := Flag(old(p.darkMode))]
    ensures p.categories == old(p.categories) && p.favorites == old(p.favorites) && p.feedOrder == old(p.feedOrder)
  {
    p.ToggleDarkMode();
    p.ToggleDarkMode();
  }

  /** Favouriting an absent id and then unfavouriting it restores the list. */
  method FavoriteThenUnfavorite(p: Preferences, id: string)
    requires p.Valid()
    requires id !in p.favorites
    modifies p
    ensures p.Valid()
    ensures p.favorites == old(p.favorites)
    ensures p.storage == old(p.storage)[FavoritesKey := Strings(old(p.favorites))]
    ensures p.darkMode == old(p.darkMode) && p.categories == old(p.categories) && p.feedOrder == old(p.feedOrder)
  {
    p.AddToFavorites(id);
    p.RemoveFromFavorites(id);
    AddThenRemoveRestores(old(p.favorites), id);
  }
}
