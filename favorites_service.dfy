/**
 * The persisted favourites list (src/services/favoritesService.ts).
 *
 * One storage key holds the whole list; every operation reads it, rebuilds
 * it and writes all of it back. The list transforms (append, `filter`,
 * `some`) are functions here; the store is a class whose one field is the
 * stored value. Whether a read or a write of the key fails is a parameter
 * of each operation.
 */
module FavoritesService {

  import opened Types

  /** The part of a series kept in the favourites list. */
  datatype FavoriteItem = FavoriteItem(
    id: int,
    name: string,
    image: Option<Image>,
    genres: Option<seq<string>>,
    rating: Option<Rating>,
    status: Option<string>,
    premiered: Option<string>)

  /** How an awaited store operation settled: with a value, or by throwing. */
  datatype Settled<+T> = Resolved(value: T) | Rejected

  function ToFavoriteItem(s: Series): (f: FavoriteItem)
    ensures f.id == s.id && f.name == s.name && f.image == s.image && f.genres == s.genres
    ensures f.rating == s.rating && f.status == s.status && f.premiered == s.premiered
  {
    FavoriteItem(s.id, s.name, s.image, s.genres, s.rating, s.status, s.premiered)
  }

  /** `favorites.some(fav => fav.id === id)`. */
  predicate HasId(items: seq<FavoriteItem>, id: int) {
    exists i :: 0 <= i < |items| && items[i].id == id
  }

  /** `favorites.filter(fav => fav.id !== id)`: the other items, in their order. */
  function Without(items: seq<FavoriteItem>, id: int): (r: seq<FavoriteItem>)
    ensures |r| <= |items|
    ensures forall x :: x in r <==> x in items && x.id != id
    ensures !HasId(r, id)
  {
    if items == [] then []
    else (if items[0].id != id then [items[0]] else []) + Without(items[1..], id)
  }

  /** Filtering distributes over concatenation. */
  lemma {:induction false} WithoutAppend(xs: seq<FavoriteItem>, ys: seq<FavoriteItem>, id: int)
    ensures Without(xs + ys, id) == Without(xs, id) + Without(ys, id)
  {
    if xs != [] {
      assert (xs + ys)[1..] == xs[1..] + ys;
      WithoutAppend(xs[1..], ys, id);
    } else {
      assert xs + ys == ys;
    }
  }

  /** Removing an id that is not there changes nothing. */
  lemma {:induction false} WithoutAbsent(items: seq<FavoriteItem>, id: int)
    requires !HasId(items, id)
    ensures Without(items, id) == items
  {
    if items != [] {
      WithoutAbsent(items[1..], id);
    }
  }

  /** At most one item per id. */
  predicate UniqueIds(items: seq<FavoriteItem>) {
    forall i, j :: 0 <= i < j < |items| ==> items[i].id != items[j].id
  }

  lemma {:induction false} WithoutKeepsUnique(items: seq<FavoriteItem>, id: int)
    requires UniqueIds(items)
    ensures UniqueIds(Without(items, id))
  {
    if items != [] {
      var tail := items[1..];
      assert UniqueIds(tail) by {
        forall i, j | 0 <= i < j < |tail| ensures tail[i].id != tail[j].id {
          assert tail[i] == items[i + 1] && tail[j] == items[j + 1];
        }
      }
      WithoutKeepsUnique(tail, id);
      var rest := Without(tail, id);
      if items[0].id != id {
        forall k | 0 <= k < |rest| ensures rest[k].id != items[0].id {
          assert rest[k] in tail;
          var m :| 0 <= m < |tail| && tail[m] == rest[k];
          assert tail[m] == items[m + 1];
        }
        var r := [items[0]] + rest;
        forall i, j | 0 <= i < j < |r| ensures r[i].id != r[j].id {
          if i > 0 { assert r[i] == rest[i - 1] && r[j] == rest[j - 1]; }
          else { assert r[j] == rest[j - 1]; }
        }
      } else {
        assert Without(items, id) == [] + rest;
      }
    }
  }

  /** What `toggleFavorite` writes back when both of its reads see `items`. */
  function Toggled(items: seq<FavoriteItem>, s: Series): (r: seq<FavoriteItem>)
    ensures HasId(r, s.id) <==> !HasId(items, s.id)
  {
    if HasId(items, s.id) then Without(items, s.id)
    else
      var r := items + [ToFavoriteItem(s)];
      assert r[|items|].id == s.id;
      r
  }

  /** Toggling a series twice, starting without it, restores the list exactly. */
  lemma {:induction false} ToggleTwiceRestores(items: seq<FavoriteItem>, s: Series)
    requires !HasId(items, s.id)
    ensures Toggled(Toggled(items, s), s) == items
  {
    var item := ToFavoriteItem(s);
    assert HasId(items + [item], s.id) by { assert (items + [item])[|items|].id == s.id; }
    WithoutAppend(items, [item], s.id);
    WithoutAbsent(items, s.id);
    assert Without([item], s.id) == [];
  }

  /** Toggling never produces a second item with the same id. */
  lemma {:induction false} ToggleKeepsIdsUnique(items: seq<FavoriteItem>, s: Series)
    requires UniqueIds(items)
    ensures UniqueIds(Toggled(items, s))
  {
    if HasId(items, s.id) {
      WithoutKeepsUnique(items, s.id);
    } else {
      var r := items + [ToFavoriteItem(s)];
      forall i, j | 0 <= i < j < |r| ensures r[i].id != r[j].id {
        if j == |items| {
          assert r[i] == items[i];
        }
      }
    }
  }

  /**
   * What `toggleFavorite` writes back when its membership read sees `first`
   * and the read inside the add or remove it calls sees `second`. Each read
   * yields [] when it fails, so the two need not agree; `Toggled` is the
   * case where they do.
   */
  function ToggleWrite(first: seq<FavoriteItem>, second: seq<FavoriteItem>, s: Series): (r: seq<FavoriteItem>)
    ensures HasId(first, s.id) ==> !HasId(r, s.id) && |r| <= |second|
    ensures !HasId(first, s.id) ==> |r| == |second| + 1 && r[..|second|] == second && r[|second|].id == s.id
    ensures first == second ==> r == Toggled(first, s)
  {
    if HasId(first, s.id) then Without(second, s.id) else second + [ToFavoriteItem(s)]
  }

  /**
   * A failed membership read with the series already stored: the series is
   * appended a second time, so the ids are no longer unique.
   */
  lemma {:induction false} MissedFirstReadDuplicates(items: seq<FavoriteItem>, s: Series)
    requires HasId(items, s.id)
    ensures ToggleWrite([], items, s) == items + [ToFavoriteItem(s)]
    ensures !UniqueIds(ToggleWrite([], items, s))
  {
    var r := ToggleWrite([], items, s);
    var i :| 0 <= i < |items| && items[i].id == s.id;
    assert r[i] == items[i] && r[|items|].id == s.id;
  }

  /**
   * A failed read inside the add or remove: every other favourite is lost,
   * and the list written back is empty or holds only the toggled series.
   */
  lemma {:induction false} MissedSecondReadErases(items: seq<FavoriteItem>, s: Series)
    ensures ToggleWrite(items, [], s) == if HasId(items, s.id) then [] else [ToFavoriteItem(s)]
  {
    if HasId(items, s.id) {
      assert |Without([], s.id)| <= 0;
    }
  }

  /** The favourites key of the device's key-value store. */
  class FavoritesStore {
    /** None while nothing has been written under the key. */
    var stored: Option<seq<FavoriteItem>>

    constructor ()
      ensures stored == None
    {
      stored := None;
    }

    /** What `getFavorites` yields: the stored list, or [] when absent or unreadable. */
    function Read(readFails: bool): seq<FavoriteItem>
      reads this
    {
      if readFails then [] else stored.GetOr([])
    }

    method GetFavorites(readFails: bool) returns (items: seq<FavoriteItem>)
      ensures readFails || stored == None ==> items == []
      ensures !readFails && stored.Some? ==> items == stored.value
    {
      if readFails {
        items := [];
      } else {
        match stored
        case None => items := [];
        case Some(list) => items := list;
      }
    }

    /** Appends the series' item after the list read; a failed write is rethrown. */
    method AddFavorite(series: Series, readFails: bool, writeFails: bool) returns (ok: bool)
      modifies this
      ensures ok == !writeFails
      ensures ok ==> stored == Some(old(Read(readFails)) + [ToFavoriteItem(series)])
      ensures !ok ==> stored == old(stored)
    {
      var favorites := GetFavorites(readFails);
      var updated := favorites + [ToFavoriteItem(series)];
      if writeFails {
        ok := false;
      } else {
        stored := Some(updated);
        ok := true;
      }
    }

    /** Writes back the list read minus every item with that id; a failed write is rethrown. */
    method RemoveFavorite(seriesId: int, readFails: bool, writeFails: bool) returns (ok: bool)
      modifies this
      ensures ok == !writeFails
      ensures ok ==> stored == Some(Without(old(Read(readFails)), seriesId))
      ensures !ok ==> stored == old(stored)
    {
      var favorites := GetFavorites(readFails);
      var updated := Without(favorites, seriesId);
      if writeFails {
        ok := false;
      } else {
        stored := Some(updated);
        ok := true;
      }
    }

    method IsFavorite(seriesId: int, readFails: bool) returns (present: bool)
      ensures present <==> !readFails && stored.Some? && HasId(stored.value, seriesId)
    {
      var favorites := GetFavorites(readFails);
      present := exists i :: 0 <= i < |favorites| && favorites[i].id == seriesId;
    }

    /**
     * Reads membership, then removes or appends through the operations
     * above, which read the list a second time. Resolves with the new
     * membership; a failed write rejects.
     */
    method ToggleFavorite(series: Series, firstReadFails: bool, secondReadFails: bool, writeFails: bool)
      returns (r: Settled<bool>)
      modifies this
      ensures r == if writeFails then Rejected else Resolved(!HasId(old(Read(firstReadFails)), series.id))
      ensures writeFails ==> stored == old(stored)
      ensures !writeFails ==>
        stored == Some(ToggleWrite(old(Read(firstReadFails)), old(Read(secondReadFails)), series))
      ensures !firstReadFails && !secondReadFails && !writeFails ==>
        stored == Some(Toggled(old(stored).GetOr([]), series))
        && r == Resolved(HasId(stored.value, series.id))
    {
      var present := IsFavorite(series.id, firstReadFails);
      assert present == HasId(old(Read(firstReadFails)), series.id);
      var ok: bool;
      if present {
        ok := RemoveFavorite(series.id, secondReadFails, writeFails);
      } else {
        ok := AddFavorite(series, secondReadFails, writeFails);
      }
      r := if ok then Resolved(!present) else Rejected;
    }
  }
}
