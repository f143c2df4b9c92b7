/**
 * The favourites screen's list (src/features/series/hooks/useFavoritesRefresh.ts):
 * loaded on mount and again whenever the app comes back to the foreground.
 *
 * The list comes from the favourites store; whether its read fails is a
 * parameter. The store's read never throws (it turns a failure into the
 * empty list), so the hook's own empty `catch` is never reached and a
 * failed read shows an empty list.
 */
module FavoritesRefresh {

  import opened FavoritesService

  /** The state of one `useFavoritesRefresh` hook. */
  class FavoritesView {
    var favorites: seq<FavoriteItem>
    var loading: bool

    constructor ()
      ensures favorites == [] && loading
    {
      favorites := [];
      loading := true;
    }

    /**
     * `loadFavorites` (also `refreshFavorites`): the list becomes what the
     * store yields, the stored list or [] when there is none or it cannot
     * be read; `loading` ends false and the store is unchanged.
     */
    method LoadFavorites(store: FavoritesStore, readFails: bool)
      modifies this
      ensures favorites == store.Read(readFails) && !loading
      ensures readFails ==> favorites == []
    {
      loading := true;
      var favoritesList := store.GetFavorites(readFails);
      favorites := favoritesList;
      loading := false;
    }

    /** The app-state listener: only a change to "active" reloads the list. */
    method HandleAppStateChange(nextAppState: string, store: FavoritesStore, readFails: bool)
      modifies this
      ensures nextAppState == "active" ==> favorites == store.Read(readFails) && !loading
      ensures nextAppState != "active" ==> favorites == old(favorites) && loading == old(loading)
    {
      if nextAppState == "active" {
        LoadFavorites(store, readFails);
      }
    }
  }
}
