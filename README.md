# jobsity-series-app — a Dafny model of the client's state machines

The app is a mobile TV-catalogue client. It browses the catalogue page by
page and searches series by name. A search result is paged twenty at a time
from a pool kept on the client. The app also keeps a persisted favourites
list and guards entry with a PIN and an optional biometric prompt. It shows
a series' episodes grouped by season, and searches people and shows a
person's details. This project models the client-side logic of those
features and proves properties of it:

- `series_data.dfy` covers the browse/search pager of the `useSeriesData` hook.
  `Pager` is the hook's state as a value, and `LoadMore`, `Search`,
  `WithTerm`, `Refresh`, `OnFocus` and `Mounted` are its transitions.
  The class `SeriesPager` updates the same fields step by step, and each
  method is proved to end where its transition ends.
- `favorites_service.dfy` is the favourites store: a read-modify-write
  over one stored list.
- `favorites_refresh.dfy` reloads the favourites when the app comes to the
  foreground.
- `auth.dfy` is the PIN / biometric gate over the device's secure store.
  `Gate` and `Vault` are values with transitions. `AuthGate` and
  `CredentialStore` are the classes.
- `episodes.dfy` covers the `useEpisodes` hook: grouping a series' episodes
  by season, then sorting seasons and episodes.
- `people_search.dfy` and `person_details.dfy` are the people search hook
  and the person details hook.
- `validation.dfy`, `series_formatting.dfy` and `person_utils.dfy` are the
  pure helpers: PIN and e-mail checks, tag stripping and truncation, the
  genre line and status colour, the age line and the person route
  parameters.
- `types.dfy` holds the shared records and the remote-call outcome `Fetch`.
  `text.dfy` holds JavaScript's `trim` white space and integer-to-decimal
  rendering.

Each awaited call is one atomic step. A remote client is a function
parameter, whose result is a list, a typed service error (message and
optional status) or some other failure. A store read or write that may
fail has a boolean parameter saying whether it does. The in-flight refs of
the pager are boolean fields that a step raises and releases.

## Model

| member | source | states |
|---|---|---|
| Types.ToAPIError | src/features/series/hooks/useSeriesData.ts:80-85 | A typed service error keeps its message and status; any other failure becomes the hook's generic message with no status |
| SeriesData.Initial | src/features/series/hooks/useSeriesData.ts:23-36 | Empty list and pool, page 0, cursor 0, `hasMore` true, not loading, no error, blank term, not initialised |
| SeriesData.NextBatch | src/features/series/hooks/useSeriesData.ts:57-70 | The search-mode step appends `pool[cursor..cursor+20]` (at most 20 items), advances the cursor by its length and keeps `hasMore` exactly while the cursor is short of the pool |
| SeriesData.NextPage | src/features/series/hooks/useSeriesData.ts:71-85 | Browse step: an empty page only clears `hasMore`; a non-empty one is appended and the page advances by one; a failure only records the mapped error |
| SeriesData.LoadMore | src/features/series/hooks/useSeriesData.ts:49-98 | Blocked (loading, no more, or in flight) means no change. A run ends not loading with the ref released, only appends, keeps pool and term, and an error leaves list, page and cursor as they were. Search mode appends the next pool batch (≤ 20) with `hasMore` iff pool remains. Browse mode is as `NextPage` |
| SeriesData.Search | src/features/series/hooks/useSeriesData.ts:100-148 | Ignored while a search is in flight. A blank query over a non-blank term resets list, pool, page, `hasMore`, cursor and error without a request. Otherwise success shows the first min(n, 20) results with `hasMore` iff n > 20, and failure records the mapped error keeping list, pool, page and cursor |
| SeriesData.Searched | src/features/series/hooks/useSeriesData.ts:122-139 | A successful query makes its result the pool, shows its first min(n, 20) items with the cursor there and `hasMore` iff n > 20; a failure only records the mapped error |
| SeriesData.WithTerm | src/features/series/hooks/useSeriesData.ts:150-152 | Only the term changes |
| SeriesData.FirstPage | src/features/series/hooks/useSeriesData.ts:171-185 | A page-0 result: non-empty shows it with page 1 next and `hasMore`; empty clears `hasMore`; failure records the mapped error |
| SeriesData.Refresh | src/features/series/hooks/useSeriesData.ts:161-189 | Clears the term, pool, cursor and error and refetches page 0: non-empty gives list = page 0, page 1, `hasMore`; empty gives page 0 and no more; failure leaves the emptied list with the mapped error |
| SeriesData.OnFocus | src/features/series/hooks/useSeriesData.ts:191-214 | Fetches only with a blank term and an empty list, otherwise no change; the pool, cursor and term are kept |
| SeriesData.Mounted | src/features/series/hooks/useSeriesData.ts:216-221 | The first mount marks the hook initialised and runs one load; later ones change nothing |
| SeriesData.TransitionsKeepValid | src/features/series/hooks/useSeriesData.ts:49-221 | Every transition from a state at rest with the cursor inside the pool ends at rest with the cursor inside the pool |
| SeriesData.SearchOpensWindow | src/features/series/hooks/useSeriesData.ts:121-131 | After a successful search the list is exactly the shown prefix of the pool and `hasMore` is false only with the whole pool shown |
| SeriesData.LoadMoreKeepsWindow | src/features/series/hooks/useSeriesData.ts:57-70 | A search-mode load keeps the list equal to the shown prefix of the pool |
| SeriesData.LoadMoreTimes | src/features/series/hooks/useSeriesData.ts:49-98 | Any number of loads keeps the pool, the term and the cursor bound |
| SeriesData.SearchLoadsDrainPool | src/features/series/hooks/useSeriesData.ts:57-70 | After k search-mode loads the first min(pool, cursor + 20k) results are shown, and once that covers the pool `hasMore` is false |
| SeriesData.ExhaustedLoadsChangeNothing | src/features/series/hooks/useSeriesData.ts:50 | With `hasMore` false any number of loads leaves the state unchanged |
| SeriesData.SearchOfTwentyFive | src/features/series/hooks/useSeriesData.ts:57-70 | A 25-result search shows 20 with more to come, and one load shows all 25 with none left |
| SeriesData.BrowseToTheEnd | src/features/series/hooks/useSeriesData.ts:71-79 | Page 0 of two items is shown with page 1 next; an empty page 1 ends paging and further loads change nothing |
| SeriesData.ClearingSearchRewinds | src/features/series/hooks/useSeriesData.ts:106-115 | Clearing a shown search rewinds to an empty first browse page and does not depend on the search client |
| SeriesData.SeriesPager.constructor | src/features/series/hooks/useSeriesData.ts:23-36 | The hook starts in the initial state |
| SeriesData.SeriesPager.ApplyNextBatch | src/features/series/hooks/useSeriesData.ts:57-70 | The search-mode body ends in the state `NextBatch` gives |
| SeriesData.SeriesPager.ApplyNextPage | src/features/series/hooks/useSeriesData.ts:71-85 | The browse-mode body ends in the state `NextPage` gives for the page received |
| SeriesData.SeriesPager.LoadMoreSeries | src/features/series/hooks/useSeriesData.ts:49-98 | The step-by-step load ends in the state `LoadMore` gives |
| SeriesData.SeriesPager.ClearSearch | src/features/series/hooks/useSeriesData.ts:106-115 | Resets list, pool, page, `hasMore`, cursor and error and releases the search ref; nothing else changes |
| SeriesData.SeriesPager.ApplySearchResult | src/features/series/hooks/useSeriesData.ts:122-139 | Ends in the state `Searched` gives for the result received |
| SeriesData.SeriesPager.HandleSearch | src/features/series/hooks/useSeriesData.ts:100-148 | The step-by-step search ends in the state `Search` gives |
| SeriesData.SeriesPager.SetSearchTerm | src/features/series/hooks/useSeriesData.ts:150-152 | Ends in the state `WithTerm` gives |
| SeriesData.SeriesPager.ClearForRefresh | src/features/series/hooks/useSeriesData.ts:162-168 | Resets list, pool, page, `hasMore`, cursor, error and term; nothing else changes |
| SeriesData.SeriesPager.ApplyFirstPage | src/features/series/hooks/useSeriesData.ts:171-185 | Ends in the state `FirstPage` gives for the page-0 result received |
| SeriesData.SeriesPager.RefreshSeries | src/features/series/hooks/useSeriesData.ts:161-189 | Ends in the state `Refresh` gives |
| SeriesData.SeriesPager.RefreshOnFocus | src/features/series/hooks/useSeriesData.ts:191-214 | Ends in the state `OnFocus` gives |
| SeriesData.SeriesPager.Mount | src/features/series/hooks/useSeriesData.ts:216-221 | Ends in the state `Mounted` gives |
| FavoritesService.ToFavoriteItem | src/services/favoritesService.ts:6-19 | The stored item keeps the series' id, name, image, genres, rating, status and premiere date |
| FavoritesService.Without | src/services/favoritesService.ts:52-57 | Keeps exactly the items whose id differs, none longer than the input, and no item with the id remains |
| FavoritesService.WithoutAppend | src/services/favoritesService.ts:52-57 | Filtering distributes over concatenation, so the order of the kept items is the original order |
| FavoritesService.WithoutAbsent | src/services/favoritesService.ts:52-57 | Removing an absent id leaves the list unchanged |
| FavoritesService.WithoutKeepsUnique | src/services/favoritesService.ts:52-57 | Removal keeps ids unique |
| FavoritesService.Toggled | src/services/favoritesService.ts:71-85 | When both reads inside `toggleFavorite` see the stored list, the id is present after the toggle iff it was absent before |
| FavoritesService.ToggleTwiceRestores | src/services/favoritesService.ts:71-85 | When both reads see the stored list, toggling an absent series twice restores the list exactly |
| FavoritesService.ToggleKeepsIdsUnique | src/services/favoritesService.ts:71-85 | When both reads see the stored list, toggling never creates a second item with the same id |
| FavoritesService.ToggleWrite | src/services/favoritesService.ts:32-85 | The write of a toggle whose two reads may differ: the membership read decides, and the list read inside the add or remove is what gets filtered or extended. When the two reads agree it is `Toggled` |
| FavoritesService.MissedFirstReadDuplicates | src/services/favoritesService.ts:23-50 | If the membership read fails while the series is stored, the series is appended again and ids are no longer unique |
| FavoritesService.MissedSecondReadErases | src/services/favoritesService.ts:23-60 | If the read inside the add or remove fails, every other favourite is lost: the list written is empty or just the toggled series |
| FavoritesService.FavoritesStore.constructor | src/services/favoritesService.ts:23-30 | Nothing is stored at first |
| FavoritesService.FavoritesStore.GetFavorites | src/services/favoritesService.ts:23-30 | The stored list, or [] when nothing is stored or the read fails |
| FavoritesService.FavoritesStore.AddFavorite | src/services/favoritesService.ts:32-50 | On a successful write the list read gets the item appended at the end, with no deduplication; a failed write is reported and nothing changes |
| FavoritesService.FavoritesStore.RemoveFavorite | src/services/favoritesService.ts:52-60 | On a successful write the list read minus that id is stored; a failed write is reported and nothing changes |
| FavoritesService.FavoritesStore.IsFavorite | src/services/favoritesService.ts:62-69 | True iff the read succeeds and some stored item has the id |
| FavoritesService.FavoritesStore.ToggleFavorite | src/services/favoritesService.ts:71-85 | Resolves with the new membership. A successful write stores `ToggleWrite` of the two reads: it removes when the first read saw the id and appends otherwise. A failed write rejects without change. With both reads succeeding it stores `Toggled` of the old list |
| FavoritesRefresh.FavoritesView.constructor | src/features/series/hooks/useFavoritesRefresh.ts:6-7 | No favourites, loading |
| FavoritesRefresh.FavoritesView.LoadFavorites | src/features/series/hooks/useFavoritesRefresh.ts:9-18 | The favourites become what `getFavorites` yields and loading ends false |
| FavoritesRefresh.FavoritesView.HandleAppStateChange | src/features/series/hooks/useFavoritesRefresh.ts:24-28 | Only "active" reloads; any other app state changes nothing |
| Auth.ReadPin | src/services/authentication.ts:15-21 | The stored PIN, or none when the read fails |
| Auth.PreferenceText | src/services/authentication.ts:31-37 | The written text is "true" exactly for an enabled preference |
| Auth.ReadBiometric | src/services/authentication.ts:39-46 | On exactly when the read succeeds and the entry is "true" |
| Auth.PreferenceRoundTrip | src/services/authentication.ts:31-46 | A preference written reads back as itself |
| Auth.InitialGate | src/features/auth/hooks/useAuth.ts:13-20 | Empty PIN and error, not authenticated, not loading, biometric spinner on, biometrics off and not available, no prompt |
| Auth.Submit | src/features/auth/hooks/useAuth.ts:52-76 | A PIN under 4 UTF-16 code units (`pin.length`) only sets the length error and leaves the store. Otherwise, with no readable PIN, the candidate is saved and the gate opens, or a failed save sets the generic failure. An equal stored PIN opens with no write, and a different one sets the mismatch error and clears the field. Only set-up writes, `isLoading` ends false, and success is never undone |
| Auth.ChangePin | src/features/auth/hooks/useAuth.ts:78-81 | The field takes the text, the error is empty, nothing else changes |
| Auth.BiometricAuth | src/features/auth/hooks/useAuth.ts:83-99 | Success sets `authSuccess`; a declined prompt or a throw hides the prompt with its PIN-fallback message; success is never undone and the spinner ends off |
| Auth.TogglePreference | src/features/auth/hooks/useAuth.ts:101-109 | A failed save sets the error and changes neither gate preference nor store; a successful one flips the preference in the gate and stores the same value |
| Auth.ToggleTwiceRestores | src/features/auth/hooks/useAuth.ts:101-109 | Two successful toggles restore the gate and the stored preference |
| Auth.SkipPrompt | src/features/auth/hooks/useAuth.ts:111-114 | Hides the prompt, stops the spinner, nothing else |
| Auth.CheckAvailability | src/features/auth/hooks/useAuth.ts:26-48 | Availability is hardware and enrolment, the preference is read from the store, and the prompt runs only when both hold with a stored PIN; only a successful prompt opens the gate |
| Auth.FirstUseThenRepeat | src/features/auth/hooks/useAuth.ts:61-69 | First use saves the PIN and opens; later the same PIN opens with no write and a different one is refused with the field cleared |
| Auth.UnreadablePinIsReplaced | src/features/auth/hooks/useAuth.ts:61-64 | With the PIN entry unreadable, any candidate of 4 or more UTF-16 code units is saved over it and opens the gate |
| Auth.CredentialStore.constructor | src/services/authentication.ts:4-5 | The store holds the given entries |
| Auth.CredentialStore.GetPin | src/services/authentication.ts:15-21 | Yields `ReadPin` of the store |
| Auth.CredentialStore.SavePin | src/services/authentication.ts:7-13 | A successful write stores the PIN; a failed one is reported and changes nothing |
| Auth.CredentialStore.GetBiometricPreference | src/services/authentication.ts:39-46 | Yields `ReadBiometric` of the store |
| Auth.CredentialStore.SaveBiometricPreference | src/services/authentication.ts:31-37 | A successful write stores the preference text; a failed one is reported and changes nothing |
| Auth.AuthGate.constructor | src/features/auth/hooks/useAuth.ts:13-20 | The hook starts at `InitialGate` |
| Auth.AstralPairPassesLengthGuard | src/features/auth/hooks/useAuth.ts:53 | The length guard counts code units: a PIN of two characters beyond U+FFFF is not refused as too short and, with nothing stored, is saved and opens the gate |
| Auth.AuthGate.HandlePinSubmit | src/features/auth/hooks/useAuth.ts:52-76 | Gate and store end as `Submit` gives, with the same code-unit length guard |
| Auth.AuthGate.HandlePinChange | src/features/auth/hooks/useAuth.ts:78-81 | Ends as `ChangePin` gives |
| Auth.AuthGate.HandleBiometricAuth | src/features/auth/hooks/useAuth.ts:83-99 | Ends as `BiometricAuth` gives |
| Auth.AuthGate.ToggleBiometric | src/features/auth/hooks/useAuth.ts:101-109 | Gate and store end as `TogglePreference` gives |
| Auth.AuthGate.SkipBiometric | src/features/auth/hooks/useAuth.ts:111-114 | Ends as `SkipPrompt` gives |
| Auth.AuthGate.CheckBiometricAvailability | src/features/auth/hooks/useAuth.ts:26-48 | Ends as `CheckAvailability` gives |
| Episodes.OfSeasonMembers | src/features/episodes/hooks/useEpisodes.ts:27-35 | An episode is in its season's list exactly when it is a fetched episode of that season |
| Episodes.FindSeason | src/features/episodes/hooks/useEpisodes.ts:28 | The index of the group with the season, or -1 exactly when there is none |
| Episodes.PlaceKeepsGrouped | src/features/episodes/hooks/useEpisodes.ts:28-33 | One reduce step, which pushes onto the season's group or opens a new last group, keeps the seasons distinct, each group exactly its season's episodes in fetched order, and the same episodes overall |
| Episodes.PlaceAllGrouped | src/features/episodes/hooks/useEpisodes.ts:27-35 | The whole reduce has those three properties for every list of episodes |
| Episodes.GroupBySeason | src/features/episodes/hooks/useEpisodes.ts:27-35 | One group per season, with distinct seasons, each holding exactly its season's episodes in fetched order; together the groups hold exactly the fetched episodes |
| Episodes.InsertBySeason | src/features/episodes/hooks/useEpisodes.ts:38 | One group longer, led by the new group or by the old first group |
| Episodes.InsertBySeasonAscending | src/features/episodes/hooks/useEpisodes.ts:38 | Inserting a group of an unseen season into strictly ascending groups keeps them strictly ascending |
| Episodes.InsertBySeasonPermutes | src/features/episodes/hooks/useEpisodes.ts:38 | Inserting adds exactly that group |
| Episodes.InsertBySeasonKeepsEpisodes | src/features/episodes/hooks/useEpisodes.ts:38 | Inserting adds exactly that group's episodes to the whole |
| Episodes.SortBySeason | src/features/episodes/hooks/useEpisodes.ts:38 | The groups, permuted, in strictly ascending season order |
| Episodes.InsertByNumber | src/features/episodes/hooks/useEpisodes.ts:39-41 | One episode longer, led by the new episode or by the old first one |
| Episodes.InsertByNumberOrdered | src/features/episodes/hooks/useEpisodes.ts:39-41 | Inserting into episodes in number order keeps number order |
| Episodes.InsertByNumberPermutes | src/features/episodes/hooks/useEpisodes.ts:39-41 | Inserting adds exactly that episode |
| Episodes.InsertByNumberStable | src/features/episodes/hooks/useEpisodes.ts:39-41 | Inserting into a number-ordered list puts the episode after every episode of the same number |
| Episodes.TieOrderDetermines | src/features/episodes/hooks/useEpisodes.ts:39-41 | Two number-ordered lists with the same order among equal numbers are equal, so the sort's result is fixed by its contract |
| Episodes.SortByNumber | src/features/episodes/hooks/useEpisodes.ts:39-41 | The episodes, permuted, in non-decreasing number order, with episodes of equal number in their original order (a stable sort) |
| Episodes.GroupingPermuted | src/features/episodes/hooks/useEpisodes.ts:38 | Reordering the groups keeps a season grouping |
| Episodes.GroupingReorderedWithin | src/features/episodes/hooks/useEpisodes.ts:39-41 | Reordering inside each group keeps a season grouping |
| Episodes.SortEachSeason | src/features/episodes/hooks/useEpisodes.ts:39-41 | Each group keeps its season and its episodes, now in number order with ties in their previous order |
| Episodes.GroupEpisodes | src/features/episodes/hooks/useEpisodes.ts:27-41 | A season grouping of the fetched list: seasons strictly ascending (hence unique), episodes by number with equal numbers in fetched order, the same episodes and as many |
| Episodes.EachEpisodeInOneGroup | src/features/episodes/hooks/useEpisodes.ts:27-35 | Every fetched episode is in exactly one group, the one of its own season |
| Episodes.EpisodesState.constructor | src/features/episodes/hooks/useEpisodes.ts:13-15 | No groups, not loading, no error |
| Episodes.EpisodesState.LoadEpisodes | src/features/episodes/hooks/useEpisodes.ts:17-56 | A falsy id changes nothing. Otherwise loading ends false; success stores the sorted season grouping of the result (ties in fetched order) with no error, and failure keeps the groups and records the mapped error ("Failed to load episodes") |
| PeopleSearch.PeopleSearchState.constructor | src/features/people/hooks/usePeopleSearch.ts:6-10 | Empty query and people, not loading, no error, not searched; establishes `Valid()`, the hook's state invariant (not loading between calls, no people before a search, an error only after a search and with no people) |
| PeopleSearch.PeopleSearchState.HandleSearch | src/features/people/hooks/usePeopleSearch.ts:12-38 | A blank query empties people, clears the error and `hasSearched` with no request and leaves `loading` as it was. Otherwise success stores the results, and failure empties people and records the mapped error ("Failed to search people"); either way `hasSearched` is set and loading ends false. `Valid()` is kept (and re-established by any non-blank search) |
| PeopleSearch.PeopleSearchState.SetSearchQuery | src/features/people/hooks/usePeopleSearch.ts:6 | Only the query changes |
| PeopleSearch.PeopleSearchState.RetrySearch | src/features/people/hooks/usePeopleSearch.ts:48-50 | Runs the search on the current query, with the same outcomes, keeping `Valid()` |
| PeopleSearch.PeopleSearchState.ResetSearch | src/features/people/hooks/usePeopleSearch.ts:52-58 | Back to the initial state, so `Valid()` holds again |
| PersonDetails.BothFetched | src/features/people/hooks/usePersonDetails.ts:19-22 | Succeeds iff both requests do, with both values; otherwise it carries the person request's failure, or the credits' when only that failed |
| PersonDetails.PersonDetailsState.constructor | src/features/people/hooks/usePersonDetails.ts:6-9 | No person or credits, loading, no error |
| PersonDetails.PersonDetailsState.FetchPersonDetails | src/features/people/hooks/usePersonDetails.ts:11-34 | A falsy id changes nothing, so loading stays as it was. Otherwise loading ends false; both successes set person and credits, and any failure keeps them and records the mapped error ("Failed to load person details") |
| PersonDetails.PersonDetailsState.RetryFetch | src/features/people/hooks/usePersonDetails.ts:40-42 | The same outcomes as `FetchPersonDetails` |
| Validation.IsValidPin | src/shared/validation/validation.ts:11-14 | True iff 4 to 8 characters, all decimal digits |
| Validation.IsValidEmail | src/shared/validation/validation.ts:5-9 | True iff the address splits as a non-empty local part, one '@', and a domain with a '.' having text on both sides, with no white space and no other '@' |
| Validation.StripTags | src/shared/validation/validation.ts:28 | The global removal of `<[^>]*>`; never longer than the input. The lemmas below give its defining equations and its properties |
| Validation.StripTagsAddsNothing | src/shared/validation/validation.ts:28 | Every character of the result is a character of the input |
| Validation.StripTagsLeavesNoTag | src/shared/validation/validation.ts:28 | No '<' of the result is followed later by a '>': nothing is left for the pattern to match |
| Validation.StripTagsCons | src/shared/validation/validation.ts:28 | A first character other than '<' is kept in front of the stripped rest |
| Validation.StripTagsKeepsPlainPrefix | src/shared/validation/validation.ts:28 | Text before the first '<' is kept as it is: with no '<' in `a`, stripping `a + b` gives `a` followed by the stripped `b` |
| Validation.StripTagsDropsTag | src/shared/validation/validation.ts:28 | A '<', the text up to the first '>' after it, and that '>' are dropped together; stripping continues after it |
| Validation.StripTagsWithoutClose | src/shared/validation/validation.ts:28 | Text with no '>' is unchanged, '<' included |
| Validation.SanitizeHtml | src/shared/validation/validation.ts:26-29 | Never longer, leaves no tag, and text without '<' (the empty string included) is unchanged |
| Validation.StripTagsKeepsPlainText | src/shared/validation/validation.ts:28 | Text with nothing tag-like passes through unchanged |
| Validation.SanitizeHtmlIdempotent | src/shared/validation/validation.ts:26-29 | Sanitising twice is sanitising once |
| Validation.SanitizeMixedContent | src/shared/validation/__tests__/validation.test.ts:82-83 | "Plain text with <b>bold</b> text" sanitises to "Plain text with bold text" |
| Validation.SanitizeParagraph | src/shared/validation/__tests__/validation.test.ts:77-90 | "<p>Hello world</p>" sanitises to "Hello world" and "<>" to "" |
| Validation.TruncateText | src/shared/validation/validation.ts:31-36 | Text that fits is unchanged. Longer text with `maxLength` ≤ 3 gives ''. Otherwise the result is the trimmed first `maxLength`−3 characters followed by "...", at most `maxLength` long |
| SeriesFormatting.Join | src/features/series/utils/seriesFormatting.ts:24 | An empty list joins to '' and a single element to itself |
| SeriesFormatting.JoinSnoc | src/features/series/utils/seriesFormatting.ts:24 | Joining one more element appends the separator and that element |
| SeriesFormatting.SliceEnd | src/features/series/utils/seriesFormatting.ts:24 | How many elements `slice(0, end)` keeps, for either sign of `end` |
| SeriesFormatting.FormatGenres | src/features/series/utils/seriesFormatting.ts:22-25 | '' for a missing or empty list; otherwise the first `maxCount` genres (3 by default) in order joined by the separator; a single genre unchanged |
| SeriesFormatting.GetStatusColor | src/features/series/utils/seriesFormatting.ts:27-32 | Error iff exactly "Ended", success iff exactly "Running", default otherwise (missing, empty or any other text) |
| PersonUtils.AgeInYears | src/features/people/utils/personUtils.ts:16-21 | The year difference, one less exactly when the end's (month, day) comes before the birth's |
| PersonUtils.AgeIsCompletedYears | src/features/people/utils/personUtils.ts:16-21 | The age is the number of anniversaries reached by the end date |
| PersonUtils.FormatAge | src/features/people/utils/personUtils.ts:6-31 | None iff the birthday is missing or unreadable or the deathday is unreadable; "age (born-died)" with a deathday, "age years old" against the current date without one |
| PersonUtils.OrEmpty | src/features/people/utils/personUtils.ts:40-42 | The value or '' |
| PersonUtils.CreatePersonRouterParams | src/features/people/utils/personUtils.ts:33-44 | The id in decimal (parsing it gives it back), the name, and the medium image, country name, birthday, deathday and gender, each its text or '' |
| Text.Trim | src/shared/validation/validation.ts:35 | `trim`: never longer, empty exactly for an all-white-space input, and otherwise starts and ends with a non-white-space character |
| Text.TrimStartSplits | src/shared/validation/validation.ts:35 | Dropping leading white space keeps a suffix of the input and drops only white space |
| Text.TrimEndSplits | src/shared/validation/validation.ts:35 | Dropping trailing white space keeps a prefix of the input and drops only white space |
| Text.BlankIffTrimsToEmpty | src/features/series/hooks/useSeriesData.ts:46 | A string is blank exactly when `trim` reduces it to '' |
| Text.Utf16Length | src/features/auth/hooks/useAuth.ts:53 | `length` counts UTF-16 code units: at least the number of characters and at most twice it |
| Text.Utf16LengthOfBmp | src/features/auth/hooks/useAuth.ts:53 | On text within the Basic Multilingual Plane the code-unit count equals the character count |
| Text.Utf16LengthOfAstralPair | src/features/auth/hooks/useAuth.ts:53 | Two characters beyond U+FFFF make four code units |
| Text.IntToStringRoundTrip | src/features/people/utils/personUtils.ts:36 | Parsing the decimal rendering of an integer gives the integer back |

## Left out

- The remote clients for series, people and episodes are not part of this
  model: they use `fetch`, schema validation, URL encoding and logging. Each
  is a function parameter returning a list, a typed service error or another
  failure.
- The secure store and the biometric hardware behind `authentication.ts` are
  reached only through the store class. Read and write failures,
  availability and the prompt's outcome are parameters. `deletePin` is
  not used by the modelled hooks.
- Debounce timers, `setTimeout` navigation, React effects and refs are
  left out, as are interleavings of overlapping promises. Each handler
  runs to completion as one step, so the in-flight guards are only ever
  observed released.
- JSON serialisation of the favourites list: the store holds the list of
  records directly.
- `formatRating`, `formatYear`, `formatDate` and `isValidUrl` are left out
  because they depend on floating point, `Date`, `URL` or the locale.
- `FormatAge` takes already parsed (year, month, day) dates and the current
  date as parameters, because `new Date` parsing and the clock are outside
  the model.
- `GenreSeparator` is kept as the five characters the source file holds,
  and nothing is proved about them.
- `BothFetched`: when both the person and the credits requests fail, the
  model reports the person request's error. Which rejection `Promise.all`
  reports then depends on timing.
- `BiometricOutcome.Threw`: `authenticateWithBiometrics` already turns a
  thrown error into `false`, so through that wrapper the hook only sees
  success or a declined prompt. The thrown case is kept for the hook's own
  catch branch.
- `TruncateText`: lengths and the cut position are counted in characters
  (code points), while `text.length` and `substring` count UTF-16 code units.
  Text outside the Basic Multilingual Plane is therefore measured shorter
  than the source measures it, and a cut inside a surrogate pair cannot be
  expressed.
- `CheckAvailability` uses a single read-failure flag for both the preference
  read and the PIN read.
- The screens, cards, lists, error boundary, router, styling constants and
  the rendering tests are presentation and are not part of this model.

Behaviour of the code worth noting:

- The at-most-twenty bound on a load holds in search mode only. A browse
  load appends the whole server page (`useSeriesData.ts:76`).
- Search-mode `loadMoreSeries` only ever clears `hasMore`
  (`useSeriesData.ts:65-69`). Because a load runs only while `hasMore` is
  true, this is the same as setting it to "cursor short of the pool", and
  `LoadMore` states that equivalence.
- A blank query while the current term is also blank does not reset. It
  falls through to a request for that blank query (`useSeriesData.ts:106-121`).
- `getFavorites` already turns a failed read into an empty list, so the
  `catch` of the foreground reload is unreachable. A failed read shows no
  favourites rather than the previous ones, and the reload does set
  `loading` (`useFavoritesRefresh.ts:9-18`).
- `toggleFavorite` reads the list twice: once in `isFavorite` and again
  inside `addFavorite` or `removeFavorite`. Both reads turn a failure into
  an empty list (`favoritesService.ts:23-30`, `62-68`), and the toggle
  properties hold only when both reads see the stored list. If the first
  read fails while the series is stored, it is appended a second time and
  the call resolves `true` (`FavoritesService.MissedFirstReadDuplicates`).
  If the second read fails, every other favourite is erased
  (`FavoritesService.MissedSecondReadErases`).
- A failed PIN read is taken for "no PIN yet". The candidate is then saved
  over the stored PIN (`Auth.UnreadablePinIsReplaced`).
