# Content aggregator store, modelled in Dafny

This project models the three Redux slices of a personalised content
aggregator front end: the content slice, the preferences slice and the
auth slice.

- **Content.** Raw news articles, movie results and social posts are
  normalised into one `ContentItem` shape. Each item gets a type tag and an
  id that starts with a per-type prefix. Each `fulfilled` case replaces the
  items of its own type and keeps the others in their order. `updateTrending`
  keeps the items rated above 7, sorts them newest first and takes at most five.
  The `pending`/`rejected` cases move the `loading` and `error` flags.
- **Preferences.** A dark-mode flag, the chosen categories, a favourites list
  kept free of duplicates, and a manual feed order. Each is mirrored into
  browser storage.
- **Auth.** A user registry kept in browser storage, with login, signup and
  initialise over it, and reducers for `user`, `isAuthenticated`, `loading`
  and `error`.

Files:

- `wrappers.dfy`: `Option` and `Result`.
- `content.dfy`: module `ContentSlice`. The normalisers and the partition
  replacement are pure functions. So is the trending pipeline (filter, stable
  sort by date, take five). The reducers are methods of the class
  `ContentState`.
- `preferences.dfy`: module `PreferencesSlice`, the class `Preferences`.
- `auth.dfy`: module `AuthSlice`. The pure registry logic (`FindByEmail`,
  `LoginOutcome`, `SignupOutcome`, `InitialUser`) sits beside the class
  `AuthState`.

Modelling choices:

- Browser storage is a `storage: map<string, Stored>` field of each class.
  JSON text is collapsed into typed values, so parsing what was written
  gives it back. The slices use disjoint keys, so one field per class loses
  nothing. `Valid()` says each key this slice writes holds the kind of value
  it writes there. In the content slice it says that no error is shown
  while a fetch is loading: every `pending` case clears the error. In the auth slice it also says that the saved registry
  never holds an email twice, and that a user is present exactly when
  `isAuthenticated`.
- Dates are timestamps, `Option<int>`: what `new Date(s).getTime()` gives,
  with `None` for NaN. That covers a missing date and one that does not parse.
- Each `Math.random()` value is an injected `real` in [0, 1), one per payload
  element, in payload order.
- `encodeURIComponent` is an injected function `encode: string -> string`. The
  one lemma that needs it injective says so in its `requires`.
- Numeric ids are written in decimal by `IntToString`. That function is
  proved injective.
- bcrypt is left opaque. Signup receives the hash value, since bcrypt salts
  at random. Login receives the comparison `matches: (string, string) -> bool`.
  The two test users' hashes, made when the module loads, are constructor
  parameters. `Date.now().toString()` is an injected id string.
- JavaScript truthiness is followed as written. An empty `poster_path` gives
  no image. An empty `category` gives `'general'`. An empty error message
  gives the per-source default.
- The comparator `dateB - dateA` is NaN whenever a date is missing, and
  `Array.prototype.sort` then treats the pair as equal. An undated item thus
  ties with every item. If two dated items with different dates are also
  present, the comparator is inconsistent and the order is
  implementation-defined. The model sorts by stable insertion, `SortByDate`,
  under exactly that comparator. When every item rated above 7 has a date,
  this is the one result any stable sort gives. In the inconsistent case the
  model's order is one of the allowed ones, and nothing is claimed about
  where the undated items go.

Some behaviours of the code that the model follows as written:

- The sort does not place undated items after dated ones: the comparator
  ties them with everything.
- Refreshing the content leaves the manual feed order alone: `updateFeedOrder`
  only assigns its payload.
- Favourites are one list per browser, not one per user.
- A non-2xx response is not turned into an error: the thunks never check
  `response.ok`.
- Malformed stored JSON is not caught.
- `reorderItems` takes any payload, without checking that it is a
  permutation of the items.

The code's mock rating `Math.random() * 2 + 5` lies in [5, 7) for exact reals.
In doubles it is at most 7.0 after rounding. The comments beside it say
"7-10" (news) and "8-10" (social posts). Either way a news or social item can
never pass the `rating > 7` filter, and only movies trend (`OnlyMoviesTrend`,
`RefreshTrendsOnlyMovies`).

## Model

| member | source | states |
|---|---|---|
| `ContentSlice.NatToString` | src/store/slices/contentSlice.ts:160 | the decimal numeral of a natural: at least one digit, only digits, and a single digit exactly when the number is below 10; proved injective in `NatToStringInjective` |
| `ContentSlice.IntToString` | src/store/slices/contentSlice.ts:160 | the numeral of an integer: it starts with '-' exactly when the integer is negative; proved injective in `IntToStringInjective` |
| `ContentSlice.PostIdToString` | src/store/slices/contentSlice.ts:185 | definition: a numeric post id is written in decimal and a text id as it is (line 185); properties in `SocialIdsDistinct` |
| `ContentSlice.Prefix` | src/store/slices/contentSlice.ts:133 | definition: the id prefixes `news-`, `movie-` and `social-` (lines 133, 160, 185); properties in `TaggedIdsOfDifferentKindsDiffer` |
| `ContentSlice.OrElse` | src/store/slices/contentSlice.ts:141 | definition of JavaScript's `s \|\| fallback` on an optional string (lines 141, 148, 173, 199); properties in `NormalizedNews` and `FetchErrorMessage` |
| `ContentSlice.MockRating` | src/store/slices/contentSlice.ts:142 | definition: the draw r becomes 2r + 5 (lines 142, 193); its range [5, 7) is stated in `NormalizedNews` and `NormalizedSocial` |
| `ContentSlice.NewsItem` | src/store/slices/contentSlice.ts:132-143 | definition of one article's item; properties in `NormalizedNews` |
| `ContentSlice.NormalizeNews` | src/store/slices/contentSlice.ts:132-143 | definition of the `map` over the articles; properties in `NormalizedNews` and `NewsIdsDistinct` |
| `ContentSlice.PosterImage` | src/store/slices/contentSlice.ts:164 | definition of the poster truthiness test; properties in `NormalizedMovies` |
| `ContentSlice.MovieItem` | src/store/slices/contentSlice.ts:159-168 | definition of one movie's item; properties in `NormalizedMovies` |
| `ContentSlice.NormalizeMovies` | src/store/slices/contentSlice.ts:159-168 | definition of the `map` over the movies; properties in `NormalizedMovies` and `MovieIdsDistinct` |
| `ContentSlice.SocialItem` | src/store/slices/contentSlice.ts:184-194 | definition of one post's item; properties in `NormalizedSocial` |
| `ContentSlice.NormalizeSocial` | src/store/slices/contentSlice.ts:184-194 | definition of the `map` over the posts; properties in `NormalizedSocial` and `SocialIdsDistinct` |
| `ContentSlice.NatToStringInjective` | src/store/slices/contentSlice.ts:160 | two naturals with the same decimal numeral are equal |
| `ContentSlice.IntToStringInjective` | src/store/slices/contentSlice.ts:160 | two integers with the same numeral are equal, so `movie-${id}` ids differ when the numeric ids differ |
| `ContentSlice.TaggedIdsOfDifferentKindsDiffer` | src/store/slices/contentSlice.ts:133-134 | items whose ids carry the prefixes of different type tags (`news-`, `movie-`, `social-`) never share an id |
| `ContentSlice.NormalizedNews` | src/store/slices/contentSlice.ts:132-143 | each article becomes a `news` item with id `news-` + encode(url), in payload order; it keeps the URL, title, description, `urlToImage` (as the image), author and date; its category is the article's own when non-empty and `'general'` when absent or empty; its rating is 2r + 5 for its draw r, so it lies in [5, 7); `isFavorite` is absent |
| `ContentSlice.NormalizedMovies` | src/store/slices/contentSlice.ts:159-168 | each movie becomes a `movie` item with id `movie-` + its numeral; it keeps the title, the overview (as the description) and the release date; url, author and `isFavorite` are absent; the rating is `vote_average` unchanged; the category is `'movies'`; an image is present exactly when `poster_path` is present and non-empty, and is then the TMDB prefix followed by `poster_path` |
| `ContentSlice.NormalizedSocial` | src/store/slices/contentSlice.ts:184-194 | each post becomes a `social` item with id `social-` + its id; the username is the title and the author; the caption is the description; the image is kept; url and `isFavorite` are absent; the category is `'social'`; the rating is 2r + 5 for its draw r, so it lies in [5, 7) |
| `ContentSlice.NewsIdsDistinct` | src/store/slices/contentSlice.ts:133 | with an injective URL encoder, distinct URLs give distinct news ids |
| `ContentSlice.MovieIdsDistinct` | src/store/slices/contentSlice.ts:160 | distinct movie ids give distinct item ids |
| `ContentSlice.SocialIdsDistinct` | src/store/slices/contentSlice.ts:185 | distinct numeric post ids give distinct item ids; text ids are excluded because `social-${5}` and `social-${"5"}` are the same id |
| `ContentSlice.OtherThan` | src/store/slices/contentSlice.ts:144 | definition of `items.filter(item => item.type !== kind)` (lines 144, 169, 195); properties in `OtherThanMembers`, `OtherThanConcat` and the `Replace...` lemmas |
| `ContentSlice.OfType` | src/store/slices/contentSlice.ts:144 | definition of a type's partition, used to state what the replacement does to it; properties in `OfTypeMembers` and `OfTypeConcat` |
| `ContentSlice.Replace` | src/store/slices/contentSlice.ts:144 | definition of `[...items.filter(...), ...incoming]` (lines 144, 169, 195); properties in `ReplaceInstallsPartition`, `ReplaceKeepsOtherTypes`, `ReplaceIdempotent`, `ReplaceCommutes` and `ReplaceKeepsUniqueIds` |
| `ContentSlice.OfTypeConcat` | src/store/slices/contentSlice.ts:144 | the partition of a concatenation is the concatenation of the partitions, so it keeps the order |
| `ContentSlice.OtherThanConcat` | src/store/slices/contentSlice.ts:144 | the `type !==` filter of a concatenation is the concatenation of the filters, so the kept items stay in their order |
| `ContentSlice.OtherThanMembers` | src/store/slices/contentSlice.ts:144 | an item is kept exactly when it is in the aggregate and has another type |
| `ContentSlice.OfTypeMembers` | src/store/slices/contentSlice.ts:144 | an item is in a type's partition exactly when it is in the aggregate with that type |
| `ContentSlice.ReplaceInstallsPartition` | src/store/slices/contentSlice.ts:144 | after a replacement (lines 144, 169 and 195 alike), the replaced type's partition is exactly the new items, so its length is the payload's |
| `ContentSlice.ReplaceKeepsOtherTypes` | src/store/slices/contentSlice.ts:144 | a replacement leaves the sequence of items of every other type unchanged |
| `ContentSlice.ReplaceIdempotent` | src/store/slices/contentSlice.ts:144 | the same replacement applied twice gives what it gives once |
| `ContentSlice.ReplaceCommutes` | src/store/slices/contentSlice.ts:144 | two replacements of different types give the untouched items followed by both new partitions; as a multiset the result does not depend on their order |
| `ContentSlice.ReplaceKeepsUniqueIds` | src/store/slices/contentSlice.ts:144 | unique, type-prefixed ids stay unique after replacing a partition with unique, type-prefixed items |
| `ContentSlice.IsHot` | src/store/slices/contentSlice.ts:113 | definition of `item.rating && item.rating > 7`; properties in `Hot` and `HotCounts` |
| `ContentSlice.Hot` | src/store/slices/contentSlice.ts:113 | an item passes the filter exactly when it is in the aggregate with a defined rating above 7 |
| `ContentSlice.HotCounts` | src/store/slices/contentSlice.ts:113 | the filter keeps every copy of each item rated above 7 and no copy of any other item |
| `ContentSlice.HotConcat` | src/store/slices/contentSlice.ts:113 | the filter of a concatenation is the concatenation of the filters, so the kept items stay in input order (which decides ties in the stable sort) |
| `ContentSlice.Newer` | src/store/slices/contentSlice.ts:114-117 | definition: the comparator puts `a` first exactly when both dates parse and `a`'s is later; a NaN difference is a tie; properties in `SortByDateNewestFirst` |
| `ContentSlice.InsertByDate` | src/store/slices/contentSlice.ts:114-118 | inserting adds exactly the one item (multiset) |
| `ContentSlice.SortByDate` | src/store/slices/contentSlice.ts:114-118 | the sort is a permutation of its input |
| `ContentSlice.SortByDateNewestFirst` | src/store/slices/contentSlice.ts:114-118 | when every item has a date, no item of the sorted result comes after one newer than it |
| `ContentSlice.Trending` | src/store/slices/contentSlice.ts:111-120 | definition of filter, sort and `slice(0, 5)`; properties in `TrendingSize`, `TrendingFromHotItems` and `TrendingNewestOfHot` |
| `ContentSlice.TrendingSize` | src/store/slices/contentSlice.ts:112-120 | the trending list has min(5, h) items, where h is the number of items rated above 7 in the aggregate, counting every copy (each item's multiplicity among the hot items equals its multiplicity in the aggregate when it is rated above 7, and is 0 otherwise) |
| `ContentSlice.TrendingFromHotItems` | src/store/slices/contentSlice.ts:112-120 | every trending item is an item of the aggregate rated above 7, and trending is a sub-multiset of those items |
| `ContentSlice.TrendingNewestOfHot` | src/store/slices/contentSlice.ts:113-119 | when every item rated above 7 has a date, trending comes newest first and no left-out item rated above 7 is newer than a kept one |
| `ContentSlice.TrendingExample` | src/store/slices/contentSlice.ts:111-121 | items rated 8.5, 6.0 and 9.0 on days 1, 2 and 3 give the trending list [day 3, day 1] |
| `ContentSlice.HotExample` | src/store/slices/contentSlice.ts:113 | keeps the first and third of three items when only those are rated above 7 |
| `ContentSlice.SortExample` | src/store/slices/contentSlice.ts:114-118 | the newer of two dated items goes first |
| `ContentSlice.OnlyMoviesTrend` | src/store/slices/contentSlice.ts:113 | when every non-movie item has a mock rating in [5, 7), every trending item is a movie |
| `ContentSlice.FetchItems` | src/store/slices/contentSlice.ts:130-196 | definition: the normalised items a completed news, movies or social fetch installs, each with its own payload and draws; properties in `FetchItemsOfKind` |
| `ContentSlice.FetchItemsOfKind` | src/store/slices/contentSlice.ts:130-196 | a fetch installs items of its own type only, and every item a news or social fetch installs has a mock rating in [5, 7) |
| `ContentSlice.ApplyFetches` | src/app/page.tsx:27-31 | definition: the `fulfilled` replacements of a run of completed fetches in completion order, which `Promise.all` does not fix; refetches bring their own payloads; properties in `ApplyFetchesMembers` |
| `ContentSlice.ApplyFetchesMembers` | src/store/slices/contentSlice.ts:144 | after any run of fetches, an item of a fetched type was installed by one of those fetches, and an item of any other type was in the aggregate before |
| `ContentSlice.RefreshTrendsOnlyMovies` | src/app/page.tsx:27-32 | once a news fetch and a social fetch have both landed, in any completion order, from any starting state and with any other fetches or refetches (with fresh payloads and draws) in between, only movies trend |
| `ContentSlice.DefaultFetchError` | src/store/slices/contentSlice.ts:148 | definition: the per-source messages 'Failed to fetch news', 'Failed to fetch movies' and 'Failed to fetch social posts' (lines 148, 173, 199); properties in `FetchErrorMessage` |
| `ContentSlice.FetchErrorMessage` | src/store/slices/contentSlice.ts:146-149 | a rejection shows the thrown message when it is non-empty and the per-source default otherwise, so never an empty message |
| `ContentSlice.ContentState.constructor` | src/store/slices/contentSlice.ts:57-64 | the initial state: no items, not loading, no error, empty query and results, no trending items |
| `ContentSlice.ContentState.SetSearchQuery` | src/store/slices/contentSlice.ts:99-101 | sets the query and nothing else |
| `ContentSlice.ContentState.SetSearchResults` | src/store/slices/contentSlice.ts:102-104 | sets the results and nothing else |
| `ContentSlice.ContentState.ReorderItems` | src/store/slices/contentSlice.ts:105-107 | replaces the aggregate with the payload as given and changes nothing else |
| `ContentSlice.ContentState.ClearError` | src/store/slices/contentSlice.ts:108-110 | clears the error and changes nothing else |
| `ContentSlice.ContentState.UpdateTrending` | src/store/slices/contentSlice.ts:111-121 | trending becomes the filtered, sorted, five-item prefix; at most five items, all from the aggregate and rated above 7; the aggregate is unchanged |
| `ContentSlice.ContentState.FetchPending` | src/store/slices/contentSlice.ts:126-129 | loading on, error cleared, items unchanged (lines 153-156 and 178-181 alike) |
| `ContentSlice.ContentState.FetchRejected` | src/store/slices/contentSlice.ts:146-149 | loading off, error set to the thrown or default message, items unchanged (lines 171-174 and 197-200 alike) |
| `ContentSlice.ContentState.FetchNewsFulfilled` | src/store/slices/contentSlice.ts:130-145 | loading off; the items are the old non-news items in their order followed by the normalised articles in payload order |
| `ContentSlice.ContentState.FetchMoviesFulfilled` | src/store/slices/contentSlice.ts:157-170 | loading off; the items are the old non-movie items in their order followed by the normalised movies |
| `ContentSlice.ContentState.FetchSocialPostsFulfilled` | src/store/slices/contentSlice.ts:182-196 | loading off; the items are the old non-social items in their order followed by the normalised posts |
| `PreferencesSlice.Added` | src/store/slices/preferencesSlice.ts:37-44 | definition of push-if-absent; properties in `AddTwiceIsAddOnce`, `AddedCountsOnce`, `AddThenRemoveRestores` and `AddedKeepsNoDuplicates` |
| `PreferencesSlice.Removed` | src/store/slices/preferencesSlice.ts:46 | an id is kept exactly when it was present and differs from the removed one; the multiset loses every copy of the removed id and nothing else |
| `PreferencesSlice.RemovedConcat` | src/store/slices/preferencesSlice.ts:46 | removal works element by element, so the remaining ids keep their original order |
| `PreferencesSlice.RemovedAbsent` | src/store/slices/preferencesSlice.ts:45-50 | removing an absent id leaves the list unchanged |
| `PreferencesSlice.AddThenRemoveRestores` | src/store/slices/preferencesSlice.ts:37-50 | adding an absent id and then removing it restores the list |
| `PreferencesSlice.AddTwiceIsAddOnce` | src/store/slices/preferencesSlice.ts:37-44 | adding the same id twice equals adding it once, for any list |
| `PreferencesSlice.AddedCountsOnce` | src/store/slices/preferencesSlice.ts:37-44 | on favourites without duplicates, the added id is then present exactly once |
| `PreferencesSlice.NoDuplicatesCountsOnce` | src/store/slices/preferencesSlice.ts:38 | in a list without duplicates every id occurs once |
| `PreferencesSlice.AddedKeepsNoDuplicates` | src/store/slices/preferencesSlice.ts:38-39 | adding keeps the favourites free of duplicates |
| `PreferencesSlice.RemovedKeepsNoDuplicates` | src/store/slices/preferencesSlice.ts:46 | removing keeps the favourites free of duplicates |
| `PreferencesSlice.Preferences.constructor` | src/store/slices/preferencesSlice.ts:11-16 | the initial state: light mode, the three default categories, no favourites, no feed order |
| `PreferencesSlice.Preferences.ToggleDarkMode` | src/store/slices/preferencesSlice.ts:22-27 | negates the flag and stores the new value; nothing else changes |
| `PreferencesSlice.Preferences.SetDarkMode` | src/store/slices/preferencesSlice.ts:28-30 | sets the flag without writing storage |
| `PreferencesSlice.Preferences.UpdateCategories` | src/store/slices/preferencesSlice.ts:31-36 | sets the categories to the payload and stores the same payload |
| `PreferencesSlice.Preferences.AddToFavorites` | src/store/slices/preferencesSlice.ts:37-44 | a present id leaves the favourites and storage unchanged; an absent id is appended and storage holds the new list; no duplicates are introduced; other fields unchanged |
| `PreferencesSlice.Preferences.RemoveFromFavorites` | src/store/slices/preferencesSlice.ts:45-50 | every occurrence of the id is removed, the rest keep their order, storage holds the result, no duplicates are introduced |
| `PreferencesSlice.Preferences.UpdateFeedOrder` | src/store/slices/preferencesSlice.ts:51-56 | sets the feed order to the payload and stores the same payload |
| `PreferencesSlice.Preferences.LoadFromStorage` | src/store/slices/preferencesSlice.ts:57-69 | each field takes its stored value when its key is present and keeps its value otherwise; storage is not written |
| `PreferencesSlice.ToggleDarkModeTwice` | src/store/slices/preferencesSlice.ts:22-27 | toggling twice restores the flag |
| `PreferencesSlice.FavoriteThenUnfavorite` | src/store/slices/preferencesSlice.ts:37-50 | favouriting an absent id and then unfavouriting it restores the favourites |
| `AuthSlice.FindByEmail` | src/store/slices/authSlice.ts:72 | finds nothing exactly when no user has the email; otherwise returns the first user with it |
| `AuthSlice.DefaultTestUsers` | src/store/slices/authSlice.ts:28-31 | definition: the test and dev users with ids '1' and '2' and the given hashes; properties in `TestUserLogsInByDefault` |
| `AuthSlice.LoadUsers` | src/store/slices/authSlice.ts:39-43 | definition: the saved registry, or the default users when none is saved; properties in `TestUserLogsInByDefault` and `AuthState.Registry` |
| `AuthSlice.Public` | src/store/slices/authSlice.ts:79 | definition: the user's id, name and email without the password (lines 79, 98, 105); properties in `LoginOutcome` and `InitialUser` |
| `AuthSlice.LoginOutcome` | src/store/slices/authSlice.ts:70-80 | rejects with 'User not found' exactly when no user has the email, and with 'Invalid password' exactly when the found user's hash does not match; on success returns the user `FindByEmail` found (the first with that email) without its password |
| `AuthSlice.SignupOutcome` | src/store/slices/authSlice.ts:87-93 | rejects with 'Email already exists' exactly when the email is registered; otherwise appends exactly one user at the end and keeps the rest |
| `AuthSlice.SignupKeepsEmailsUnique` | src/store/slices/authSlice.ts:87-95 | a successful signup keeps registered emails unique |
| `AuthSlice.LoginAfterSignup` | src/store/slices/authSlice.ts:70-98 | after a signup, logging in with the same email and a matching password returns the new user |
| `AuthSlice.TestUserLogsInByDefault` | src/store/slices/authSlice.ts:28-43 | with no saved registry, the built-in test user logs in with '123456' |
| `AuthSlice.InitialUser` | src/store/slices/authSlice.ts:103-106 | the initialise payload is present exactly when a current user is saved, and then it carries that user's id, name and email and no password |
| `AuthSlice.AuthState.Registry` | src/store/slices/authSlice.ts:39-43 | the registry the thunks read never holds an email twice |
| `AuthSlice.AuthState.constructor` | src/store/slices/authSlice.ts:18-23 | the initial state: no user, not authenticated, not loading, no error |
| `AuthSlice.AuthState.LoginUser` | src/store/slices/authSlice.ts:68-81 | returns the login outcome; only on success it saves the full found record as the current user |
| `AuthSlice.AuthState.SignupUser` | src/store/slices/authSlice.ts:84-100 | a registered email is rejected with storage unchanged; otherwise the registry grows by the new user at the end, it becomes the current user, and the result has no password |
| `AuthSlice.AuthState.Logout` | src/store/slices/authSlice.ts:115-121 | clears the user and authentication and removes the current-user key |
| `AuthSlice.AuthState.ClearError` | src/store/slices/authSlice.ts:122-124 | clears the error and changes nothing else |
| `AuthSlice.AuthState.Pending` | src/store/slices/authSlice.ts:129-132 | loading on, error cleared, user unchanged (lines 144-147 alike) |
| `AuthSlice.AuthState.Fulfilled` | src/store/slices/authSlice.ts:133-137 | loading off, user set to the payload, authenticated (lines 148-152 alike) |
| `AuthSlice.AuthState.Rejected` | src/store/slices/authSlice.ts:138-141 | loading off, error set to the payload, user and authentication unchanged (lines 153-156 alike) |
| `AuthSlice.AuthState.InitializeFulfilled` | src/store/slices/authSlice.ts:159-164 | a null payload changes nothing; a user payload sets the user and authenticates |
| `AuthSlice.AuthState.DispatchLogin` | src/store/slices/authSlice.ts:129-141 | a whole login dispatch ends not loading, authenticated with the returned user on success, and showing the rejection otherwise |
| `AuthSlice.AuthState.DispatchInitialize` | src/store/slices/authSlice.ts:159-164 | a whole initialise dispatch authenticates exactly when a current user is saved |

## Left out

- Rendering, routing and animation: the pages and components. That includes
  the header's debounced search filter, which depends on locale-sensitive
  `toLowerCase` and `trim`.
- The API route handlers and the thunk bodies' own I/O: `fetch`,
  `response.json()`, the `|| []` fallbacks, timeouts and API keys. The model
  starts from the payloads the reducers receive.
- `Promise.all` itself and the interleaving of the three thunk bodies. Each
  reducer is one atomic step. `ApplyFetches` covers every order in which
  the `fulfilled` cases can land.
- The `typeof window` guards. The model is always in a browser.
- Rejections that do not come from `rejectWithValue`: for example a thrown
  `JSON.parse` error, whose payload is `undefined`. The auth `Rejected`
  payload is always a string.
- Stored values that are malformed or of the wrong kind. `Valid()` rules them
  out; the code would parse and assign them as they are.
- Floating point. Ratings and draws are exact reals.
- Number-to-string for ids of magnitude 1e21 or more, and for fractional ids.
  JavaScript switches to another notation there.
- `isFavorite` is carried on items but never set, as in the code.
- The store wiring, which registers no auth reducer, and the lint
  configuration.
- `ContentSlice.TrendingNewestOfHot`: proved only when every item rated above
  7 has a parseable date. With undated items among dated ones of different
  dates, the comparator is inconsistent and the JavaScript order is
  implementation-defined.
