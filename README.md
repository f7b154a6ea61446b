# WhatToBinge client core in Dafny

This project models the logic of the WhatToBinge web client. The client is a
catalogue of movies and TV shows grouped by streaming platform. It has filter
menus, a hero banner, a blog, an AI recommendation page, a feedback form and a
light/dark theme. The backend and the rendering are not modelled. What is
left is stated as Dafny values, functions, classes and methods:

- the language and genre lookup tables (`lookup.dfy`);
- the API client's request bodies and its per-call failure policy (`api.dfy`);
- the home fetch hook with its module-level cache (`fetch_cache.dfy`):
  - filter derivation and the cache key;
  - the Fresh / Stale / Miss decision;
  - the write with one shared timestamp;
  - the rewriting of show ids to `<providerKey>-<id>`;
- the shared filter store (`filter_context.dfy`);
- the quick-filter chips (`quick_filters.dfy`);
- the filter panel (`filter_menu.dfy`): pinned-then-sorted languages, search, draft/apply/reset;
- the catalogue pages (`catalog_pages.dfy`): row trimming, platform slugs, the movies page's filter handlers;
- the hero banner (`banner.dfy`);
- the blog search (`blog.dfy`);
- the content card's search button and reverse provider lookup (`content_card.dfy`);
- the recommendation page (`recommend.dfy`): the rotation loop, submission outcomes and the card-click guard;
- the feedback form (`feedback.dfy`);
- the theme hook over the browser's key-value storage (`theme.dfy`).

Supporting modules:

- `wrappers.dfy`: `Option` and `Result`.
- `seqs.dfy`: filter, subsequence, `find`, `slice`.
- `text.dfy`: ASCII `toLowerCase`/`toUpperCase`, `includes`, the `\s+` removal, the single `replace`, number rendering.
- `ordering.dfy`: the default string `sort()` as an insertion sort, proved sorted, a permutation and unique.

Everything that changes state in the source is a class. Its fields are the
source's state cells, and its methods state the whole new state. Everything
the source computes as an expression is a function. Transport calls,
`Date.now()`, timers and `Math.random` become parameters of the model.

## Model

| member | source | states |
|---|---|---|
| Lookup.LanguageCodesDistinct | app/lib/utils.ts:8-55 | no two entries of the language table share a code |
| Lookup.LanguageNamesDistinct | app/lib/utils.ts:8-55 | no two entries of the language table share a display name |
| Lookup.LanguageNamesHaveSmallLetters | app/lib/utils.ts:8-55 | every display name is longer than two characters and has a lower-case letter second, so no name looks like a code |
| Lookup.GetLanguageName | app/lib/utils.ts:86-88 | a listed code yields its table name; an unlisted code yields the code upper-cased |
| Lookup.GetLanguageCode | app/lib/utils.ts:90-92 | a listed name yields its code; an unlisted name comes back unchanged, never an error |
| Lookup.LanguageCodeRoundTrip | app/lib/utils.ts:86-92 | for every listed code, name-then-code gives the code back |
| Lookup.LanguageNameRoundTrip | app/lib/utils.ts:86-92 | for every listed name, code-then-name gives the name back |
| Lookup.TwoLetterCodeUnchanged | app/lib/utils.ts:90-92 | any two-character string, in particular every code, is its own language code |
| Lookup.UnknownLanguageCodeRoundTrip | app/lib/utils.ts:86-92 | an unlisted code does not come back: name-then-code yields its upper-cased form |
| Lookup.LanguageExamples | app/lib/utils.ts:86-88 | "hi" is named "Hindi" |
| Lookup.CodeStaysExample | app/lib/utils.ts:90-92 | the code "hi" stays "hi" |
| Lookup.LanguageCodeExample | app/lib/utils.ts:90-92 | "Korean" has code "ko" |
| Lookup.UnknownCodeExample | app/lib/utils.ts:86-88 | the unknown code "xx" is shown as "XX" |
| Lookup.GenreNamesDistinct | app/lib/utils.ts:57-84 | no two genre entries share a name |
| Lookup.GenreIdsDisjoint | app/lib/utils.ts:57-84 | no id belongs to two genre entries, and every entry has an id |
| Lookup.GetGenreName | app/lib/utils.ts:94-97 | an id yields the name of the entry holding it, and "Unknown" when no entry does |
| Lookup.GetGenreIds | app/lib/utils.ts:99-102 | a name yields the ids of the entry with exactly that name, and no ids otherwise |
| Lookup.GenreIdsNonEmptyIff | app/lib/utils.ts:99-102 | a name has ids exactly when it names a genre entry |
| Lookup.GenreIdRoundTrip | app/lib/utils.ts:94-102 | every listed id is among the ids of its own genre's name |
| Lookup.GenreNameRoundTrip | app/lib/utils.ts:94-102 | each id of a named genre leads back to that name |
| Lookup.GenreExamples | app/lib/utils.ts:58 | "Action & Adventure" has ids [28, 10759], and 10759 is named "Action & Adventure" |
| Lookup.GenreNameExample | app/lib/utils.ts:94-102 | 27 is "Horror"; "Sci-fi" has no ids |
| Lookup.UnknownGenre | app/lib/utils.ts:94-102 | an id outside the table is "Unknown", and "Unknown" has no ids |
| Api.ProviderKeysDistinct | app/lib/api.ts:92-103 | the platform table has ten distinct slugs and ten distinct keys |
| Api.ProviderKey | app/lib/api.ts:92-103 | a listed slug yields its key; any other string yields undefined |
| Api.ProviderKeyExamples | app/lib/api.ts:92-103 | netflix is 8, watchmore is 0, and the capitalised "Netflix" is not listed |
| Api.Swallow | app/lib/api.ts:122-125 | a successful reply passes through; a failure becomes the empty list |
| Api.Rethrow | app/lib/api.ts:152-155 | a successful reply passes through; a failure reaches the caller as the same failure |
| Api.ShowsRequestBody | app/lib/api.ts:110-120 | the home body carries the show type, the limit (100 when omitted) and the given filters, or none |
| Api.FetchShows | app/lib/api.ts:110-126 | the result is the backend's providers for that body, and the empty list on a failed request |
| Api.FetchRecommendations | app/lib/api.ts:128-136 | the result is the backend's movies, and the empty list on a failure |
| Api.FetchAllBlogs | app/lib/api.ts:138-146 | the result is the backend's posts, and the empty list on a failure |
| Api.FetchBlogById | app/lib/api.ts:148-156 | a failure reaches the caller; a success is the fetched post |
| Api.GenerateAIRecommendations | app/lib/api.ts:158-166 | a failure reaches the caller; a success is the backend's reply |
| Api.AllShowsRequestBody | app/lib/api.ts:184-192 | given parameters are sent verbatim; otherwise a page request with the limit, the offset and the slug's key, possibly undefined |
| Api.FilterParamsOverrideArguments | app/lib/api.ts:188-192 | given parameters make the slug, limit and offset irrelevant |
| Api.UnknownProviderSendsUndefinedKey | app/lib/api.ts:184-191 | an unlisted slug sends a single undefined provider key |
| Api.FetchShowsByProvider | app/lib/api.ts:177-208 | a failure reaches the caller; a success is the backend's reply to that body |
| Api.SubmitFeedback | app/lib/api.ts:217-225 | the data is posted as given; a failure reaches the caller |
| Api.FailurePolicy | app/lib/api.ts:110-225 | exactly the three list calls turn a failed transport into an empty list; the other four rethrow it |
| OptimizedFetch.DeriveApiFilters | app/hooks/useOptimizedFetch.ts:32-38 | a language is sent iff it is not "all", and then as its code; genre ids are sent iff the genre is not "all", and then as its ids |
| OptimizedFetch.KeyOf | app/hooks/useOptimizedFetch.ts:40 | the key consists of the show type and the derived backend filters only |
| OptimizedFetch.KeyIgnoresReleaseDate | app/hooks/useOptimizedFetch.ts:40 | filter sets that differ only in their release date share a key |
| OptimizedFetch.UnknownGenreKey | app/hooks/useOptimizedFetch.ts:36-40 | an unknown genre sends an empty id list, whose key differs from the key for "all" |
| OptimizedFetch.Decide | app/hooks/useOptimizedFetch.ts:43-57 | a cached key is fresh before 5 minutes, stale before 1 hour, and otherwise a miss; a hit serves the cached list |
| OptimizedFetch.DecideOverTime | app/hooks/useOptimizedFetch.ts:7-8 | the decision for a cached key, told by the age of the last write: fresh, then stale, then miss |
| OptimizedFetch.Store | app/hooks/useOptimizedFetch.ts:72-76 | the written key holds the processed list, the shared timestamp becomes now, and every other key keeps its list |
| OptimizedFetch.StoreRefreshesEveryKey | app/hooks/useOptimizedFetch.ts:44-76 | one write makes every older key fresh again for 5 minutes |
| OptimizedFetch.SharedTimestampRevivesExpiredKey | app/hooks/useOptimizedFetch.ts:44-76 | a key past the hour is a miss, yet a write under another key makes it fresh again with its old list |
| OptimizedFetch.DecideKeyed | app/hooks/useOptimizedFetch.ts:43-57 | with a write time per key: fresh before 5 minutes, stale before 1 hour, otherwise a miss, each by the key's own time |
| OptimizedFetch.StoreKeyed | app/hooks/useOptimizedFetch.ts:72-76 | a write stamps and sets only its own key; every other entry is unchanged |
| OptimizedFetch.StoreKeyedKeepsOtherKeys | app/hooks/useOptimizedFetch.ts:72-76 | with a time per key, a write never changes another key's decision at any time |
| OptimizedFetch.StoreKeyedServesFresh | app/hooks/useOptimizedFetch.ts:72-76 | with a time per key, the key just written is fresh for the next 5 minutes |
| OptimizedFetch.PrefixShows | app/hooks/useOptimizedFetch.ts:66-69 | each show keeps its place and fields; only its id becomes the provider key, a hyphen and the old id |
| OptimizedFetch.PrefixIds | app/hooks/useOptimizedFetch.ts:64-70 | providers keep their order, names, keys and show counts; only the show ids are rewritten |
| OptimizedFetch.DashAfterDigits | app/hooks/useOptimizedFetch.ts:68 | in a prefixed id, the first hyphen is the one right after the key's digits |
| OptimizedFetch.PrefixedIdInjective | app/hooks/useOptimizedFetch.ts:68 | for non-negative keys, a prefixed id determines both the key and the original id text |
| OptimizedFetch.PrefixedIdsUnique | app/hooks/useOptimizedFetch.ts:63-70 | two shows get the same prefixed id only if they share their provider's key and their id text |
| OptimizedFetch.FailedFetchIsCachedEmpty | app/hooks/useOptimizedFetch.ts:61-76 | a failed request is cached as an empty list and served fresh for the next 5 minutes |
| OptimizedFetch.ShowCache.constructor | app/hooks/useOptimizedFetch.ts:15 | the module cache starts empty |
| OptimizedFetch.FetchHook.constructor | app/hooks/useOptimizedFetch.ts:25-27 | the hook starts loading, with no error and no shows |
| OptimizedFetch.FetchHook.Start | app/hooks/useOptimizedFetch.ts:40-61 | a fresh hit serves the cache; a stale hit serves it and asks for revalidation; a miss starts loading and requests ten shows per provider with the derived filters |
| OptimizedFetch.FetchHook.Finish | app/hooks/useOptimizedFetch.ts:61-82 | a list is processed, cached under the run's key with the run's start time and shown; an exception is stored as the error; loading always ends |
| FilterContext.FilterStore.constructor | app/context/FilterContext.tsx:19-23 | the shared filters start as all/all/all |
| FilterContext.FilterStore.SetFilters | app/context/FilterContext.tsx:13 | the whole triple is replaced by the given one, with no merge |
| FilterContext.UseFilters | app/context/FilterContext.tsx:32-38 | inside a provider the provider's store is returned; outside, the fixed error message is raised |
| FilterContext.ConsumersAgree | app/context/FilterContext.tsx:26 | after a set, two consumers of the same provider both read exactly the stored triple |
| QuickFilters.Click | app/components/QuickFilters.tsx:53-88 | an active chip clears language and genre; a language chip sets the language and clears the genre; a known genre chip sets the genre and clears the language; an unknown one changes nothing; the release date never changes |
| QuickFilters.IsActive | app/components/QuickFilters.tsx:93-100 | a chip is active iff its own field holds its value; any other kind of chip never is |
| QuickFilters.ResetsIffActive | app/components/QuickFilters.tsx:54-100 | a click resets exactly when it lands on the chip shown as active |
| QuickFilters.ListedGenresAreKnown | app/components/QuickFilters.tsx:33-36 | every listed genre chip names a genre of the table, so the fallback never applies to them |
| QuickFilters.AtMostOneFieldSet | app/components/QuickFilters.tsx:52-88 | after a click on a listed chip, at most one of language and genre is not "all" |
| QuickFilters.ToggleCycle | app/components/QuickFilters.tsx:52-100 | a click on an inactive listed chip activates it, and a second click clears both fields and deactivates it |
| QuickFilters.HandleFilterClick | app/components/QuickFilters.tsx:52-91 | the shared filters become the click's update of the previous filters |
| FilterMenu.GenreOptions | app/components/FilterMenu.tsx:26 | the genre options are the table's names, in table order |
| FilterMenu.LanguageOptions | app/components/FilterMenu.tsx:27 | the language options are the table's names, in table order |
| FilterMenu.SortedLanguagesOrder | app/components/FilterMenu.tsx:30-32 | English, Hindi, Korean and Japanese come first, and after them every other table name, in ascending order |
| FilterMenu.SortedLanguages | app/components/FilterMenu.tsx:30-32 | the language list starts with English, Hindi, Korean and Japanese |
| FilterMenu.PinnedThenSorted | app/components/FilterMenu.tsx:30-32 | for any name list, the pinned four are followed by exactly the other names, sorted |
| FilterMenu.LanguageOptionsFacts | app/components/FilterMenu.tsx:27-30 | the table names are distinct and include all four pinned languages |
| FilterMenu.PinnedPermutation | app/components/FilterMenu.tsx:30-32 | pinned names of a duplicate-free list, then a rearrangement of the rest, are the same names as the list |
| FilterMenu.SortedLanguagesIsPermutation | app/components/FilterMenu.tsx:27-32 | the language list holds every table name exactly once |
| FilterMenu.FilterBySearch | app/components/FilterMenu.tsx:34-40 | an option is kept iff its lower-cased text contains the lower-cased term |
| FilterMenu.Panel.FilteredGenres | app/components/FilterMenu.tsx:34-36 | a genre is listed iff its lower-cased name contains the lower-cased genre search term |
| FilterMenu.Panel.FilteredLanguages | app/components/FilterMenu.tsx:38-40 | a language of the ordered list is shown iff its lower-cased name contains the lower-cased language search term |
| FilterMenu.SearchKeepsOrder | app/components/FilterMenu.tsx:34-40 | search keeps the options' order, and an empty term keeps them all |
| FilterMenu.SearchIgnoresCase | app/components/FilterMenu.tsx:35-39 | the case of the search term does not change what is shown |
| FilterMenu.Panel.constructor | app/components/FilterMenu.tsx:21-23 | the draft starts as the filters the panel was opened with, with both searches empty |
| FilterMenu.Panel.SetGenreSearch | app/components/FilterMenu.tsx:102 | only the genre search term changes |
| FilterMenu.Panel.SetLanguageSearch | app/components/FilterMenu.tsx:134 | only the language search term changes |
| FilterMenu.Panel.SelectGenre | app/components/FilterMenu.tsx:91 | only the draft's genre changes; the shared filters are untouched |
| FilterMenu.Panel.SelectLanguage | app/components/FilterMenu.tsx:123 | only the draft's language changes; the shared filters are untouched |
| FilterMenu.Panel.Apply | app/components/FilterMenu.tsx:42-45 | the shared filters become exactly the draft, the draft and both search terms stay, then the panel asks to close |
| FilterMenu.Panel.Reset | app/components/FilterMenu.tsx:47-52 | the draft and the shared filters both become all/all with no release date, both search terms stay, then the panel asks to close |
| CatalogPages.TrimProvider | app/movies/page.tsx:29-32 | a provider keeps its name and key; its shows are a prefix of the kept shows, of length ten or the number kept when fewer; each is an original show that is kept |
| CatalogPages.TrimAll | app/page.tsx:67-71 | every provider is trimmed, in order |
| CatalogPages.Rows | app/page.tsx:67-72 | every row has one to ten kept shows; every trimmed provider with a show is a row; every row is a trimmed provider |
| CatalogPages.RowsKeepOrder | app/page.tsx:67-72 | the rows keep the providers' order |
| CatalogPages.MovieRows | app/movies/page.tsx:28-33 | no show on the movies page has a null poster |
| CatalogPages.HomeRowIsPrefix | app/tv-shows/page.tsx:29-33 | on the home and TV pages a row is the first ten shows as they came |
| CatalogPages.HomeRows | app/page.tsx:67-72 | every home or TV row has one to ten shows, and is some provider with its name and its first shows as they came |
| CatalogPages.RowsFor | app/movies/page.tsx:28-33 | every row of any page has one to ten shows, and on the movies page none has a null poster |
| CatalogPages.CatalogView.constructor | app/page.tsx:55-63 | a page starts with no rows and not loaded |
| CatalogPages.CatalogView.Refresh | app/tv-shows/page.tsx:27-38 | while loading nothing changes; once loaded, the rows are recomputed from the hook's shows and the page is marked loaded |
| CatalogPages.NewPageFilters | app/tv-shows/page.tsx:18-22 | the home and TV pages' own filters start as all/all/all |
| CatalogPages.MoviesFilters.constructor | app/movies/page.tsx:22 | the filter version starts at 0 |
| CatalogPages.MoviesFilters.HandleFilterChange | app/movies/page.tsx:39-42 | the shared filters are replaced and the version goes up by exactly one |
| CatalogPages.MoviesFilters.ResetFilters | app/movies/page.tsx:124 | the empty-state button stores all/all/all and leaves the version as it is |
| CatalogPages.PlatformSlugChars | app/page.tsx:117 | a home or movies slug holds no whitespace and no capital, only characters of the lower-cased name |
| CatalogPages.PlatformSlugResolves | app/page.tsx:117 | a home or movies link always matches its own provider when the platform page lower-cases it and compares it with each name's slug |
| CatalogPages.PlatformSlugStable | app/movies/page.tsx:82 | making a slug of a slug changes nothing |
| CatalogPages.PlatformSlugJoin | app/page.tsx:117 | the slug of two words joined by a space is the two slugs joined with nothing between them |
| CatalogPages.PlatformSlugHyphen | app/movies/page.tsx:82 | the whitespace-free slug, which the platform page also computes for each name, holds a hyphen only if the provider name does |
| CatalogPages.PlatformSlug | app/page.tsx:117 | a home slug is never longer than the provider name |
| CatalogPages.TvPlatformSlug | app/tv-shows/page.tsx:75 | a TV slug has the name's length, and is the lower-cased name when that has no space |
| CatalogPages.PlatformMatches | app/movies/page.tsx:82 | a link whose lower-cased slug holds whitespace matches no provider on the platform page |
| CatalogPages.TvSlugHyphen | app/tv-shows/page.tsx:75 | the TV slug of a name with a space holds a hyphen, also once lower-cased |
| CatalogPages.FirstSpace | app/tv-shows/page.tsx:75 | the position of the first space: it holds a space, and no earlier position does |
| CatalogPages.TvSlugDoesNotResolve | app/tv-shows/page.tsx:75 | a TV link for a name with a space and no hyphen never matches on the platform page |
| CatalogPages.AmazonTvLinkBroken | app/tv-shows/page.tsx:75 | the TV link for "Amazon Prime Video" finds no provider |
| Banner.TagShows | app/components/DynamicBanner.tsx:24-29 | the tagged shows are exactly the provider's shows with a truthy poster, each with that provider's name |
| Banner.Eligible | app/components/DynamicBanner.tsx:23-30 | every candidate has a truthy poster and carries the name of a provider listing it |
| Banner.EligibleComplete | app/components/DynamicBanner.tsx:23-30 | every show with a truthy poster is a candidate, tagged with its provider's name |
| Banner.SelectFeatured | app/components/DynamicBanner.tsx:32 | the featured list has min(5, number of candidates) entries, drawn from the shuffled list |
| Banner.FeaturedFromEligible | app/components/DynamicBanner.tsx:31-32 | for any shuffle, the featured shows are min(5, candidates) distinct candidates, each with a truthy poster |
| Banner.HeroBanner.constructor | app/components/DynamicBanner.tsx:18-19 | no featured shows, index 0 |
| Banner.HeroBanner.OnShowsChanged | app/components/DynamicBanner.tsx:21-33 | the featured shows are replaced and the index is not reset |
| Banner.HeroBanner.Tick | app/components/DynamicBanner.tsx:36-39 | with featured shows the index steps by one modulo their number and stays in range; without any, nothing changes |
| Banner.HeroBanner.CurrentShow | app/components/DynamicBanner.tsx:45-48 | a show is rendered iff the index is within the list, and it is the one at the index |
| Banner.ShrinkHidesBanner | app/components/DynamicBanner.tsx:18-48 | an update to fewer shows than the index leaves the banner rendering nothing |
| Blog.FilterPosts | app/blog/page.tsx:24-28 | a post is kept iff its lower-cased title or category contains the lower-cased term |
| Blog.FilterPostsKeepsOrder | app/blog/page.tsx:24-28 | the posts keep their order, and an empty term keeps every post |
| Blog.FilterPostsIgnoresCase | app/blog/page.tsx:26-27 | the case of the term does not change the result |
| Blog.BlogPage.Shown | app/blog/page.tsx:24-28 | the page shows exactly the loaded posts whose title or category contains the search term |
| Blog.BlogPage.constructor | app/blog/page.tsx:13-14 | no posts, empty search |
| Blog.BlogPage.LoadPosts | app/blog/page.tsx:16-22 | the posts become what the call returned, and none after a failed call |
| Blog.BlogPage.SetSearchTerm | app/blog/page.tsx:13 | only the search term changes |
| ContentCard.ReverseMap | app/components/ContentCard.tsx:36-38 | the turned-round table holds exactly the table's ids |
| ContentCard.ReverseMapInverts | app/components/ContentCard.tsx:36-38 | with distinct ids, each id maps back to its own slug |
| ContentCard.ReverseProviderName | app/components/ContentCard.tsx:39-40 | no first id gives "null" |
| ContentCard.ReverseProviderNameInverse | app/components/ContentCard.tsx:36-40 | the reverse lookup is the exact inverse of the platform table, in both directions |
| ContentCard.ReverseOfListedSlug | app/components/ContentCard.tsx:36-40 | a listed slug's key looks up that slug |
| ContentCard.ListedIdHasSlug | app/components/ContentCard.tsx:36-40 | an id that names a slug is that slug's key |
| ContentCard.FindKey | app/lib/api.ts:92-103 | a known slug has a table position holding it and its key |
| ContentCard.UnknownIdExample | app/components/ContentCard.tsx:40 | id 9 is not a platform and gives "null" |
| ContentCard.KnownIdExample | app/components/ContentCard.tsx:36-40 | id 119 gives "amazonprimevideo" |
| ContentCard.FirstProvider | app/components/ContentCard.tsx:39 | the first provider id exists iff the list is not empty |
| ContentCard.ProviderPart | app/components/ContentCard.tsx:34-41 | no provider list gives the empty text; an empty list gives "null"; a non-empty list gives the reverse lookup of its first id |
| ContentCard.ProviderPartMeaning | app/components/ContentCard.tsx:34-41 | for a non-empty list, the part is the slug whose key is the first id when the table lists that id, and "null" when it does not |
| ContentCard.SearchClick | app/components/ContentCard.tsx:29-45 | a truthy homepage is opened; otherwise the search query is title, provider part and release date, separated by spaces |
| ContentCard.Renders | app/components/ContentCard.tsx:18 | a card renders exactly when its poster is neither null nor empty |
| ContentCard.ShowsSearchButton | app/components/ContentCard.tsx:55 | the button is hidden exactly when there is no truthy homepage and no provider list; an empty list still shows it |
| ContentCard.SearchButtonAction | app/components/ContentCard.tsx:29-55 | a shown button without a homepage searches the web, and its provider part is a slug or "null", never empty |
| ContentCard.TypeLabel | app/components/ContentCard.tsx:97 | "Movie" exactly for movies, "TV" exactly for TV shows |
| Feedback.FeedbackTypesFacts | app/feedback/page.tsx:13-38 | there are four feedback types, all distinct |
| Feedback.DefaultTypeListed | app/feedback/page.tsx:168 | the select's initial value "general" is a listed type, the first |
| Feedback.Payload | app/feedback/page.tsx:48-54 | the body has exactly the four form fields, unchanged |
| Feedback.PayloadInjective | app/feedback/page.tsx:48-54 | different forms send different bodies |
| Feedback.FeedbackForm.constructor | app/feedback/page.tsx:41-42 | not submitting, not submitted |
| Feedback.FeedbackForm.BeginSubmit | app/feedback/page.tsx:46-54 | submitting starts and the body is built from the form |
| Feedback.FeedbackForm.CompleteSubmit | app/feedback/page.tsx:65-74 | only an ok reply marks the form submitted; submitting ends in every case |
| Feedback.FeedbackForm.SendAnother | app/feedback/page.tsx:96 | the submitted mark is cleared |
| Feedback.FailedSubmitKeepsForm | app/feedback/page.tsx:44-74 | from any shown form, a whole attempt that is refused or fails sends the form's body and leaves the form shown and idle |
| Theme.Toggled | app/hooks/useTheme.ts:18 | "dark" becomes "light", any other value becomes "dark" |
| Theme.ToggleTwice | app/hooks/useTheme.ts:18 | two toggles restore "dark" and "light", and turn any other value into "light" |
| Theme.KeyValueStore.GetItem | app/hooks/useTheme.ts:11 | a stored value under the key, or null |
| Theme.KeyValueStore.SetItem | app/hooks/useTheme.ts:20 | only the one key is overwritten |
| Theme.ThemeHook.constructor | app/hooks/useTheme.ts:8 | the theme starts as "dark" |
| Theme.ThemeHook.LoadStored | app/hooks/useTheme.ts:10-15 | a stored non-empty value is adopted unchecked; otherwise the theme stays |
| Theme.ThemeHook.Toggle | app/hooks/useTheme.ts:17-21 | the theme flips, and the new one is written under "theme" |
| Theme.ToggleTwiceRestores | app/hooks/useTheme.ts:17-21 | two toggles from "dark" or "light" restore both the theme and the stored value |
| Recommend.NextBackdropIndex | app/recommend/page.tsx:34-41 | the loop makes at most n attempts, skips only movies without a backdrop, and lands where the rotation specification says |
| Recommend.RotationTarget | app/recommend/page.tsx:34-41 | the rotation result is a valid index |
| Recommend.ScanFromSpec | app/recommend/page.tsx:38-41 | the scan stops at the first position with a backdrop, or after trying every position |
| Recommend.ScanFrom | app/recommend/page.tsx:34-41 | the scan from any number of attempts ends on a valid index |
| Recommend.RotationFindsNextBackdrop | app/recommend/page.tsx:34-41 | when some movie has a backdrop, the rotation lands on the first one after the selection, going round the end |
| Recommend.RotationWithoutBackdrops | app/recommend/page.tsx:34-41 | when no movie has a backdrop, the rotation moves one position on |
| Recommend.OffsetOf | app/recommend/page.tsx:34-39 | every index is reached within n steps after the selection |
| Recommend.FullCircle | app/recommend/page.tsx:38-39 | after n steps the scan is back where it started |
| Recommend.NextPos | app/recommend/page.tsx:39 | one more step of the loop is one position further round |
| Recommend.RecommendPage.constructor | app/recommend/page.tsx:20-23 | no recommendations, not loading, no error, index 0 |
| Recommend.RecommendPage.Rotate | app/recommend/page.tsx:29-43 | with recommendations the index moves to the rotation target; without any, nothing changes |
| Recommend.RecommendPage.BeginSubmit | app/recommend/page.tsx:51-52 | loading starts and the error is cleared first |
| Recommend.RecommendPage.CompleteSubmit | app/recommend/page.tsx:53-66 | a non-empty array replaces the list and selects the first; any other reply reports that nothing was found; a failure reports the AI break; loading always ends |
| Recommend.RecommendPage.SelectCard | app/recommend/page.tsx:223-227 | a click selects a card only when its movie has a backdrop |
| Ordering.Sort | app/components/FilterMenu.tsx:32 | the result is sorted and a permutation of the input |
| Ordering.SortCharacterised | app/components/FilterMenu.tsx:32 | any sorted permutation of the input is the sort result, so the order does not depend on the algorithm |
| Text.IncludesIff | app/components/FilterMenu.tsx:35 | `includes` holds exactly when the term occurs at some position |
| Text.LowerIdempotent | app/blog/page.tsx:26-27 | lower-casing twice, or after upper-casing, is lower-casing once |
| Text.RemoveWhitespaceChars | app/page.tsx:117 | whitespace removal keeps only non-whitespace characters of its input |
| Text.RemoveWhitespaceAppend | app/page.tsx:117 | whitespace removal distributes over concatenation |
| Text.ReplaceFirstAt | app/tv-shows/page.tsx:75 | only the first occurrence of the searched character is replaced |
| Text.NatToStringInjective | app/hooks/useOptimizedFetch.ts:68 | distinct keys render as distinct digit strings |

## Left out

- Network transport: each call's reply is a parameter (`Success`/`Failure`). Axios, `fetch` and the backend URLs are not modelled.
- The feedback page's `fetch`: modelled as `Success(ok)` carrying the response's `ok` flag, or `Failure`.
- `Date.now()` is the `now` parameter of `OptimizedFetch.FetchHook.Start`; the fetch's start time is carried to `Finish`.
- The stale-while-revalidate recursion is not modelled as a call. `OptimizedFetch.FetchHook.Start` returns a `revalidate` flag instead. The source re-enters the same function while the cache is unchanged, so that call takes the same branch again.
- Async interleaving: nothing orders overlapping runs in the source, and there is no stale-response guard. `Finish` writes whatever reply it is given. The model claims no ordering.
- Timers (`setInterval`): only the step functions (`Recommend.RecommendPage.Rotate`, `Banner.HeroBanner.Tick`) are modelled.
- `Math.random` in the banner's shuffle: the shuffle is a parameter, any permutation of the candidates.
- React rendering, effect scheduling and the UI callbacks (`onClose`, `onFilterChange`) are not modelled. The panel asking to close is the `closeRequested` flag.
- Dates, number formatting and floating-point fields (`popularity`, `vote_average`) are not modelled.
- `encodeURIComponent` on the search query is not modelled. `ContentCard.SearchClick` states the query before encoding.
- Case mapping is ASCII only; `toLowerCase`/`toUpperCase` on other characters are not modelled.
- `CatalogPages.MovieRows`: the source's `posterUrl !== null` keeps a show whose poster field is absent (`undefined`). The model has one `None` for null and absent, which is dropped.
- JavaScript prototype keys: `languageMap[code]` for keys such as `constructor` is not modelled; every unlisted code falls back to the upper-cased code.
- The AI reply's `data` is a tagged value: an array, an object wrapping the movies, or missing. Only the array with at least one element is taken, as in the source.
- `Recommend.RecommendPage.SelectCard` requires the index to be within the list: the page calls it only for the index of a rendered card.
- `OptimizedFetch.PrefixedIdInjective` and `OptimizedFetch.PrefixedIdsUnique` require non-negative provider keys, which every key of the platform table is. A negative key would render with a leading minus sign.
- The cache key is modelled as a structured value, not as the JSON text. `JSON.stringify` writes these fields in a fixed order and omits absent ones, so two keys are equal exactly when the structured values are.
- Other pages and components are not part of this model: header, footer, about, privacy, blog detail, welcome popup, banners other than the hero, loading screens and the mock data. The platform page is used only for the slug comparison it performs.

## Findings

| source | as written | input that shows it | evidently intended | confidence | as-written member | corrected member |
|---|---|---|---|---|---|---|
| app/tv-shows/page.tsx:75 | the link slug (`CatalogPages.TvPlatformSlug`) lower-cases the name and replaces only its first space with a hyphen, but the platform page (app/platform/[platform]/page.tsx:33-38) matches the name with every whitespace run removed | provider "Amazon Prime Video": the link is "amazon-prime video", while the page compares against "amazonprimevideo", so no provider is found (`CatalogPages.AmazonTvLinkBroken`) | the slug of the home and movies pages, which removes all whitespace (`CatalogPages.PlatformSlug`) and always resolves | not executed | CatalogPages.TvSlugDoesNotResolve | CatalogPages.PlatformSlugResolves |
| app/hooks/useOptimizedFetch.ts:76 | every write sets the one timestamp the cache keeps, so a write under one key renews the age of every other key | key A written at time 0 and key B written at 1 hour: at 1 hour A is a miss before the write and fresh right after it, with its hour-old list (`OptimizedFetch.SharedTimestampRevivesExpiredKey`) | a write time per key, under which a write leaves every other key's freshness as it was; the hook itself is modelled with the shared timestamp, as written | not executed | OptimizedFetch.StoreRefreshesEveryKey | OptimizedFetch.StoreKeyedKeepsOtherKeys |
