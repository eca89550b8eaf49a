# Lynkbin front end: a Dafny model of its state handling and data shaping

This project models the logic of the Lynkbin web client that is more than
markup. The client saves links and notes from LinkedIn, X and other sites.
The model covers seven source files.

- **Links store** (`LinksSlice`, `src/store/slices/linksSlice.ts`).
  - `transformPostToLink`, with the `x` → `twitter` alias.
  - The payloads each asynchronous action settles with.
  - The reducer. It is the class `LinksStore`: one field per member of the state record, one method per action case. The persisted platform lives in the class `PreferenceStore`, which stands for `localStorage`.
- **Gateway** (`Posts`, `src/services/api/posts.ts`).
  - The query pairs of `getPosts`, built by a loop proved against the function `PostsQuery`.
  - The unwrapping of the `{success, data, message}` envelope.
  - The flatten → drop-empty → trim → dedupe pipeline of `getAuthors`, `getTags` and `getCategories`.
- **Add-link modal** (`AddLinkModal`, `src/components/AddLinkModal.tsx`). It is the class `AddLinkForm`, holding the form fields and an event log. The log records the toasts, the `addLink` dispatch and the `onOpenChange(false)` calls.
- **Dashboard** (`Dashboard`, `src/pages/Dashboard.tsx`).
  - The card filter and the sorted author and tag pick-lists.
  - The class `DashboardView`, for the tab, the single-select pickers and clear-filters.
- **Categories page** (`Categories`, `src/pages/Categories.tsx`): its filter, defaults, platform labels and the two-tag cap on each card.
- **Relative dates** (`NotesDetailModal`, `src/components/NotesDetailModal.tsx`): the relative-time label of `formatDate`.
- **Route guard** (`ProtectedRoute`, `src/components/ProtectedRoute.tsx`): the render decision and the user-fetch trigger.

Shared modules:

- `Wrappers`: `Option` and `Result`.
- `Seqs`: filter, remove, map, flatten, first-occurrence dedupe and subsequence.
- `Text`:
  - JavaScript `trim`, ASCII lower-casing and `includes`.
  - The default string order of `sort`, an insertion sort, and decimal `toString`.
- `PageLinks`: the link record and search match that both pages share.

The following become inputs:

- The network: each call is a reply value, or a request error with its message.
- The clock: the current time in milliseconds.
- The saved date, already parsed.
- The locale-formatted absolute date.

Behaviour of the code worth knowing:

- The store neither reads filters from the URL nor writes them back to it (`linksSlice.ts` has no URL access).
- The slice keeps no request ids, so a late older response overwrites a newer one (`fetchLinks.fulfilled`, `linksSlice.ts:216-219`).
- The modal awaits the `addLink` dispatch and closes only after it succeeds (`AddLinkModal.tsx:63-70`).
- `setSelectedPlatform` leaves the author and tag selection as it is (`linksSlice.ts:170-173`).
- `toggleAuthor` and `toggleTag` treat the empty string like any other value (`linksSlice.ts:186-201`).
- The distinct-value pipeline drops exact empty strings before trimming. A name made only of white space therefore comes back as `""`; this is `Posts.WhitespaceNameYieldsEmpty`.
- The `Post` interface declares `link`, but `transformPostToLink` reads `post.data`. The model's `Post` carries both fields.
- The success toast of the modal is stored in the file as mis-decoded bytes (`ðŸŽ‰` in place of 🎉). `AddLinkModal.SavedMessage` spells it that way.
- The first render with a token but no authenticated user already redirects to `/auth`; the user fetch starts in the effect after that render. See `ProtectedRoute.FetchingRenderRedirects`.

## Model

| member | source | states |
|---|---|---|
| Posts.BackendPlatform | src/services/api/posts.ts:48 | `twitter` becomes `x`; every other platform name is sent unchanged |
| Posts.FailureMessage | src/services/api/posts.ts:37 | `message \|\| fallback`: the server message unless it is absent or empty; never empty when the fallback is not |
| Posts.AppendAll | src/services/api/posts.ts:53 | the `forEach` loop appends one `(key, value)` pair per value, in list order, after the existing pairs |
| Posts.AppendOptional | src/services/api/posts.ts:52-62 | an absent or empty list adds nothing; a non-empty one adds its pairs in order after the existing ones |
| Posts.BuildPostsQuery | src/services/api/posts.ts:43-62 | the imperatively built query equals the reference function `PostsQuery`: the platform pair, then the tags, authors and categories groups |
| Posts.PostsQueryGetAll | src/services/api/posts.ts:46-62 | `getAll` on the query gives back each filter list in its order, and the platform under its backend name; an absent or empty platform is omitted |
| Posts.PostsQueryLayout | src/services/api/posts.ts:44-62 | exact positions: platform first (only when non-empty), then every tag, author and category in order, nothing else |
| Posts.GetPosts | src/services/api/posts.ts:64-68 | failure gives the message or `Failed to fetch posts`; success without data gives `[]` |
| Posts.CreatePost | src/services/api/posts.ts:34-40 | `CreatePostRequest` posts the URL alone; failure gives the message or `Failed to create post`; success passes the (possibly missing) post on |
| Posts.GetCounts | src/services/api/posts.ts:141-147 | failure gives the message or `Failed to fetch stats`; success passes the data on |
| Posts.DistinctRequestsAlias | src/services/api/posts.ts:73-82 | `AuthorsRequest`, `TagsRequest` and `CategoriesRequest` send the same `platform` pair with the same alias as `getPosts`, also for the empty name, which `getPosts` omits |
| Posts.Normalize | src/services/api/posts.ts:88-91 | no duplicates; a value is in the result exactly when it is the trim of some non-empty name of the flattened lists |
| Posts.NormalizeOrder | src/services/api/posts.ts:91 | the `Set` keeps first-occurrence order of the trimmed names |
| Posts.TrimmedNames | src/services/api/posts.ts:90 | the trimmed stage holds exactly the trims of the non-empty names |
| Posts.NormalizeTrimmed | src/services/api/posts.ts:90 | every returned value is already trimmed |
| Posts.WhitespaceNameYieldsEmpty | src/services/api/posts.ts:90 | a non-empty, all-white-space name puts `""` into the result |
| Posts.MissingListIgnored | src/services/api/posts.ts:89 | a record whose list is missing contributes nothing |
| Posts.DistinctValues | src/services/api/posts.ts:83-91 | failure gives the message or the call's fallback; success gives the normalised lists of the records |
| Posts.GetAuthors | src/services/api/posts.ts:72-92 | error message on failure; otherwise duplicate-free, and a name is returned exactly when it trims some non-empty name of some record |
| Posts.GetCategories | src/services/api/posts.ts:95-115 | the same as `getAuthors`, for the `categories` lists |
| Posts.GetTags | src/services/api/posts.ts:118-139 | the same as `getAuthors`, for the `tags` lists |
| LinksSlice.FrontendPlatform | src/store/slices/linksSlice.ts:24 | `x` becomes `twitter`; every other name, `notes` included, is kept |
| LinksSlice.FrontendBackendRoundTrip | src/store/slices/linksSlice.ts:24 | backend then front-end alias gives the name back exactly when it is not `x` |
| LinksSlice.BackendFrontendRoundTrip | src/services/api/posts.ts:48 | front-end then backend alias gives the name back exactly when it is not `twitter` |
| LinksSlice.TransformPostToLink | src/store/slices/linksSlice.ts:18-28 | the id string parses back to the post id; title is `topic` when non-empty, else `data`; the platform is aliased; missing tags become `[]`; `savedAt` is `created_at`; the rest is copied |
| LinksSlice.TransformKeepsIdsDistinct | src/store/slices/linksSlice.ts:19 | posts with distinct ids map to items with distinct ids |
| LinksSlice.TransformPosts | src/store/slices/linksSlice.ts:76 | the mapping is element-wise and keeps the length |
| LinksSlice.Rejected | src/store/slices/linksSlice.ts:78 | `rejectWithValue(error.message \|\| fallback)` |
| LinksSlice.NonEmpty | src/store/slices/linksSlice.ts:92-93 | an empty selection is sent as `undefined`, a non-empty one as itself; the modal sends its tags to `addLink` the same way (`AddLinkModal.tsx:63`) |
| LinksSlice.FetchLinksQuery | src/store/slices/linksSlice.ts:73-75 | `FetchLinksParams`, the `fetchLinks` filters, ask only for the selected platform |
| LinksSlice.FetchByPlatformQuery | src/store/slices/linksSlice.ts:88-94 | `FetchByPlatformParams`, the `fetchLinksByPlatform` filters, send the selected authors and tags in selection order and no category |
| LinksSlice.FetchLinksOutcome | src/store/slices/linksSlice.ts:69-100 | fulfilled exactly for a successful reply, with the mapped posts; a server failure keeps the gateway's message; a request error falls back to `Failed to fetch links` |
| LinksSlice.AddLinkRequest | src/store/slices/linksSlice.ts:104-106 | only the URL reaches `POST /posts`; the tags are dropped |
| LinksSlice.AddLinkOutcome | src/store/slices/linksSlice.ts:102-112 | fulfilled exactly for a successful reply that carries a post; a reply without a post fails in `transformPostToLink` |
| LinksSlice.DistinctOutcome | src/store/slices/linksSlice.ts:114-145 | passes a normalised list through, or rejects with the error message or the thunk's fallback |
| LinksSlice.FetchAuthorsOutcome | src/store/slices/linksSlice.ts:114-123 | fulfilled exactly for a successful reply, with the duplicate-free `getAuthors` list; a server failure keeps the gateway's message; a request error gets the thunk's fallback |
| LinksSlice.FetchTagsOutcome | src/store/slices/linksSlice.ts:125-134 | fulfilled exactly for a successful reply, with the duplicate-free `getTags` list; a server failure keeps the gateway's message; a request error gets the thunk's fallback |
| LinksSlice.FetchCategoriesOutcome | src/store/slices/linksSlice.ts:136-145 | fulfilled exactly for a successful reply, with the duplicate-free `getCategories` list; a server failure keeps the gateway's message; a request error gets the thunk's fallback |
| LinksSlice.CategoryPageOutcome | src/store/slices/linksSlice.ts:148-164 | fulfilled only when both calls succeed, with the posts and the categories; otherwise the first failure's message: the posts call's, else the categories call's |
| LinksSlice.CategoryPageQuery | src/store/slices/linksSlice.ts:153 | `CategoryPageParams` ask `getPosts` for the platform alone: one `platform` pair under its backend name, none for the empty name, and no other filter |
| LinksSlice.CategoryPageStopsAtFirstFailure | src/store/slices/linksSlice.ts:153-154 | after a failed posts call the categories reply makes no difference |
| LinksSlice.ToggleMembership | src/store/slices/linksSlice.ts:186-193 | after `Toggle`, the list update of both reducers, the value is present exactly when it was absent; other values keep their membership |
| LinksSlice.ToggleOff | src/store/slices/linksSlice.ts:188-189 | removing keeps the remaining values in order and drops every copy of the value |
| LinksSlice.ToggleOn | src/store/slices/linksSlice.ts:190-191 | an absent value is appended after the unchanged list |
| LinksSlice.ToggleTwiceRestores | src/store/slices/linksSlice.ts:194-201 | toggling an absent value twice restores the list exactly |
| LinksSlice.ToggleNoDup | src/store/slices/linksSlice.ts:186-201 | a toggle keeps a duplicate-free selection duplicate-free |
| LinksSlice.InitialPlatform | src/store/slices/linksSlice.ts:56 | the stored platform unless it is missing or empty, else `linkedin`; never empty |
| LinksSlice.InitialState | src/store/slices/linksSlice.ts:49-66 | stored-or-`linkedin` platform, `desc` order, `Design` category, every list empty, no flags, no errors |
| LinksSlice.PersistedPlatformRestored | src/store/slices/linksSlice.ts:170-173 | a persisted platform is the one a new store starts with, except `""`, which restarts at `linkedin` |
| LinksSlice.PreferenceStore.GetItem | src/store/slices/linksSlice.ts:56 | `getItem` yields the stored value, or nothing for a missing key |
| LinksSlice.PreferenceStore.SetItem | src/store/slices/linksSlice.ts:172 | `setItem` overwrites one key and no other |
| LinksSlice.LinksStore.constructor | src/store/slices/linksSlice.ts:49-66 | the store starts in `InitialState` of what `localStorage` holds |
| LinksSlice.LinksStore.SetSelectedPlatform | src/store/slices/linksSlice.ts:170-173 | only the platform changes, and the same value is stored under `selectedPlatform` |
| LinksSlice.LinksStore.SetSelectedAuthors | src/store/slices/linksSlice.ts:174-176 | only the author selection changes |
| LinksSlice.LinksStore.SetSelectedTags | src/store/slices/linksSlice.ts:177-179 | only the tag selection changes |
| LinksSlice.LinksStore.SetSelectedCategory | src/store/slices/linksSlice.ts:180-182 | only the category changes |
| LinksSlice.LinksStore.SetSortOrder | src/store/slices/linksSlice.ts:183-185 | only the sort order changes |
| LinksSlice.LinksStore.ToggleAuthor | src/store/slices/linksSlice.ts:186-193 | the author selection becomes `Toggle` of the old one; nothing else changes; no duplicates appear |
| LinksSlice.LinksStore.ToggleTag | src/store/slices/linksSlice.ts:194-201 | the tag selection becomes `Toggle` of the old one; nothing else changes; no duplicates appear |
| LinksSlice.LinksStore.ClearFilters | src/store/slices/linksSlice.ts:202-205 | both selections become empty; platform, order, category, items and flags are kept |
| LinksSlice.LinksStore.ClearError | src/store/slices/linksSlice.ts:206-208 | only the error is cleared |
| LinksSlice.LinksStore.FetchLinksPending | src/store/slices/linksSlice.ts:212-215 | loading on, error cleared, nothing else (also the `fetchLinksByPlatform` case) |
| LinksSlice.LinksStore.FetchLinksFulfilled | src/store/slices/linksSlice.ts:216-219 | loading off, items replaced, nothing else |
| LinksSlice.LinksStore.FetchLinksRejected | src/store/slices/linksSlice.ts:220-223 | loading off, error set, items untouched |
| LinksSlice.LinksStore.AddLinkPending | src/store/slices/linksSlice.ts:240-242 | only the error is cleared; the loading flag is not touched |
| LinksSlice.LinksStore.AddLinkFulfilled | src/store/slices/linksSlice.ts:243-246 | loading off; the new item is first and the old items follow in order |
| LinksSlice.LinksStore.AddLinkRejected | src/store/slices/linksSlice.ts:247-250 | loading off, error set, items untouched |
| LinksSlice.LinksStore.FetchAuthorsSettled | src/store/slices/linksSlice.ts:253-255 | a fulfilled list replaces the available authors; a rejection changes nothing |
| LinksSlice.LinksStore.FetchTagsSettled | src/store/slices/linksSlice.ts:258-260 | a fulfilled list replaces the available tags; a rejection changes nothing |
| LinksSlice.LinksStore.FetchCategoriesSettled | src/store/slices/linksSlice.ts:263-265 | a fulfilled list replaces the available categories; a rejection changes nothing |
| LinksSlice.LinksStore.CategoryPagePending | src/store/slices/linksSlice.ts:268-271 | only the category-page loading flag and error change |
| LinksSlice.LinksStore.CategoryPageFulfilled | src/store/slices/linksSlice.ts:272-276 | only the category-page fields change |
| LinksSlice.LinksStore.CategoryPageRejected | src/store/slices/linksSlice.ts:277-280 | only the category-page loading flag and error change |
| AddLinkModal.DecideAddTag | src/components/AddLinkModal.tsx:30-38 | a tag is added (`TagsAfterAdd` appends it) exactly when its trim is non-empty, new, and fewer than 3 tags exist; with 3 or more the limit error applies; otherwise nothing happens |
| AddLinkModal.AddTagKeepsValid | src/components/AddLinkModal.tsx:30-34 | adding keeps the tags at most 3, duplicate-free, non-empty and trimmed |
| AddLinkModal.RemoveTagKeepsValid | src/components/AddLinkModal.tsx:40-42 | removing keeps the same invariant |
| AddLinkModal.RemoveUndoesAdd | src/components/AddLinkModal.tsx:30-42 | removing the tag just added gives back the previous tags |
| AddLinkModal.EnabledAddNeverFull | src/components/AddLinkModal.tsx:133-140 | with the Add button enabled (`AddButtonEnabled`, its `disabled` expression negated), the limit error cannot occur, and the tag is added exactly when it is new |
| AddLinkModal.SaveFailedMessage | src/components/AddLinkModal.tsx:72 | the rejection text, or the modal's fallback when it is empty; never empty |
| AddLinkModal.AddLinkForm.constructor | src/components/AddLinkModal.tsx:24-27 | empty fields, not processing, no events |
| AddLinkModal.AddLinkForm.SetUrl | src/components/AddLinkModal.tsx:113 | only the URL changes |
| AddLinkModal.AddLinkForm.SetTagInput | src/components/AddLinkModal.tsx:131 | only the tag input changes |
| AddLinkModal.AddLinkForm.AddTag | src/components/AddLinkModal.tsx:30-38 | added: tag appended, input cleared, no toast; full: lists kept, limit toast; otherwise nothing changes; the tag invariant is kept |
| AddLinkModal.AddLinkForm.TagInputKeyDown | src/components/AddLinkModal.tsx:44-49 | Enter acts as `handleAddTag`: the same tags, input and toast in each of its three cases; any other key changes nothing |
| AddLinkModal.AddLinkForm.RemoveTag | src/components/AddLinkModal.tsx:40-42 | exactly the given tag is removed and the others keep their order |
| AddLinkModal.AddLinkForm.SubmitStart | src/components/AddLinkModal.tsx:51-63 | a blank or white-space URL gives the URL toast and no dispatch; otherwise processing starts and `addLink` is dispatched with the URL and tags |
| AddLinkModal.AddLinkForm.SubmitSettle | src/components/AddLinkModal.tsx:63-75 | success: success toast, fields cleared, modal closed; failure: error toast, fields kept; processing ends in both cases |
| AddLinkModal.AddLinkForm.Close | src/components/AddLinkModal.tsx:78-85 | nothing happens while processing; otherwise the fields are cleared and the modal closes |
| PageLinks.MatchesSearchAt | src/pages/Dashboard.tsx:112-113 | `MatchesSearch`, the search test of both pages, holds exactly when the lowered query occurs at some position of the lowered title or description |
| PageLinks.EmptySearchMatches | src/pages/Dashboard.tsx:112-113 | the empty search matches every link |
| PageLinks.SearchIgnoresCase | src/pages/Dashboard.tsx:112-113 | lower-casing the query does not change the match |
| Dashboard.PlatformFilteredLinks | src/pages/Dashboard.tsx:111-118 | a link is shown (`Shown`) exactly when the search matches, the platform is the tab, and the author and tag selections are empty or satisfied; the result is a subsequence of the links |
| Dashboard.PlatformLinks | src/pages/Dashboard.tsx:121 | exactly the links of the active tab, in order |
| Dashboard.NoFiltersShowPlatform | src/pages/Dashboard.tsx:111-121 | with no search and no selection, every link of the tab is shown, in order |
| Dashboard.ShownWithinPlatform | src/pages/Dashboard.tsx:111-121 | the cards are the tab's links filtered by the page predicate |
| Dashboard.AvailableAuthors | src/pages/Dashboard.tsx:121-122 | sorted, duplicate-free, and exactly the authors of the tab's links |
| Dashboard.AvailableTags | src/pages/Dashboard.tsx:121-123 | sorted, duplicate-free, and exactly the union of the tab's tags |
| Dashboard.AvailableAuthorsUnique | src/pages/Dashboard.tsx:122 | any sorted duplicate-free listing of those authors is the author list |
| Dashboard.AvailableTagsUnique | src/pages/Dashboard.tsx:123 | any sorted duplicate-free listing of those tags is the tag list |
| Dashboard.ToggleSingle | src/pages/Dashboard.tsx:240 | picking the current value clears it; picking another replaces it |
| Dashboard.ToggleSingleTwice | src/pages/Dashboard.tsx:288 | picking the same value twice from no selection leaves none |
| Dashboard.DashboardView.constructor | src/pages/Dashboard.tsx:95-100 | empty search, `linkedin` tab, no selection, pickers closed |
| Dashboard.DashboardView.HandleTabChange | src/pages/Dashboard.tsx:103-108 | the tab is set and both selections are cleared, so `FiltersActive` is false; the search is kept; with an empty search the `Visible` cards are every link of the new tab |
| Dashboard.DashboardView.SelectAuthor | src/pages/Dashboard.tsx:239-242 | the author selection toggles and the picker closes; nothing else changes |
| Dashboard.DashboardView.SelectTag | src/pages/Dashboard.tsx:287-290 | the tag selection toggles and the picker closes; nothing else changes |
| Dashboard.DashboardView.ClearFilters | src/pages/Dashboard.tsx:313-316 | both selections are cleared, so `FiltersActive` is false, and the tab is kept |
| Dashboard.DashboardView.SetSearchQuery | src/pages/Dashboard.tsx:162 | only the search text changes |
| Dashboard.DashboardView.SetAuthorOpen | src/pages/Dashboard.tsx:213 | only the author picker's open flag changes |
| Dashboard.DashboardView.SetTagOpen | src/pages/Dashboard.tsx:261 | only the tag picker's open flag changes |
| Categories.PlatformLabelsCoverPlatforms | src/pages/Categories.tsx:92-101 | every platform has a label and only platforms do; labels are distinct |
| Categories.InitialView | src/pages/Categories.tsx:137-139 | defaults: empty search, `Design`, `linkedin`, both among the offered choices |
| Categories.FilteredLinks | src/pages/Categories.tsx:143-149 | a link is included (`InView`) exactly when search, platform and category all match; the result is a subsequence of the links |
| Categories.CategoriesRefineDashboard | src/pages/Categories.tsx:143-149 | the category page filters the Dashboard's unselected view of the same platform and search down to one category, in order |
| Categories.DisplayedTags | src/pages/Categories.tsx:126 | a card shows the first `min(2, n)` tags, in order |
| NotesDetailModal.ElapsedSeconds | src/components/NotesDetailModal.tsx:23 | the floor of the millisecond difference over 1000, negative differences included |
| NotesDetailModal.Bucket | src/components/NotesDetailModal.tsx:25-29 | exactly one label: under 60 s `Just now`; minutes 1..59; hours 1..23; days 1..6; from 604800 on the absolute date |
| NotesDetailModal.BucketMonotone | src/components/NotesDetailModal.tsx:25-28 | a larger elapsed time never gets an earlier bucket or a smaller number |
| NotesDetailModal.Render | src/components/NotesDetailModal.tsx:25-30 | `Just now`, `<n>m ago`, `<n>h ago`, `<n>d ago`, or the absolute text |
| NotesDetailModal.RenderInjective | src/components/NotesDetailModal.tsx:25-28 | different relative labels render to different texts |
| NotesDetailModal.LeadingDigit | src/components/NotesDetailModal.tsx:26-28 | the numeric labels start with a digit, `Just now` does not |
| NotesDetailModal.FormatDate | src/components/NotesDetailModal.tsx:20-31 | an unparsable date gives the absolute text; otherwise the bucket of the elapsed seconds, rendered |
| ProtectedRoute.Decide | src/components/ProtectedRoute.tsx:22-38 | loading wins; otherwise a missing token (`HasToken` false for absent or empty) or an unauthenticated user redirects to `/auth` with `replace` and the location; the children render exactly when not loading, with a token and authenticated |
| ProtectedRoute.ShouldFetchUser | src/components/ProtectedRoute.tsx:17-19 | a fetch starts exactly with a token, no authenticated user and nothing loading |
| ProtectedRoute.FetchingRenderRedirects | src/components/ProtectedRoute.tsx:15-36 | the render that triggers the fetch is the redirect |
| ProtectedRoute.NoFetchUnlessRedirecting | src/components/ProtectedRoute.tsx:15-38 | neither the loading screen nor the children trigger a fetch |
| ProtectedRoute.LocationOnlyCarried | src/components/ProtectedRoute.tsx:33-36 | which of the three views is shown does not depend on the location |

## Left out

- The asynchronous thunk machinery: `createAsyncThunk`, `getState`, the `await` points, and dispatch ordering. Each thunk's result is a function of the replies, and each reducer case is a method.
- HTTP itself (`apiClient`, its interceptors and `src/lib/api.ts`) and `src/services/api/auth.ts`; the auth slice is not part of this model, and the guard takes its flags as inputs.
- Percent-encoding: `URLSearchParams.toString` and `encodeURIComponent`. Queries are lists of pairs, and the dispatched URL is the raw field value.
- Unicode `toLowerCase`: only ASCII letters are lowered.
- `sort` on characters outside the Basic Multilingual Plane: JavaScript compares UTF-16 code units, the model compares code points.
- `new Date`, `Date.now`, `toLocaleDateString`, and the clipboard and timer of the copy button in the notes modal. Both times and the absolute text are inputs.
- Rendering, styling, routing and the static mock data of the two pages; the pages' filters take the link list as a parameter.
- `sortOrder` is stored but never used to sort anything, so no sorting by date is modelled.
- LinksSlice.AddLinkOutcome: the message of the `TypeError` raised for a reply without a post depends on the JavaScript engine; the model uses V8's text.
- LinksSlice.TransformPostToLink: `id.toString()` is modelled for integer ids only.
- AddLinkModal.AddLinkForm.TagInputKeyDown: the `preventDefault` on Enter is not modelled; it stops Enter in the tag field from submitting the form, which is why the model never lets that key reach `SubmitStart`.
- AddLinkModal.AddLinkForm.SubmitStart: `preventDefault` and the disabled submit button are not modelled; the handler itself does not check `isProcessing`.
