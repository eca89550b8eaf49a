/** The `links` store of `src/store/slices/linksSlice.ts`: the mapping from
    backend posts to link items, the payloads the asynchronous actions
    produce, and the reducer that steps one state record through the
    synchronous actions and the pending / fulfilled / rejected lifecycle. */
module LinksSlice {
  import opened Wrappers
  import opened Seqs
  import Text
  import Posts

  /** The front-end view of a saved post. */
  datatype LinkItem = LinkItem(
    id: string,
    title: string,
    data: string,
    description: string,
    author: string,
    platform: string,
    tags: seq<string>,
    category: string,
    savedAt: string)

  // ------------------------------------------------------ transformPostToLink

  /** The backend's `x` is `twitter` on the front end; every other name,
      `notes` included, goes through unchanged. */
  function FrontendPlatform(platform: string): (f: string)
    ensures platform == "x" ==> f == "twitter"
    ensures platform != "x" ==> f == platform
  {
    if platform == "x" then "twitter" else platform
  }

  /** Going to the backend name and back gives the original name exactly
      when it is not `x`, which the front end shows as `twitter`. */
  lemma FrontendBackendRoundTrip(platform: string)
    ensures FrontendPlatform(Posts.BackendPlatform(platform)) == platform <==> platform != "x"
  {
  }

  /** Coming from the backend name and going back gives the original name
      exactly when it is not `twitter`, which the backend calls `x`. */
  lemma BackendFrontendRoundTrip(platform: string)
    ensures Posts.BackendPlatform(FrontendPlatform(platform)) == platform <==> platform != "twitter"
  {
  }

  /** `transformPostToLink`. */
  function TransformPostToLink(post: Posts.Post): (r: LinkItem)
    ensures Text.ParseInt(r.id) == Some(post.id)
    ensures post.topic != "" ==> r.title == post.topic
    ensures post.topic == "" ==> r.title == post.data
    ensures r.data == post.data && r.description == post.description
    ensures r.author == post.author && r.category == post.category
    ensures r.platform == FrontendPlatform(post.platform)
    ensures post.tags.None? ==> r.tags == []
    ensures post.tags.Some? ==> r.tags == post.tags.value
    ensures r.savedAt == post.createdAt
  {
    Text.ParseIntToString(post.id);
    LinkItem(
      Text.IntToString(post.id),
      if post.topic != "" then post.topic else post.data,
      post.data,
      post.description,
      post.author,
      FrontendPlatform(post.platform),
      post.tags.GetOr([]),
      post.category,
      post.createdAt)
  }

  /** Posts with different ids become link items with different ids. */
  lemma TransformKeepsIdsDistinct(a: Posts.Post, b: Posts.Post)
    requires a.id != b.id
    ensures TransformPostToLink(a).id != TransformPostToLink(b).id
  {
    assert Text.ParseInt(TransformPostToLink(a).id) != Text.ParseInt(TransformPostToLink(b).id);
  }

  /** `posts.map(transformPostToLink)`. */
  function TransformPosts(posts: seq<Posts.Post>): (r: seq<LinkItem>)
    ensures |r| == |posts|
    ensures forall i :: 0 <= i < |posts| ==> r[i] == TransformPostToLink(posts[i])
  {
    Map(posts, TransformPostToLink)
  }

  // ----------------------------------------------------------- thunk payloads

  /** A call to the gateway: `Err(m)` is a failed request whose error
      message is `m`, `Ok(envelope)` is the server's reply. */
  type Reply<T> = Result<Posts.Envelope<T>, string>

  /** `rejectWithValue(error.message || fallback)`. */
  function Rejected<T>(message: string, fallback: string): (r: Result<T, string>)
    ensures r.Err? && r.error == Posts.FailureMessage(Some(message), fallback)
  {
    Err(Posts.FailureMessage(Some(message), fallback))
  }

  /** The filters `fetchLinks` sends: the selected platform only. */
  function FetchLinksParams(selectedPlatform: string): Posts.GetPostsParams {
    Posts.GetPostsParams(Some(selectedPlatform), None, None, None)
  }

  /** A list filter is sent only when it is non-empty. */
  function NonEmpty(values: seq<string>): (r: Option<seq<string>>)
    ensures r.GetOr([]) == values
    ensures r.None? <==> values == []
  {
    if |values| > 0 then Some(values) else None
  }

  /** The filters `fetchLinksByPlatform` sends: the given platform and the
      currently selected authors and tags. */
  function FetchByPlatformParams(platform: string, selectedAuthors: seq<string>, selectedTags: seq<string>): Posts.GetPostsParams {
    Posts.GetPostsParams(Some(platform), NonEmpty(selectedTags), NonEmpty(selectedAuthors), None)
  }

  /** The query of `fetchLinksByPlatform` carries the selected authors and
      tags in selection order, the platform under its backend name, and no
      category. */
  lemma FetchByPlatformQuery(platform: string, selectedAuthors: seq<string>, selectedTags: seq<string>)
    ensures var q := Posts.PostsQuery(FetchByPlatformParams(platform, selectedAuthors, selectedTags));
      && Posts.GetAll(q, "authors") == selectedAuthors
      && Posts.GetAll(q, "tags") == selectedTags
      && Posts.GetAll(q, "categories") == []
      && Posts.GetAll(q, "platform") == (if platform == "" then [] else [Posts.BackendPlatform(platform)])
  {
    Posts.PostsQueryGetAll(FetchByPlatformParams(platform, selectedAuthors, selectedTags));
  }

  /** The query of `fetchLinks` carries only the platform. */
  lemma FetchLinksQuery(selectedPlatform: string)
    ensures var q := Posts.PostsQuery(FetchLinksParams(selectedPlatform));
      && Posts.GetAll(q, "authors") == []
      && Posts.GetAll(q, "tags") == []
      && Posts.GetAll(q, "categories") == []
      && Posts.GetAll(q, "platform") == (if selectedPlatform == "" then [] else [Posts.BackendPlatform(selectedPlatform)])
  {
    Posts.PostsQueryGetAll(FetchLinksParams(selectedPlatform));
  }

  /** The settled payload of `fetchLinks` and `fetchLinksByPlatform`. A
      server failure is already turned into a non-empty message by the
      gateway, so the thunk's own fallback shows only for a request error
      without a message. */
  function FetchLinksOutcome(reply: Reply<seq<Posts.Post>>): (r: Result<seq<LinkItem>, string>)
    ensures r.Ok? <==> reply.Ok? && reply.value.success
    ensures r.Ok? ==> r.value == TransformPosts(reply.value.data.GetOr([]))
    ensures reply.Ok? && !reply.value.success ==>
      r.error == Posts.FailureMessage(reply.value.message, "Failed to fetch posts")
    ensures reply.Err? ==> r.error == Posts.FailureMessage(Some(reply.error), "Failed to fetch links")
    ensures r.Err? ==> r.error != ""
  {
    if reply.Err? then Rejected(reply.error, "Failed to fetch links")
    else match Posts.GetPosts(reply.value)
      case Ok(posts) => Ok(TransformPosts(posts))
      case Err(message) => Rejected(message, "Failed to fetch links")
  }

  /** The `TypeError` that `transformPostToLink(undefined)` raises when a
      successful `createPost` reply carries no post. */
  const MissingPostError := "Cannot read properties of undefined (reading 'id')"

  /** The `POST /posts` request `addLink` makes: only the URL is sent; the
      notes, the URL flag and the tags it is given are dropped. */
  function AddLinkRequest(url: string, tags: Option<seq<string>>): (req: Posts.Request)
    ensures req == Posts.CreatePostRequest(url)
    ensures req.PostUrl? && req.url == url
  {
    Posts.CreatePostRequest(url)
  }

  /** The settled payload of `addLink`. */
  function AddLinkOutcome(reply: Reply<Posts.Post>): (r: Result<LinkItem, string>)
    ensures r.Ok? <==> reply.Ok? && reply.value.success && reply.value.data.Some?
    ensures r.Ok? ==> r.value == TransformPostToLink(reply.value.data.value)
    ensures reply.Ok? && !reply.value.success ==>
      r.error == Posts.FailureMessage(reply.value.message, "Failed to create post")
    ensures reply.Ok? && reply.value.success && reply.value.data.None? ==> r.error == MissingPostError
    ensures reply.Err? ==> r.error == Posts.FailureMessage(Some(reply.error), "Failed to add link")
    ensures r.Err? ==> r.error != ""
  {
    if reply.Err? then Rejected(reply.error, "Failed to add link")
    else match Posts.CreatePost(reply.value)
      case Ok(Some(post)) => Ok(TransformPostToLink(post))
      case Ok(None) => Rejected(MissingPostError, "Failed to add link")
      case Err(message) => Rejected(message, "Failed to add link")
  }

  /** The settled payload of `fetchAuthors`, `fetchTags` or `fetchCategories`:
      the gateway's normalised list, or the failure message. */
  function DistinctOutcome(call: Result<Result<seq<string>, string>, string>, fallback: string): (r: Result<seq<string>, string>)
    ensures call.Ok? && call.value.Ok? ==> r == call.value
    ensures call.Ok? && call.value.Err? ==> r == Err(Posts.FailureMessage(Some(call.value.error), fallback))
    ensures call.Err? ==> r == Err(Posts.FailureMessage(Some(call.error), fallback))
  {
    if call.Err? then Rejected(call.error, fallback)
    else if call.value.Err? then Rejected(call.value.error, fallback)
    else call.value
  }

  /** A failed request, or the gateway's unwrapping of the server's reply. */
  function Call<T, U>(reply: Reply<T>, unwrap: Posts.Envelope<T> -> Result<U, string>): Result<Result<U, string>, string> {
    if reply.Err? then Err(reply.error) else Ok(unwrap(reply.value))
  }

  function FetchAuthorsOutcome(reply: Reply<seq<Posts.UserAuthor>>): (r: Result<seq<string>, string>)
    ensures r.Ok? <==> reply.Ok? && reply.value.success
    ensures r.Ok? ==> r == Posts.GetAuthors(reply.value) && NoDup(r.value)
    ensures reply.Ok? && !reply.value.success ==>
      r.error == Posts.FailureMessage(reply.value.message, "Failed to fetch authors")
    ensures reply.Err? ==> r.error == Posts.FailureMessage(Some(reply.error), "Failed to fetch authors")
  {
    DistinctOutcome(Call(reply, Posts.GetAuthors), "Failed to fetch authors")
  }

  function FetchTagsOutcome(reply: Reply<seq<Posts.UserTags>>): (r: Result<seq<string>, string>)
    ensures r.Ok? <==> reply.Ok? && reply.value.success
    ensures r.Ok? ==> r == Posts.GetTags(reply.value) && NoDup(r.value)
    ensures reply.Ok? && !reply.value.success ==>
      r.error == Posts.FailureMessage(reply.value.message, "Failed to fetch tags")
    ensures reply.Err? ==> r.error == Posts.FailureMessage(Some(reply.error), "Failed to fetch tags")
  {
    DistinctOutcome(Call(reply, Posts.GetTags), "Failed to fetch tags")
  }

  function FetchCategoriesOutcome(reply: Reply<seq<Posts.UserCategories>>): (r: Result<seq<string>, string>)
    ensures r.Ok? <==> reply.Ok? && reply.value.success
    ensures r.Ok? ==> r == Posts.GetCategories(reply.value) && NoDup(r.value)
    ensures reply.Ok? && !reply.value.success ==>
      r.error == Posts.FailureMessage(reply.value.message, "Failed to fetch categories")
    ensures reply.Err? ==> r.error == Posts.FailureMessage(Some(reply.error), "Failed to fetch categories")
  {
    DistinctOutcome(Call(reply, Posts.GetCategories), "Failed to fetch categories")
  }

  /** The payload of `fetchCategoryPageData`. */
  datatype CategoryPageData = CategoryPageData(posts: seq<LinkItem>, categories: seq<string>)

  /** `fetchCategoryPageData` fetches the platform's posts without filters
      and then its categories; a failure of the first call skips the second. */
  function CategoryPageParams(platform: string): Posts.GetPostsParams {
    Posts.GetPostsParams(Some(platform), None, None, None)
  }

  /** The posts query of `fetchCategoryPageData` carries the platform alone:
      no tag, author or category filter. */
  lemma CategoryPageQuery(platform: string)
    ensures Posts.PostsQuery(CategoryPageParams(platform))
      == if platform == "" then [] else [("platform", Posts.BackendPlatform(platform))]
  {
  }

  /** The settled payload of `fetchCategoryPageData`: the first failure's
      message, or the unfiltered posts and the categories. */
  function CategoryPageOutcome(posts: Reply<seq<Posts.Post>>, categories: Reply<seq<Posts.UserCategories>>): (r: Result<CategoryPageData, string>)
    ensures r.Ok? <==> posts.Ok? && posts.value.success && categories.Ok? && categories.value.success
    ensures r.Ok? ==> r.value.posts == TransformPosts(posts.value.data.GetOr([]))
    ensures r.Ok? ==> r.value.categories == Posts.GetCategories(categories.value).value
    ensures posts.Err? ==> r.error == Posts.FailureMessage(Some(posts.error), "Failed to fetch category page data")
    ensures posts.Ok? && !posts.value.success ==>
      r.error == Posts.FailureMessage(posts.value.message, "Failed to fetch posts")
    ensures posts.Ok? && posts.value.success && categories.Err? ==>
      r.error == Posts.FailureMessage(Some(categories.error), "Failed to fetch category page data")
    ensures posts.Ok? && posts.value.success && categories.Ok? && !categories.value.success ==>
      r.error == Posts.FailureMessage(categories.value.message, "Failed to fetch categories")
  {
    var first := Call(posts, Posts.GetPosts);
    if first.Err? then Rejected(first.error, "Failed to fetch category page data")
    else if first.value.Err? then Rejected(first.value.error, "Failed to fetch category page data")
    else
      var second := Call(categories, Posts.GetCategories);
      if second.Err? then Rejected(second.error, "Failed to fetch category page data")
      else if second.value.Err? then Rejected(second.value.error, "Failed to fetch category page data")
      else Ok(CategoryPageData(TransformPosts(first.value.value), second.value.value))
  }

  /** When the posts call fails, the categories reply does not matter. */
  lemma CategoryPageStopsAtFirstFailure(posts: Reply<seq<Posts.Post>>, c1: Reply<seq<Posts.UserCategories>>, c2: Reply<seq<Posts.UserCategories>>)
    requires posts.Err? || !posts.value.success
    ensures CategoryPageOutcome(posts, c1) == CategoryPageOutcome(posts, c2)
  {
  }

  // ------------------------------------------------------------------ toggles

  /** The list after `toggleAuthor` / `toggleTag`: a present value is
      filtered out, an absent one is pushed at the end. */
  function Toggle(selected: seq<string>, value: string): seq<string> {
    if value in selected then Remove(selected, value) else selected + [value]
  }

  /** After a toggle the value is present exactly when it was absent, and
      every other value keeps its membership. */
  lemma ToggleMembership(selected: seq<string>, value: string)
    ensures value in Toggle(selected, value) <==> value !in selected
    ensures forall other :: other != value ==> (other in Toggle(selected, value) <==> other in selected)
  {
  }

  /** Toggling a present value off keeps the remaining values in their order
      and removes every copy of the value. */
  lemma ToggleOff(selected: seq<string>, value: string)
    requires value in selected
    ensures IsSubsequence(Toggle(selected, value), selected)
    ensures multiset(Toggle(selected, value)) == multiset(selected)[value := 0]
  {
    RemoveMultiset(selected, value);
  }

  /** Toggling an absent value on appends it after the current selection. */
  lemma ToggleOn(selected: seq<string>, value: string)
    requires value !in selected
    ensures |Toggle(selected, value)| == |selected| + 1
    ensures Toggle(selected, value)[..|selected|] == selected
    ensures Toggle(selected, value)[|selected|] == value
  {
  }

  /** Toggling an absent value twice restores the list exactly. */
  lemma ToggleTwiceRestores(selected: seq<string>, value: string)
    requires value !in selected
    ensures Toggle(Toggle(selected, value), value) == selected
  {
    RemoveAppended(selected, value);
  }

  /** A toggle keeps a selection free of duplicates. */
  lemma ToggleNoDup(selected: seq<string>, value: string)
    requires NoDup(selected)
    ensures NoDup(Toggle(selected, value))
  {
    if value in selected {
      RemoveNoDup(selected, value);
    }
  }

  // -------------------------------------------------------------------- state

  datatype SortOrder = Desc | Asc

  /** `LinksState`. */
  datatype LinksState = LinksState(
    items: seq<LinkItem>,
    availableAuthors: seq<string>,
    availableTags: seq<string>,
    availableCategories: seq<string>,
    isLoading: bool,
    error: Option<string>,
    selectedPlatform: string,
    selectedAuthors: seq<string>,
    selectedTags: seq<string>,
    selectedCategory: string,
    sortOrder: SortOrder,
    categoryPageItems: seq<LinkItem>,
    categoryPageCategories: seq<string>,
    categoryPageLoading: bool,
    categoryPageError: Option<string>)

  /** The `localStorage` key of the persisted platform. */
  const SelectedPlatformKey := "selectedPlatform"

  /** `localStorage.getItem('selectedPlatform') || 'linkedin'`. */
  function InitialPlatform(stored: Option<string>): (p: string)
    ensures stored.Some? && stored.value != "" ==> p == stored.value
    ensures stored.None? || stored.value == "" ==> p == "linkedin"
    ensures p != ""
  {
    if stored.Some? && stored.value != "" then stored.value else "linkedin"
  }

  /** `initialState`, given what `localStorage` holds for the platform. */
  function InitialState(stored: Option<string>): (s: LinksState)
    ensures s.selectedPlatform == InitialPlatform(stored)
    ensures s.sortOrder == Desc && s.selectedCategory == "Design"
    ensures s.items == [] && s.selectedAuthors == [] && s.selectedTags == []
    ensures s.availableAuthors == [] && s.availableTags == [] && s.availableCategories == []
    ensures s.categoryPageItems == [] && s.categoryPageCategories == []
    ensures !s.isLoading && s.error.None? && !s.categoryPageLoading && s.categoryPageError.None?
  {
    LinksState([], [], [], [], false, None, InitialPlatform(stored), [], [], "Design", Desc, [], [], false, None)
  }

  /** A platform persisted by `setSelectedPlatform` is the one a fresh store
      starts from, except the empty name, which falls back to `linkedin`. */
  lemma PersistedPlatformRestored(entries: map<string, string>, platform: string)
    ensures var stored := entries[SelectedPlatformKey := platform];
      InitialState(Some(stored[SelectedPlatformKey])).selectedPlatform == if platform == "" then "linkedin" else platform
  {
  }

  /** The browser's `localStorage`, as far as the store uses it. */
  class PreferenceStore {
    var entries: map<string, string>

    constructor(entries: map<string, string>)
      ensures this.entries == entries
    {
      this.entries := entries;
    }

    /** `getItem`: `null` for a missing key. */
    function GetItem(key: string): (v: Option<string>)
      reads this
      ensures v.Some? <==> key in entries
      ensures v.Some? ==> v.value == entries[key]
    {
      if key in entries then Some(entries[key]) else None
    }

    method SetItem(key: string, value: string)
      modifies this
      ensures entries == old(entries)[key := value]
    {
      entries := entries[key := value];
    }
  }

  /** The slice reducer, applied in place to the store's state. */
  class LinksStore {
    var items: seq<LinkItem>
    var availableAuthors: seq<string>
    var availableTags: seq<string>
    var availableCategories: seq<string>
    var isLoading: bool
    var error: Option<string>
    var selectedPlatform: string
    var selectedAuthors: seq<string>
    var selectedTags: seq<string>
    var selectedCategory: string
    var sortOrder: SortOrder
    var categoryPageItems: seq<LinkItem>
    var categoryPageCategories: seq<string>
    var categoryPageLoading: bool
    var categoryPageError: Option<string>
    const prefs: PreferenceStore

    function State(): LinksState
      reads this
    {
      LinksState(items, availableAuthors, availableTags, availableCategories, isLoading, error,
        selectedPlatform, selectedAuthors, selectedTags, selectedCategory, sortOrder,
        categoryPageItems, categoryPageCategories, categoryPageLoading, categoryPageError)
    }

    /** A store that starts from `initialState`, reading the persisted
        platform from `prefs`. */
    constructor(prefs: PreferenceStore)
      ensures this.prefs == prefs
      ensures State() == InitialState(prefs.GetItem(SelectedPlatformKey))
    {
      this.prefs := prefs;
      items := [];
      availableAuthors := [];
      availableTags := [];
      availableCategories := [];
      isLoading := false;
      error := None;
      selectedPlatform := if SelectedPlatformKey in prefs.entries && prefs.entries[SelectedPlatformKey] != ""
        then prefs.entries[SelectedPlatformKey] else "linkedin";
      selectedAuthors := [];
      selectedTags := [];
      selectedCategory := "Design";
      sortOrder := Desc;
      categoryPageItems := [];
      categoryPageCategories := [];
      categoryPageLoading := false;
      categoryPageError := None;
    }

    // ----------------------------------------------------------- reducers

    /** `setSelectedPlatform`: sets the platform and persists it. */
    method SetSelectedPlatform(platform: string)
      modifies this, prefs
      ensures State() == old(State()).(selectedPlatform := platform)
      ensures prefs.entries == old(prefs.entries)[SelectedPlatformKey := platform]
      ensures platform != "" ==> InitialPlatform(prefs.GetItem(SelectedPlatformKey)) == platform
    {
      selectedPlatform := platform;
      prefs.SetItem(SelectedPlatformKey, platform);
    }

    method SetSelectedAuthors(authors: seq<string>)
      modifies this
      ensures State() == old(State()).(selectedAuthors := authors)
    {
      selectedAuthors := authors;
    }

    method SetSelectedTags(tags: seq<string>)
      modifies this
      ensures State() == old(State()).(selectedTags := tags)
    {
      selectedTags := tags;
    }

    method SetSelectedCategory(category: string)
      modifies this
      ensures State() == old(State()).(selectedCategory := category)
    {
      selectedCategory := category;
    }

    method SetSortOrder(order: SortOrder)
      modifies this
      ensures State() == old(State()).(sortOrder := order)
    {
      sortOrder := order;
    }

    /** `toggleAuthor`: filters a selected author out, pushes an unselected one. */
    method ToggleAuthor(author: string)
      modifies this
      ensures State() == old(State()).(selectedAuthors := Toggle(old(selectedAuthors), author))
      ensures NoDup(old(selectedAuthors)) ==> NoDup(selectedAuthors)
    {
      if author in selectedAuthors {
        selectedAuthors := Remove(selectedAuthors, author);
      } else {
        selectedAuthors := selectedAuthors + [author];
      }
      if NoDup(old(selectedAuthors)) {
        ToggleNoDup(old(selectedAuthors), author);
      }
    }

    /** `toggleTag`: filters a selected tag out, pushes an unselected one. */
    method ToggleTag(tag: string)
      modifies this
      ensures State() == old(State()).(selectedTags := Toggle(old(selectedTags), tag))
      ensures NoDup(old(selectedTags)) ==> NoDup(selectedTags)
    {
      if tag in selectedTags {
        selectedTags := Remove(selectedTags, tag);
      } else {
        selectedTags := selectedTags + [tag];
      }
      if NoDup(old(selectedTags)) {
        ToggleNoDup(old(selectedTags), tag);
      }
    }

    /** `clearFilters`: empties both selections; nothing else changes. */
    method ClearFilters()
      modifies this
      ensures State() == old(State()).(selectedAuthors := [], selectedTags := [])
    {
      selectedAuthors := [];
      selectedTags := [];
    }

    method ClearError()
      modifies this
      ensures State() == old(State()).(error := None)
    {
      error := None;
    }

    // --------------------------------- fetchLinks and fetchLinksByPlatform

    method FetchLinksPending()
      modifies this
      ensures State() == old(State()).(isLoading := true, error := None)
    {
      isLoading := true;
      error := None;
    }

    /** The list replaces the items; the error is left as it is. */
    method FetchLinksFulfilled(links: seq<LinkItem>)
      modifies this
      ensures State() == old(State()).(isLoading := false, items := links)
    {
      isLoading := false;
      items := links;
    }

    /** The items are left as they are. */
    method FetchLinksRejected(message: string)
      modifies this
      ensures State() == old(State()).(isLoading := false, error := Some(message))
    {
      isLoading := false;
      error := Some(message);
    }

    // ------------------------------------------------------------- addLink

    /** The loading flag is not touched. */
    method AddLinkPending()
      modifies this
      ensures State() == old(State()).(error := None)
    {
      error := None;
    }

    /** `items.unshift(link)`. */
    method AddLinkFulfilled(link: LinkItem)
      modifies this
      ensures State() == old(State()).(isLoading := false, items := [link] + old(items))
      ensures |items| == |old(items)| + 1 && items[0] == link && items[1..] == old(items)
    {
      isLoading := false;
      items := [link] + items;
    }

    method AddLinkRejected(message: string)
      modifies this
      ensures State() == old(State()).(isLoading := false, error := Some(message))
    {
      isLoading := false;
      error := Some(message);
    }

    // ------------------------- fetchAuthors, fetchTags and fetchCategories

    /** Only the fulfilled case has a reducer: pending and rejected leave the
        state as it is. */
    method FetchAuthorsSettled(outcome: Result<seq<string>, string>)
      modifies this
      ensures outcome.Ok? ==> State() == old(State()).(availableAuthors := outcome.value)
      ensures outcome.Err? ==> State() == old(State())
    {
      if outcome.Ok? {
        availableAuthors := outcome.value;
      }
    }

    method FetchTagsSettled(outcome: Result<seq<string>, string>)
      modifies this
      ensures outcome.Ok? ==> State() == old(State()).(availableTags := outcome.value)
      ensures outcome.Err? ==> State() == old(State())
    {
      if outcome.Ok? {
        availableTags := outcome.value;
      }
    }

    method FetchCategoriesSettled(outcome: Result<seq<string>, string>)
      modifies this
      ensures outcome.Ok? ==> State() == old(State()).(availableCategories := outcome.value)
      ensures outcome.Err? ==> State() == old(State())
    {
      if outcome.Ok? {
        availableCategories := outcome.value;
      }
    }

    // --------------------------------------------- fetchCategoryPageData

    method CategoryPagePending()
      modifies this
      ensures State() == old(State()).(categoryPageLoading := true, categoryPageError := None)
    {
      categoryPageLoading := true;
      categoryPageError := None;
    }

    method CategoryPageFulfilled(page: CategoryPageData)
      modifies this
      ensures State() == old(State()).(categoryPageLoading := false,
        categoryPageItems := page.posts, categoryPageCategories := page.categories)
    {
      categoryPageLoading := false;
      categoryPageItems := page.posts;
      categoryPageCategories := page.categories;
    }

    method CategoryPageRejected(message: string)
      modifies this
      ensures State() == old(State()).(categoryPageLoading := false, categoryPageError := Some(message))
    {
      categoryPageLoading := false;
      categoryPageError := Some(message);
    }
  }
}
