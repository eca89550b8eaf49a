/** The remote data gateway of `src/services/api/posts.ts`: request
    construction, response-envelope unwrapping and the normalisation of the
    distinct author, tag and category lists. The HTTP call itself is not
    modelled: each operation takes the server's reply envelope as an input. */
module Posts {
  import opened Wrappers
  import opened Seqs
  import Text

  /** A post as the backend returns it. The `Post` interface declares a `link`
      field, while the mapping in the links store reads `data`; both are kept. */
  datatype Post = Post(
    id: int,
    userId: int,
    link: string,
    data: string,
    platform: string,
    author: string,
    category: string,
    topic: string,
    tags: Option<seq<string>>,
    description: string,
    createdAt: string)

  /** `ApiResponse<T>`: the backend's `{success, data?, message?}` envelope. */
  datatype Envelope<T> = Envelope(success: bool, data: Option<T>, message: Option<string>)

  /** One `key=value` pair of a query string, before percent-encoding. */
  type QueryPair = (string, string)

  datatype Request =
    | Get(path: string, query: seq<QueryPair>)
    | PostUrl(path: string, url: string)

  /** `GetPostsParams`: every filter is optional. */
  datatype GetPostsParams = GetPostsParams(
    platform: Option<string>,
    tags: Option<seq<string>>,
    authors: Option<seq<string>>,
    categories: Option<seq<string>>)

  /** The public platform name `twitter` is `x` on the backend; every other
      name goes through unchanged. */
  function BackendPlatform(platform: string): (b: string)
    ensures platform == "twitter" ==> b == "x"
    ensures platform != "twitter" ==> b == platform
  {
    if platform == "twitter" then "x" else platform
  }

  /** `message || fallback`: the server's message unless it is absent or empty. */
  function FailureMessage(message: Option<string>, fallback: string): (m: string)
    ensures message.Some? && message.value != "" ==> m == message.value
    ensures message.None? || message.value == "" ==> m == fallback
    ensures fallback != "" ==> m != ""
  {
    if message.Some? && message.value != "" then message.value else fallback
  }

  // ---------------------------------------------------------------- getPosts

  /** The `platform` pair of `getPosts`: present only for a non-empty name. */
  function PlatformPairs(platform: Option<string>): seq<QueryPair> {
    if platform.Some? && platform.value != "" then [("platform", BackendPlatform(platform.value))] else []
  }

  /** One `key` pair per value, in list order. */
  function Pairs(key: string, values: seq<string>): (r: seq<QueryPair>)
    ensures |r| == |values|
    ensures forall i :: 0 <= i < |r| ==> r[i] == (key, values[i])
  {
    if values == [] then [] else Pairs(key, values[..|values| - 1]) + [(key, values[|values| - 1])]
  }

  /** The pairs for an optional list: nothing when it is absent. */
  function RepeatedPairs(key: string, values: Option<seq<string>>): seq<QueryPair> {
    Pairs(key, values.GetOr([]))
  }

  /** The query pairs `getPosts` sends, in the order it appends them. */
  function PostsQuery(params: GetPostsParams): seq<QueryPair> {
    PlatformPairs(params.platform)
      + RepeatedPairs("tags", params.tags)
      + RepeatedPairs("authors", params.authors)
      + RepeatedPairs("categories", params.categories)
  }

  /** `values.forEach(v => queryParams.append(key, v))` */
  method AppendAll(query: seq<QueryPair>, key: string, values: seq<string>) returns (q: seq<QueryPair>)
    ensures q == query + Pairs(key, values)
  {
    q := query;
    var i := 0;
    while i < |values|
      invariant 0 <= i <= |values|
      invariant q == query + Pairs(key, values[..i])
    {
      assert values[..i + 1][..i] == values[..i];
      q := q + [(key, values[i])];
      i := i + 1;
    }
    assert values[..i] == values;
  }

  /** `if (list && list.length > 0) list.forEach(v => queryParams.append(key, v))` */
  method AppendOptional(query: seq<QueryPair>, key: string, values: Option<seq<string>>) returns (q: seq<QueryPair>)
    ensures q == query + RepeatedPairs(key, values)
  {
    q := query;
    if values.Some? && |values.value| > 0 {
      q := AppendAll(query, key, values.value);
    }
  }

  /** The `URLSearchParams` that `getPosts` builds, pair by pair. */
  method BuildPostsQuery(params: GetPostsParams) returns (query: seq<QueryPair>)
    ensures query == PostsQuery(params)
  {
    query := [];
    if params.platform.Some? && params.platform.value != "" {
      var backendPlatform := if params.platform.value == "twitter" then "x" else params.platform.value;
      query := query + [("platform", backendPlatform)];
    }
    assert query == PlatformPairs(params.platform);
    query := AppendOptional(query, "tags", params.tags);
    query := AppendOptional(query, "authors", params.authors);
    query := AppendOptional(query, "categories", params.categories);
  }

  /** `URLSearchParams.getAll(key)`: the values stored under `key`, in order. */
  function GetAll(query: seq<QueryPair>, key: string): seq<string> {
    if query == [] then []
    else (if query[0].0 == key then [query[0].1] else []) + GetAll(query[1..], key)
  }

  lemma {:induction false} GetAllConcat(a: seq<QueryPair>, b: seq<QueryPair>, key: string)
    ensures GetAll(a + b, key) == GetAll(a, key) + GetAll(b, key)
  {
    if a == [] {
      assert a + b == b;
    } else {
      var ab := a + b;
      assert ab[0] == a[0] && ab[1..] == a[1..] + b;
      var head: seq<string> := if a[0].0 == key then [a[0].1] else [];
      GetAllConcat(a[1..], b, key);
      assert GetAll(ab, key) == head + (GetAll(a[1..], key) + GetAll(b, key));
      assert GetAll(a, key) == head + GetAll(a[1..], key);
    }
  }

  lemma {:induction false} GetAllPairs(k: string, values: seq<string>, key: string)
    ensures GetAll(Pairs(k, values), key) == if k == key then values else []
  {
    if values != [] {
      var init := values[..|values| - 1];
      GetAllPairs(k, init, key);
      GetAllConcat(Pairs(k, init), [(k, values[|values| - 1])], key);
      assert values == init + [values[|values| - 1]];
    }
  }

  /** What `getAll` reads back from each group of the query. */
  lemma PostsQueryGetAllKey(params: GetPostsParams, key: string)
    ensures GetAll(PostsQuery(params), key) ==
      GetAll(PlatformPairs(params.platform), key)
      + (if key == "tags" then params.tags.GetOr([]) else [])
      + (if key == "authors" then params.authors.GetOr([]) else [])
      + (if key == "categories" then params.categories.GetOr([]) else [])
  {
    var p := PlatformPairs(params.platform);
    var t := RepeatedPairs("tags", params.tags);
    var a := RepeatedPairs("authors", params.authors);
    var c := RepeatedPairs("categories", params.categories);
    assert PostsQuery(params) == p + t + a + c;
    GetAllConcat(p + t + a, c, key);
    GetAllConcat(p + t, a, key);
    GetAllConcat(p, t, key);
    GetAllPairs("tags", params.tags.GetOr([]), key);
    GetAllPairs("authors", params.authors.GetOr([]), key);
    GetAllPairs("categories", params.categories.GetOr([]), key);
  }

  lemma GetAllPlatformPairs(platform: Option<string>, key: string)
    ensures GetAll(PlatformPairs(platform), key) ==
      if key == "platform" && platform.Some? && platform.value != "" then [BackendPlatform(platform.value)] else []
  {
    var p := PlatformPairs(platform);
    if p != [] {
      assert p[1..] == [];
    }
  }

  /** Reading the query back with `getAll` recovers each filter list in its
      original order, and the platform under its backend name. */
  lemma PostsQueryGetAll(params: GetPostsParams)
    ensures GetAll(PostsQuery(params), "platform") ==
      if params.platform.Some? && params.platform.value != "" then [BackendPlatform(params.platform.value)] else []
    ensures GetAll(PostsQuery(params), "tags") == params.tags.GetOr([])
    ensures GetAll(PostsQuery(params), "authors") == params.authors.GetOr([])
    ensures GetAll(PostsQuery(params), "categories") == params.categories.GetOr([])
  {
    GetAllPlatform(params);
    GetAllList(params, "tags");
    GetAllList(params, "authors");
    GetAllList(params, "categories");
  }

  lemma GetAllPlatform(params: GetPostsParams)
    ensures GetAll(PostsQuery(params), "platform") ==
      if params.platform.Some? && params.platform.value != "" then [BackendPlatform(params.platform.value)] else []
  {
    PostsQueryGetAllKey(params, "platform");
    GetAllPlatformPairs(params.platform, "platform");
  }

  lemma GetAllList(params: GetPostsParams, key: string)
    requires key == "tags" || key == "authors" || key == "categories"
    ensures GetAll(PostsQuery(params), key) ==
      if key == "tags" then params.tags.GetOr([])
      else if key == "authors" then params.authors.GetOr([])
      else params.categories.GetOr([])
  {
    PostsQueryGetAllKey(params, key);
    GetAllPlatformPairs(params.platform, key);
  }

  /** The pairs come out grouped: the platform pair first, then every tag,
      then every author, then every category, each group in list order. */
  lemma PostsQueryLayout(params: GetPostsParams)
    ensures var q := PostsQuery(params);
      var np := |PlatformPairs(params.platform)|;
      var tags := params.tags.GetOr([]);
      var authors := params.authors.GetOr([]);
      var categories := params.categories.GetOr([]);
      && |q| == np + |tags| + |authors| + |categories|
      && (np == 1 <==> params.platform.Some? && params.platform.value != "")
      && (np == 1 ==> q[0] == ("platform", BackendPlatform(params.platform.value)))
      && (forall i :: 0 <= i < |tags| ==> q[np + i] == ("tags", tags[i]))
      && (forall i :: 0 <= i < |authors| ==> q[np + |tags| + i] == ("authors", authors[i]))
      && (forall i :: 0 <= i < |categories| ==> q[np + |tags| + |authors| + i] == ("categories", categories[i]))
  {
  }

  /** Unwraps the reply to `getPosts`. */
  function GetPosts(reply: Envelope<seq<Post>>): (r: Result<seq<Post>, string>)
    ensures !reply.success ==> r == Err(FailureMessage(reply.message, "Failed to fetch posts"))
    ensures reply.success && reply.data.Some? ==> r == Ok(reply.data.value)
    ensures reply.success && reply.data.None? ==> r == Ok([])
  {
    if !reply.success then Err(FailureMessage(reply.message, "Failed to fetch posts"))
    else Ok(reply.data.GetOr([]))
  }

  // -------------------------------------------------------------- createPost

  /** `POST /posts` with the URL as body. */
  function CreatePostRequest(url: string): Request {
    PostUrl("/posts", url)
  }

  /** Unwraps the reply to `createPost`. `data!` asserts presence without
      checking it, so a successful reply without data yields `Ok(None)`. */
  function CreatePost(reply: Envelope<Post>): (r: Result<Option<Post>, string>)
    ensures !reply.success ==> r.Err? && r.error != ""
    ensures !reply.success ==> r.error == FailureMessage(reply.message, "Failed to create post")
    ensures reply.success ==> r == Ok(reply.data)
  {
    if !reply.success then Err(FailureMessage(reply.message, "Failed to create post"))
    else Ok(reply.data)
  }

  // ------------------------------------------------ getTagsAndCategoriesCount

  datatype Counts = Counts(totalPosts: int, totalTags: int, totalCategories: int)

  /** Unwraps the reply to `getTagsAndCategoriesCount`; a successful reply
      without data is passed on as missing. */
  function GetCounts(reply: Envelope<Counts>): (r: Result<Option<Counts>, string>)
    ensures !reply.success ==> r.Err? && r.error != ""
    ensures !reply.success ==> r.error == FailureMessage(reply.message, "Failed to fetch stats")
    ensures reply.success ==> r == Ok(reply.data)
  {
    if !reply.success then Err(FailureMessage(reply.message, "Failed to fetch stats"))
    else Ok(reply.data)
  }

  // ------------------------------------------- getAuthors, getTags, getCategories

  datatype UserAuthor = UserAuthor(userId: int, platform: string, names: Option<seq<string>>, createdAt: string)
  datatype UserCategories = UserCategories(userId: int, platform: string, categories: Option<seq<string>>, updatedAt: string)
  datatype UserTags = UserTags(userId: int, platform: string, tags: Option<seq<string>>, createdAt: string, updatedAt: string)

  /** `GET <path>?platform=<name>`; unlike `getPosts`, the pair is sent even
      for an empty name. */
  function DistinctRequest(path: string, platform: string): Request {
    Get(path, [("platform", BackendPlatform(platform))])
  }

  function AuthorsRequest(platform: string): Request { DistinctRequest("/posts/authors", platform) }
  function CategoriesRequest(platform: string): Request { DistinctRequest("/posts/categories", platform) }
  function TagsRequest(platform: string): Request { DistinctRequest("/posts/tags", platform) }

  /** All three distinct-value requests send the platform under the same
      backend name as `getPosts`; they differ from it only for the empty name,
      which `getPosts` omits. */
  lemma DistinctRequestsAlias(platform: string)
    ensures GetAll(AuthorsRequest(platform).query, "platform") == [BackendPlatform(platform)]
    ensures CategoriesRequest(platform).query == AuthorsRequest(platform).query == TagsRequest(platform).query
    ensures platform != "" ==>
      GetAll(AuthorsRequest(platform).query, "platform") ==
      GetAll(PostsQuery(GetPostsParams(Some(platform), None, None, None)), "platform")
    ensures platform == "" ==> GetAll(PostsQuery(GetPostsParams(Some(platform), None, None, None)), "platform") == []
  {
    PostsQueryGetAll(GetPostsParams(Some(platform), None, None, None));
  }

  /** `lists.flatMap(l => l || [])` */
  function FlattenNames(lists: seq<Option<seq<string>>>): seq<string> {
    Flatten(Map(lists, (l: Option<seq<string>>) => l.GetOr([])))
  }

  /** `.filter(n => n !== '')`: only the exactly empty string is dropped. */
  function DropEmpty(names: seq<string>): seq<string> {
    Filter(names, (n: string) => n != "")
  }

  /** The flatten, drop-empty, trim, dedupe pipeline shared by `getAuthors`,
      `getTags` and `getCategories`. Every result is the trim of some
      non-empty input name and every such trim is in the result; there are no
      duplicates, and the values appear in order of their first occurrence. */
  function Normalize(lists: seq<Option<seq<string>>>): (r: seq<string>)
    ensures NoDup(r)
    ensures forall x :: x in r <==> exists name :: name in FlattenNames(lists) && name != "" && Text.Trim(name) == x
  {
    TrimmedNames(FlattenNames(lists));
    Dedupe(Trimmed(lists))
  }

  /** `Normalize` keeps each name at the place of its first trimmed occurrence. */
  lemma NormalizeOrder(lists: seq<Option<seq<string>>>)
    ensures forall x :: x in Normalize(lists) ==> x in Trimmed(lists)
    ensures forall i, j :: 0 <= i < j < |Normalize(lists)| ==>
      FirstIndex(Trimmed(lists), Normalize(lists)[i]) < FirstIndex(Trimmed(lists), Normalize(lists)[j])
  {
    var d := Dedupe(Trimmed(lists));
    assert Normalize(lists) == d;
  }

  /** The names after the drop-empty and trim stages, before deduplication. */
  function Trimmed(lists: seq<Option<seq<string>>>): seq<string> {
    Map(DropEmpty(FlattenNames(lists)), Text.Trim)
  }

  /** A value is among the trimmed non-empty names exactly when it is the trim
      of some non-empty name. */
  lemma TrimmedNames(names: seq<string>)
    ensures forall x :: x in Map(DropEmpty(names), Text.Trim) <==> exists name :: name in names && name != "" && Text.Trim(name) == x
  {
    forall x | x in Map(DropEmpty(names), Text.Trim) ensures exists name :: name in names && name != "" && Text.Trim(name) == x {
      TrimmedNameFrom(names, x);
    }
    forall name | name in names && name != "" ensures Text.Trim(name) in Map(DropEmpty(names), Text.Trim) {
      TrimmedNameTo(names, name);
    }
  }

  lemma TrimmedNameFrom(names: seq<string>, x: string)
    requires x in Map(DropEmpty(names), Text.Trim)
    ensures exists name :: name in names && name != "" && Text.Trim(name) == x
  {
    var kept := DropEmpty(names);
    var trimmed := Map(kept, Text.Trim);
    var i :| 0 <= i < |trimmed| && trimmed[i] == x;
    assert kept[i] in kept;
    assert Text.Trim(kept[i]) == x;
  }

  lemma TrimmedNameTo(names: seq<string>, name: string)
    requires name in names && name != ""
    ensures Text.Trim(name) in Map(DropEmpty(names), Text.Trim)
  {
    var kept := DropEmpty(names);
    assert name in kept;
    var i :| 0 <= i < |kept| && kept[i] == name;
    assert Map(kept, Text.Trim)[i] == Text.Trim(name);
  }

  /** Every value `Normalize` returns is already trimmed. */
  lemma NormalizeTrimmed(lists: seq<Option<seq<string>>>, x: string)
    requires x in Normalize(lists)
    ensures Text.Trim(x) == x
  {
    var name :| name in FlattenNames(lists) && name != "" && Text.Trim(name) == x;
    Text.TrimIdempotent(name);
  }

  /** Because empty strings are dropped before trimming, a name made only of
      white space survives as the empty string. */
  lemma WhitespaceNameYieldsEmpty(lists: seq<Option<seq<string>>>, name: string)
    requires name in FlattenNames(lists)
    requires name != "" && forall i :: 0 <= i < |name| ==> Text.IsSpace(name[i])
    ensures "" in Normalize(lists)
  {
    assert Text.Trim(name) == "";
  }

  /** An entry whose list is missing contributes nothing. */
  lemma MissingListIgnored(before: seq<Option<seq<string>>>, after: seq<Option<seq<string>>>)
    ensures Normalize(before + [None] + after) == Normalize(before + after)
  {
    var get := (l: Option<seq<string>>) => l.GetOr([]);
    MapConcat(before + [None], after, get);
    MapConcat(before, [None], get);
    MapConcat(before, after, get);
    var mb, ma := Map(before, get), Map(after, get);
    assert Map([None], get) == [[]];
    FlattenConcat(mb + [[]], ma);
    FlattenConcat(mb, [[]]);
    FlattenConcat(mb, ma);
    assert Flatten<string>([[]]) == [];
    assert FlattenNames(before + [None] + after) == FlattenNames(before + after);
  }

  /** Unwraps a distinct-values reply: the server's error, or the normalised
      lists picked out of each record. */
  function DistinctValues<T>(reply: Envelope<seq<T>>, pick: T -> Option<seq<string>>, fallback: string): (r: Result<seq<string>, string>)
    ensures !reply.success ==> r == Err(FailureMessage(reply.message, fallback))
    ensures reply.success ==> r == Ok(Normalize(Map(reply.data.GetOr([]), pick)))
  {
    if !reply.success then Err(FailureMessage(reply.message, fallback))
    else Ok(Normalize(Map(reply.data.GetOr([]), pick)))
  }

  /** `getAuthors`: the distinct, trimmed author names of the reply. */
  function GetAuthors(reply: Envelope<seq<UserAuthor>>): (r: Result<seq<string>, string>)
    ensures !reply.success ==> r.Err? && r.error == FailureMessage(reply.message, "Failed to fetch authors")
    ensures reply.success ==> r.Ok? && NoDup(r.value)
    ensures reply.success ==> forall x :: x in r.value <==>
      exists u, name :: u in reply.data.GetOr([]) && u.names.Some? && name in u.names.value && name != "" && Text.Trim(name) == x
  {
    var r := DistinctValues(reply, (u: UserAuthor) => u.names, "Failed to fetch authors");
    assert reply.success ==> forall x :: x in r.value <==>
      exists u, name :: u in reply.data.GetOr([]) && u.names.Some? && name in u.names.value && name != "" && Text.Trim(name) == x by {
      if reply.success {
        PickedNames(reply.data.GetOr([]), (u: UserAuthor) => u.names);
      }
    }
    r
  }

  /** `getCategories`: the distinct, trimmed category names of the reply. */
  function GetCategories(reply: Envelope<seq<UserCategories>>): (r: Result<seq<string>, string>)
    ensures !reply.success ==> r.Err? && r.error == FailureMessage(reply.message, "Failed to fetch categories")
    ensures reply.success ==> r.Ok? && NoDup(r.value)
    ensures reply.success ==> forall x :: x in r.value <==>
      exists u, name :: u in reply.data.GetOr([]) && u.categories.Some? && name in u.categories.value && name != "" && Text.Trim(name) == x
  {
    var r := DistinctValues(reply, (u: UserCategories) => u.categories, "Failed to fetch categories");
    assert reply.success ==> forall x :: x in r.value <==>
      exists u, name :: u in reply.data.GetOr([]) && u.categories.Some? && name in u.categories.value && name != "" && Text.Trim(name) == x by {
      if reply.success {
        PickedNames(reply.data.GetOr([]), (u: UserCategories) => u.categories);
      }
    }
    r
  }

  /** `getTags`: the distinct, trimmed tag names of the reply. */
  function GetTags(reply: Envelope<seq<UserTags>>): (r: Result<seq<string>, string>)
    ensures !reply.success ==> r.Err? && r.error == FailureMessage(reply.message, "Failed to fetch tags")
    ensures reply.success ==> r.Ok? && NoDup(r.value)
    ensures reply.success ==> forall x :: x in r.value <==>
      exists u, name :: u in reply.data.GetOr([]) && u.tags.Some? && name in u.tags.value && name != "" && Text.Trim(name) == x
  {
    var r := DistinctValues(reply, (u: UserTags) => u.tags, "Failed to fetch tags");
    assert reply.success ==> forall x :: x in r.value <==>
      exists u, name :: u in reply.data.GetOr([]) && u.tags.Some? && name in u.tags.value && name != "" && Text.Trim(name) == x by {
      if reply.success {
        PickedNames(reply.data.GetOr([]), (u: UserTags) => u.tags);
      }
    }
    r
  }

  /** A name is in the flattened lists exactly when some record's list holds it. */
  lemma PickedNames<T>(records: seq<T>, pick: T -> Option<seq<string>>)
    ensures forall name :: name in FlattenNames(Map(records, pick)) <==>
      exists u :: u in records && pick(u).Some? && name in pick(u).value
  {
    var lists := Map(records, pick);
    var get := (l: Option<seq<string>>) => l.GetOr([]);
    forall name ensures name in FlattenNames(lists) <==> exists u :: u in records && pick(u).Some? && name in pick(u).value {
      if name in FlattenNames(lists) {
        var i :| 0 <= i < |Map(lists, get)| && name in Map(lists, get)[i];
        assert records[i] in records;
      }
      if exists u :: u in records && pick(u).Some? && name in pick(u).value {
        var u :| u in records && pick(u).Some? && name in pick(u).value;
        var i :| 0 <= i < |records| && records[i] == u;
        assert name in Map(lists, get)[i];
      }
    }
  }
}
