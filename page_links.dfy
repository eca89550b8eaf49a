/** The link record and the search match shared by the Dashboard
    (`src/pages/Dashboard.tsx`) and Categories (`src/pages/Categories.tsx`)
    pages, which both declare the same `LinkItem` shape and the same
    case-insensitive search over title and description. */
module PageLinks {
  import Text

  datatype PageLink = PageLink(
    id: string,
    title: string,
    url: string,
    description: string,
    author: string,
    platform: string,
    tags: seq<string>,
    category: string,
    savedAt: string)

  /** The search text occurs, ignoring case, in the title or the description. */
  predicate MatchesSearch(link: PageLink, query: string) {
    || Text.Contains(Text.ToLower(link.title), Text.ToLower(query))
    || Text.Contains(Text.ToLower(link.description), Text.ToLower(query))
  }

  /** A link matches exactly when the lowered query sits at some position of
      the lowered title or the lowered description. */
  lemma MatchesSearchAt(link: PageLink, query: string)
    ensures MatchesSearch(link, query) <==>
      (exists k :: Text.OccursAt(Text.ToLower(link.title), Text.ToLower(query), k))
      || (exists k :: Text.OccursAt(Text.ToLower(link.description), Text.ToLower(query), k))
  {
    Text.ContainsAt(Text.ToLower(link.title), Text.ToLower(query));
    Text.ContainsAt(Text.ToLower(link.description), Text.ToLower(query));
  }

  /** The empty search matches every link. */
  lemma EmptySearchMatches(link: PageLink)
    ensures MatchesSearch(link, "")
  {
    Text.ContainsEmpty(Text.ToLower(link.title));
  }

  /** The match does not depend on the case of the query. */
  lemma SearchIgnoresCase(link: PageLink, query: string)
    ensures MatchesSearch(link, Text.ToLower(query)) == MatchesSearch(link, query)
  {
    Text.ToLowerIdempotent(query);
  }
}
