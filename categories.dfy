/** The Categories page of `src/pages/Categories.tsx`: the fixed category
    and platform lists with their labels, the page defaults, the filtered
    list of cards and the two-tag cap on each card. */
module Categories {
  import opened Seqs
  import opened PageLinks
  import Dashboard

  const CategoryNames: seq<string> := ["Design", "Engineering", "Development", "Technology", "Business"]

  const Platforms: seq<string> := ["linkedin", "twitter", "reddit", "instagram", "facebook"]

  const PlatformLabels: map<string, string> := map[
    "linkedin" := "LinkedIn",
    "twitter" := "X (Twitter)",
    "reddit" := "Reddit",
    "instagram" := "Instagram",
    "facebook" := "Facebook"]

  /** There is a label for every platform button and for nothing else, and
      no two platforms share a label. */
  lemma PlatformLabelsCoverPlatforms()
    ensures forall p :: p in Platforms <==> p in PlatformLabels
    ensures forall p, q :: p in PlatformLabels && q in PlatformLabels && p != q ==> PlatformLabels[p] != PlatformLabels[q]
  {
    assert PlatformLabels.Keys == {"linkedin", "twitter", "reddit", "instagram", "facebook"};
    forall p, q | p in PlatformLabels && q in PlatformLabels && p != q
      ensures PlatformLabels[p] != PlatformLabels[q]
    {
      assert PlatformLabels[p][0] != PlatformLabels[q][0] || |PlatformLabels[p]| != |PlatformLabels[q]|;
    }
  }

  /** The page state: only ever replaced field by field by the search box
      and the two button rows. */
  datatype CategoriesView = CategoriesView(searchQuery: string, selectedCategory: string, selectedPlatform: string)

  /** The state the page starts in. */
  function InitialView(): (v: CategoriesView)
    ensures v.searchQuery == "" && v.selectedCategory == "Design" && v.selectedPlatform == "linkedin"
    ensures v.selectedCategory in CategoryNames && v.selectedPlatform in Platforms
  {
    CategoriesView("", "Design", "linkedin")
  }

  /** `filteredLinks`' predicate. */
  predicate InView(link: PageLink, searchQuery: string, selectedPlatform: string, selectedCategory: string) {
    MatchesSearch(link, searchQuery) && link.platform == selectedPlatform && link.category == selectedCategory
  }

  /** `filteredLinks`. */
  function FilteredLinks(links: seq<PageLink>, view: CategoriesView): (r: seq<PageLink>)
    ensures forall link :: link in r <==>
      && link in links
      && MatchesSearch(link, view.searchQuery)
      && link.platform == view.selectedPlatform
      && link.category == view.selectedCategory
    ensures IsSubsequence(r, links)
  {
    Filter(links, (link: PageLink) => InView(link, view.searchQuery, view.selectedPlatform, view.selectedCategory))
  }

  /** The Categories page shows the Dashboard's cards for the same search
      and platform, without author or tag selection, that are in the
      selected category, in the same order. */
  lemma CategoriesRefineDashboard(links: seq<PageLink>, view: CategoriesView)
    ensures FilteredLinks(links, view) ==
      Filter(Dashboard.PlatformFilteredLinks(links, view.searchQuery, view.selectedPlatform, "", ""),
        (link: PageLink) => InView(link, view.searchQuery, view.selectedPlatform, view.selectedCategory))
  {
    var shown := (link: PageLink) => Dashboard.Shown(link, view.searchQuery, view.selectedPlatform, "", "");
    var inView := (link: PageLink) => InView(link, view.searchQuery, view.selectedPlatform, view.selectedCategory);
    assert Dashboard.PlatformFilteredLinks(links, view.searchQuery, view.selectedPlatform, "", "") == Filter(links, shown);
    FilterRefines(links, shown, inView);
  }

  /** `link.tags.slice(0, 2)`: the tags a card shows. */
  function DisplayedTags(tags: seq<string>): (r: seq<string>)
    ensures |r| == if |tags| < 2 then |tags| else 2
    ensures r == tags[..|r|]
  {
    if |tags| < 2 then tags else tags[..2]
  }
}
