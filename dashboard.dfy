/** The Dashboard page of `src/pages/Dashboard.tsx`: the filtered list of
    link cards, the author and tag pick-lists of the active platform, and
    the page state that the tab bar, the two single-select pickers and the
    clear-filters button update. */
module Dashboard {
  import opened Seqs
  import Text
  import opened PageLinks

  /** `platformFilteredLinks`' predicate: search, platform, and the optional
      author and tag selections. */
  predicate Shown(link: PageLink, searchQuery: string, activeTab: string, selectedAuthor: string, selectedTag: string) {
    && MatchesSearch(link, searchQuery)
    && link.platform == activeTab
    && (selectedAuthor == "" || link.author == selectedAuthor)
    && (selectedTag == "" || selectedTag in link.tags)
  }

  /** `platformFilteredLinks`. */
  function PlatformFilteredLinks(links: seq<PageLink>, searchQuery: string, activeTab: string, selectedAuthor: string, selectedTag: string): (r: seq<PageLink>)
    ensures forall link :: link in r <==>
      && link in links
      && MatchesSearch(link, searchQuery)
      && link.platform == activeTab
      && (selectedAuthor == "" || link.author == selectedAuthor)
      && (selectedTag == "" || selectedTag in link.tags)
    ensures IsSubsequence(r, links)
  {
    Filter(links, link => Shown(link, searchQuery, activeTab, selectedAuthor, selectedTag))
  }

  /** `platformLinks`: the links of the active platform. */
  function PlatformLinks(links: seq<PageLink>, activeTab: string): (r: seq<PageLink>)
    ensures forall link :: link in r <==> link in links && link.platform == activeTab
    ensures IsSubsequence(r, links)
  {
    Filter(links, (link: PageLink) => link.platform == activeTab)
  }

  /** With no search text and nothing selected, the page shows every link of
      the active platform, in the original order. */
  lemma NoFiltersShowPlatform(links: seq<PageLink>, activeTab: string)
    ensures PlatformFilteredLinks(links, "", activeTab, "", "") == PlatformLinks(links, activeTab)
  {
    forall link | link in links
      ensures Shown(link, "", activeTab, "", "") == (link.platform == activeTab)
    {
      EmptySearchMatches(link);
    }
    FilterEquivalent(links, (link: PageLink) => Shown(link, "", activeTab, "", ""), (link: PageLink) => link.platform == activeTab);
  }

  /** Filtering the platform's links with the page predicate gives the
      same list: the pick-lists and the cards draw on the same links. */
  lemma ShownWithinPlatform(links: seq<PageLink>, searchQuery: string, activeTab: string, selectedAuthor: string, selectedTag: string)
    ensures PlatformFilteredLinks(links, searchQuery, activeTab, selectedAuthor, selectedTag)
        == Filter(PlatformLinks(links, activeTab), link => Shown(link, searchQuery, activeTab, selectedAuthor, selectedTag))
  {
    var platform := (link: PageLink) => link.platform == activeTab;
    var shown := (link: PageLink) => Shown(link, searchQuery, activeTab, selectedAuthor, selectedTag);
    assert PlatformLinks(links, activeTab) == Filter(links, platform);
    assert PlatformFilteredLinks(links, searchQuery, activeTab, selectedAuthor, selectedTag) == Filter(links, shown);
    FilterRefines(links, platform, shown);
  }

  /** `availableAuthors`: the distinct authors of the active platform, sorted. */
  function AvailableAuthors(links: seq<PageLink>, activeTab: string): (r: seq<string>)
    ensures Text.Sorted(r) && NoDup(r)
    ensures forall a :: a in r <==> exists link :: link in links && link.platform == activeTab && link.author == a
  {
    var authors := Map(PlatformLinks(links, activeTab), (link: PageLink) => link.author);
    var distinct := Dedupe(authors);
    var r := Text.Sort(distinct);
    NoDupSameMultiset(distinct, r);
    assert forall a :: a in r <==> a in authors by {
      forall a ensures a in r <==> a in authors {
        assert a in r <==> a in multiset(r);
        assert a in distinct <==> a in multiset(distinct);
        MapMembership(PlatformLinks(links, activeTab), (link: PageLink) => link.author, a);
      }
    }
    r
  }

  /** `availableTags`: the distinct tags of the active platform, sorted. */
  function AvailableTags(links: seq<PageLink>, activeTab: string): (r: seq<string>)
    ensures Text.Sorted(r) && NoDup(r)
    ensures forall t :: t in r <==> exists link :: link in links && link.platform == activeTab && t in link.tags
  {
    var tags := PlatformTags(links, activeTab);
    var distinct := Dedupe(tags);
    var r := Text.Sort(distinct);
    NoDupSameMultiset(distinct, r);
    assert forall t :: t in r <==> t in tags by {
      forall t ensures t in r <==> t in tags {
        assert t in r <==> t in multiset(r);
        assert t in distinct <==> t in multiset(distinct);
      }
    }
    PlatformTagsMembership(links, activeTab);
    r
  }

  /** `platformLinks.flatMap(link => link.tags)` */
  function PlatformTags(links: seq<PageLink>, activeTab: string): seq<string> {
    Flatten(Map(PlatformLinks(links, activeTab), (link: PageLink) => link.tags))
  }

  /** A tag is in the tag lists of the platform's links exactly when one of
      those links carries it. */
  lemma PlatformTagsMembership(links: seq<PageLink>, activeTab: string)
    ensures forall t :: t in PlatformTags(links, activeTab) <==>
      exists link :: link in links && link.platform == activeTab && t in link.tags
  {
    forall t | t in PlatformTags(links, activeTab)
      ensures exists link :: link in links && link.platform == activeTab && t in link.tags
    {
      PlatformTagFrom(links, activeTab, t);
    }
    forall t, link | link in links && link.platform == activeTab && t in link.tags
      ensures t in PlatformTags(links, activeTab)
    {
      PlatformTagTo(links, activeTab, link, t);
    }
  }

  lemma PlatformTagFrom(links: seq<PageLink>, activeTab: string, t: string)
    requires t in PlatformTags(links, activeTab)
    ensures exists link :: link in links && link.platform == activeTab && t in link.tags
  {
    var platform := PlatformLinks(links, activeTab);
    var lists := Map(platform, (link: PageLink) => link.tags);
    assert PlatformTags(links, activeTab) == Flatten(lists);
    var i :| 0 <= i < |lists| && t in lists[i];
    assert platform[i] in platform;
  }

  lemma PlatformTagTo(links: seq<PageLink>, activeTab: string, link: PageLink, t: string)
    requires link in links && link.platform == activeTab && t in link.tags
    ensures t in PlatformTags(links, activeTab)
  {
    var platform := PlatformLinks(links, activeTab);
    var lists := Map(platform, (link: PageLink) => link.tags);
    assert PlatformTags(links, activeTab) == Flatten(lists);
    var i :| 0 <= i < |platform| && platform[i] == link;
    assert t in lists[i];
  }

  /** The author pick-list is the only sorted, duplicate-free listing of the
      platform's authors. */
  lemma AvailableAuthorsUnique(links: seq<PageLink>, activeTab: string, listing: seq<string>)
    requires Text.Sorted(listing) && NoDup(listing)
    requires forall a :: a in listing <==> exists link :: link in links && link.platform == activeTab && link.author == a
    ensures listing == AvailableAuthors(links, activeTab)
  {
    Text.SortedSetUnique(listing, AvailableAuthors(links, activeTab));
  }

  /** The tag pick-list is the only sorted, duplicate-free listing of the
      platform's tags. */
  lemma AvailableTagsUnique(links: seq<PageLink>, activeTab: string, listing: seq<string>)
    requires Text.Sorted(listing) && NoDup(listing)
    requires forall t :: t in listing <==> exists link :: link in links && link.platform == activeTab && t in link.tags
    ensures listing == AvailableTags(links, activeTab)
  {
    Text.SortedSetUnique(listing, AvailableTags(links, activeTab));
  }

  /** A picker's `onSelect`: choosing the current value clears the
      selection, choosing another one replaces it. */
  function ToggleSingle(selected: string, value: string): (r: string)
    ensures selected == value ==> r == ""
    ensures selected != value ==> r == value
  {
    if selected == value then "" else value
  }

  /** Choosing the same value twice from no selection leaves no selection. */
  lemma ToggleSingleTwice(value: string)
    ensures ToggleSingle(ToggleSingle("", value), value) == ""
  {
  }

  /** The page state of the Dashboard. */
  class DashboardView {
    var searchQuery: string
    var activeTab: string
    var selectedAuthor: string
    var selectedTag: string
    var authorOpen: bool
    var tagOpen: bool

    constructor()
      ensures searchQuery == "" && activeTab == "linkedin" && selectedAuthor == "" && selectedTag == ""
      ensures !authorOpen && !tagOpen
    {
      searchQuery := "";
      activeTab := "linkedin";
      selectedAuthor := "";
      selectedTag := "";
      authorOpen := false;
      tagOpen := false;
    }

    /** The cards the page shows for the given links. */
    function Visible(links: seq<PageLink>): seq<PageLink>
      reads this
    {
      PlatformFilteredLinks(links, searchQuery, activeTab, selectedAuthor, selectedTag)
    }

    /** Whether the clear-filters button is shown. */
    predicate FiltersActive()
      reads this
    {
      selectedAuthor != "" || selectedTag != ""
    }

    /** `handleTabChange`: switches the platform and drops both selections. */
    method HandleTabChange(tab: string)
      modifies this
      ensures activeTab == tab && selectedAuthor == "" && selectedTag == ""
      ensures searchQuery == old(searchQuery) && authorOpen == old(authorOpen) && tagOpen == old(tagOpen)
      ensures !FiltersActive()
      ensures searchQuery == "" ==> forall links :: Visible(links) == PlatformLinks(links, tab)
    {
      activeTab := tab;
      selectedAuthor := "";
      selectedTag := "";
      forall links: seq<PageLink>
        ensures searchQuery == "" ==> Visible(links) == PlatformLinks(links, tab)
      {
        if searchQuery == "" {
          NoFiltersShowPlatform(links, tab);
        }
      }
    }

    /** An author item's `onSelect`: toggles the author and closes the picker. */
    method SelectAuthor(author: string)
      modifies this
      ensures selectedAuthor == ToggleSingle(old(selectedAuthor), author) && !authorOpen
      ensures searchQuery == old(searchQuery) && activeTab == old(activeTab) && selectedTag == old(selectedTag) && tagOpen == old(tagOpen)
    {
      selectedAuthor := if selectedAuthor == author then "" else author;
      authorOpen := false;
    }

    /** A tag item's `onSelect`: toggles the tag and closes the picker. */
    method SelectTag(tag: string)
      modifies this
      ensures selectedTag == ToggleSingle(old(selectedTag), tag) && !tagOpen
      ensures searchQuery == old(searchQuery) && activeTab == old(activeTab) && selectedAuthor == old(selectedAuthor) && authorOpen == old(authorOpen)
    {
      selectedTag := if selectedTag == tag then "" else tag;
      tagOpen := false;
    }

    /** The clear-filters button: drops both selections, keeps the tab. */
    method ClearFilters()
      modifies this
      ensures selectedAuthor == "" && selectedTag == ""
      ensures searchQuery == old(searchQuery) && activeTab == old(activeTab) && authorOpen == old(authorOpen) && tagOpen == old(tagOpen)
      ensures !FiltersActive()
    {
      selectedAuthor := "";
      selectedTag := "";
    }

    method SetSearchQuery(query: string)
      modifies this
      ensures searchQuery == query
      ensures activeTab == old(activeTab) && selectedAuthor == old(selectedAuthor) && selectedTag == old(selectedTag)
      ensures authorOpen == old(authorOpen) && tagOpen == old(tagOpen)
    {
      searchQuery := query;
    }

    /** A picker's `onOpenChange`. */
    method SetAuthorOpen(open: bool)
      modifies this
      ensures authorOpen == open
      ensures searchQuery == old(searchQuery) && activeTab == old(activeTab) && selectedAuthor == old(selectedAuthor)
      ensures selectedTag == old(selectedTag) && tagOpen == old(tagOpen)
    {
      authorOpen := open;
    }

    method SetTagOpen(open: bool)
      modifies this
      ensures tagOpen == open
      ensures searchQuery == old(searchQuery) && activeTab == old(activeTab) && selectedAuthor == old(selectedAuthor)
      ensures selectedTag == old(selectedTag) && authorOpen == old(authorOpen)
    {
      tagOpen := open;
    }
  }
}
