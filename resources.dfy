/** The resources page: a table of guides, links and videos filtered by a
    case-insensitive search term and a category tab, with a Clear button for
    the term and a per-card action button whose label follows the type. */
module Resources {
  import opened Seqs
  import opened Strings

  datatype ResourceType = Document | Link | Video | Infographic

  datatype ResourceCategory = Prevention | Treatment | Information | Support

  datatype ResourceItem = ResourceItem(
    id: string,
    title: string,
    description: string,
    kind: ResourceType,
    category: ResourceCategory,
    link: string,
    date: string)

  /** The value the tabs use for each category. */
  function CategoryName(c: ResourceCategory): string
  {
    match c
    case Prevention => "prevention"
    case Treatment => "treatment"
    case Information => "information"
    case Support => "support"
  }

  /** The table the page lists. */
  const ResourcesData: seq<ResourceItem> := [
    ResourceItem("1", "COVID-19 Prevention Guidelines",
      "Official guidelines on how to prevent COVID-19 spread in your community.",
      Document, Prevention, "#", "2023-09-15"),
    ResourceItem("2", "Pandemic Response Plan",
      "Learn about the national response plan and what to expect during different pandemic phases.",
      Document, Information, "#", "2023-08-22"),
    ResourceItem("3", "World Health Organization Updates",
      "Direct link to WHO pandemic updates and global health information.",
      Link, Information, "https://www.who.int", "2023-10-01"),
    ResourceItem("4", "Mental Health During Pandemics",
      "Resources to help maintain mental wellbeing during extended isolation periods.",
      Document, Support, "#", "2023-07-30"),
    ResourceItem("5", "Vaccine Information Sheet",
      "Comprehensive information about available vaccines, efficacy, and side effects.",
      Document, Treatment, "#", "2023-09-28"),
    ResourceItem("6", "How Viruses Spread - Educational Video",
      "Educational content explaining how viruses transmit between individuals.",
      Video, Information, "#", "2023-06-14"),
    ResourceItem("7", "Telehealth Services Directory",
      "Find remote healthcare providers available in your region.",
      Link, Support, "#", "2023-08-05"),
    ResourceItem("8", "Home Care Instructions",
      "Guidelines for caring for someone with COVID-19 at home safely.",
      Document, Treatment, "#", "2023-09-10")
  ]

  // ---------------------------------------------------------------------
  // Filtering

  /** The text test: the lower-cased title or description contains the
      lower-cased term. There is no special case for an empty term. */
  predicate MatchesTerm(r: ResourceItem, term: string)
  {
    ContainsIgnoringCase(r.title, term) || ContainsIgnoringCase(r.description, term)
  }

  /** The tab test: `"all"` keeps everything, any other tab its category. */
  predicate MatchesCategory(r: ResourceItem, tab: string)
  {
    tab == "all" || CategoryName(r.category) == tab
  }

  /** `filteredResources` over a table `data`. */
  function FilterResources(data: seq<ResourceItem>, term: string, tab: string): (r: seq<ResourceItem>)
    ensures IsSubsequence(r, data)
    ensures forall x :: x in r <==> x in data && MatchesTerm(x, term) && MatchesCategory(x, tab)
  {
    Filter(data, x => MatchesTerm(x, term) && MatchesCategory(x, tab))
  }

  /** An empty term matches every entry, although the page does not test
      for it: every text contains the empty string. */
  lemma EmptyTermMatchesAll(r: ResourceItem)
    ensures MatchesTerm(r, "")
  {
    assert ToLower("") == "";
    ContainsEmpty(ToLower(r.title));
  }

  /** The entries of a tab, whatever the term. */
  function InCategory(data: seq<ResourceItem>, tab: string): seq<ResourceItem>
  {
    Filter(data, x => MatchesCategory(x, tab))
  }

  /** With an empty term the page lists exactly the entries of the tab. */
  lemma EmptyTermKeepsCategory(data: seq<ResourceItem>, tab: string)
    ensures FilterResources(data, "", tab) == InCategory(data, tab)
  {
    forall x | x in data ensures MatchesTerm(x, "") {
      EmptyTermMatchesAll(x);
    }
    FilterExtensional(data, x => MatchesTerm(x, "") && MatchesCategory(x, tab), x => MatchesCategory(x, tab));
  }

  /** A category tab lists only entries of that category. */
  lemma TabSelectsCategory(data: seq<ResourceItem>, term: string, c: ResourceCategory)
    ensures forall x :: x in FilterResources(data, term, CategoryName(c)) ==> x.category == c
  {
    forall x | x in FilterResources(data, term, CategoryName(c)) ensures x.category == c {
      assert CategoryName(x.category) == CategoryName(c);
      assert CategoryName(x.category)[0] == CategoryName(c)[0];
    }
  }

  /** The page opens with an empty term on the "all" tab, which lists the
      whole table. */
  lemma ShowsAllInitially(data: seq<ResourceItem>)
    ensures FilterResources(data, "", "all") == data
  {
    EmptyTermKeepsCategory(data, "all");
    FilterKeepsAll(data, x => MatchesCategory(x, "all"));
  }

  // ---------------------------------------------------------------------
  // The card's action button

  /** The label of a card's button: documents are downloaded, links
      visited, and everything else watched. */
  function ButtonLabel(t: ResourceType): (caption: string)
    ensures caption == "Download" <==> t == Document
    ensures caption == "Visit" <==> t == Link
    ensures caption == "Watch" <==> t == Video || t == Infographic
  {
    assert "Download"[0] != "Visit"[0] && "Download"[0] != "Watch"[0] && "Visit"[0] != "Watch"[0];
    match t
    case Document => "Download"
    case Link => "Visit"
    case Video => "Watch"
    case Infographic => "Watch"
  }

  // ---------------------------------------------------------------------
  // The page state

  /** The page's search term and selected tab, and the list they select. */
  class ResourcesPage {
    /** The table the page lists: `ResourcesData`. */
    const items: seq<ResourceItem>
    var searchTerm: string
    var currentCategory: string

    constructor ()
      ensures items == ResourcesData
      ensures searchTerm == "" && currentCategory == "all"
    {
      items := ResourcesData;
      searchTerm, currentCategory := "", "all";
    }

    /** The cards on screen. */
    function Visible(): seq<ResourceItem>
      reads this
    {
      FilterResources(items, searchTerm, currentCategory)
    }

    /** Typing in the search box. */
    method SetSearchTerm(term: string)
      modifies this
      ensures searchTerm == term && currentCategory == old(currentCategory)
    {
      searchTerm := term;
    }

    /** Choosing a tab. */
    method SelectCategory(tab: string)
      modifies this
      ensures currentCategory == tab && searchTerm == old(searchTerm)
    {
      currentCategory := tab;
    }

    /** The Clear button empties the term and keeps the tab, so the page
        lists every entry of the selected category. */
    method Clear()
      modifies this
      ensures searchTerm == "" && currentCategory == old(currentCategory)
      ensures Visible() == InCategory(items, currentCategory)
    {
      searchTerm := "";
      EmptyTermKeepsCategory(items, currentCategory);
    }
  }
}
