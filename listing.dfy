// The listing pages app/models/page.tsx, app/frameworks/page.tsx and
// app/resources/page.tsx: a category tab and a search box filter a fixed
// list, the result is shown nine cards per page, and each card's long
// description can be expanded. The three pages share the same state and
// the same search; they differ only in how a tab selects a category.

module Listing {
  import opened Wrappers
  import opened Text
  import opened Seqs

  /** The fields of a model, framework or special resource that the pages filter on. */
  datatype Item = Item(id: string, title: string, description: string, category: string, tags: seq<string>)

  const ItemsPerPage: nat := 9
  const AllTab: string := "All"

  // ---------------------------------------------------------------------
  // Search

  /** `s.toLowerCase().includes(query.toLowerCase())` */
  predicate IncludesIgnoringCase(s: string, query: string)
  {
    Contains(Lower(s), Lower(query))
  }

  /** The search predicate shared by the three pages: an empty query, or the title, the description or a tag. */
  predicate MatchesSearch(item: Item, query: string)
  {
    || query == ""
    || IncludesIgnoringCase(item.title, query)
    || IncludesIgnoringCase(item.description, query)
    || exists k :: 0 <= k < |item.tags| && IncludesIgnoringCase(item.tags[k], query)
  }

  /** Search ignores the case of the query. */
  lemma SearchIgnoresQueryCase(item: Item, query: string)
    ensures query != "" ==> (MatchesSearch(item, query) <==> MatchesSearch(item, Lower(query)))
  {
    LowerIdempotent(query);
  }

  // ---------------------------------------------------------------------
  // Category filters

  /** The models and frameworks pages: the `All` tab or an equal category. */
  predicate MatchesCategory(item: Item, activeCategory: string)
  {
    activeCategory == AllTab || item.category == activeCategory
  }

  /** `filteredModels` and `filteredFrameworks`. */
  function FilterByCategory(items: seq<Item>, activeCategory: string, query: string): (r: seq<Item>)
    ensures forall x :: x in r <==> x in items && MatchesCategory(x, activeCategory) && MatchesSearch(x, query)
  {
    var p := (x: Item) => MatchesCategory(x, activeCategory) && MatchesSearch(x, query);
    FilterMembershipAll(items, p);
    Filter(items, p)
  }

  lemma FilterMembershipAll<T>(s: seq<T>, p: T -> bool)
    ensures forall x :: x in Filter(s, p) <==> x in s && p(x)
  {
    forall x {
      FilterMembership(s, p, x);
    }
  }

  /** The `All` tab with an empty query lists every item, in order. */
  lemma AllTabListsEverything(items: seq<Item>)
    ensures FilterByCategory(items, AllTab, "") == items
  {
    FilterAll(items, (x: Item) => MatchesCategory(x, AllTab) && MatchesSearch(x, ""));
  }

  /** `categoryMapping` of the resources page, from tab names to data categories. */
  const CategoryMapping: map<string, string> := map[
    "All" := "all",
    "Beginner Guide" := "beginner",
    "Compute Resources" := "compute",
    "Research Tracking" := "research"]

  /** The resources page: the tab's mapped category is `all` or equal to the item's; an unmapped tab is `undefined`. */
  predicate MatchesMappedCategory(item: Item, activeCategory: string)
  {
    activeCategory in CategoryMapping &&
    (CategoryMapping[activeCategory] == "all" || item.category == CategoryMapping[activeCategory])
  }

  /** `filteredResources`. */
  function FilterResources(items: seq<Item>, activeCategory: string, query: string): (r: seq<Item>)
    ensures forall x :: x in r <==> x in items && MatchesMappedCategory(x, activeCategory) && MatchesSearch(x, query)
  {
    var p := (x: Item) => MatchesMappedCategory(x, activeCategory) && MatchesSearch(x, query);
    FilterMembershipAll(items, p);
    Filter(items, p)
  }

  /** The `All` tab matches every resource, a tab outside the mapping none, and any other tab exactly its category. */
  lemma ResourceTabs(item: Item, activeCategory: string)
    ensures activeCategory == AllTab ==> MatchesMappedCategory(item, activeCategory)
    ensures activeCategory !in CategoryMapping ==> !MatchesMappedCategory(item, activeCategory)
    ensures activeCategory in CategoryMapping && activeCategory != AllTab ==>
      (MatchesMappedCategory(item, activeCategory) <==> item.category == CategoryMapping[activeCategory])
  {
  }

  // ---------------------------------------------------------------------
  // Pagination

  function Min(a: nat, b: nat): nat
  {
    if a <= b then a else b
  }

  /** `filtered.slice(0, currentPage * ITEMS_PER_PAGE)` */
  function Visible<T>(filtered: seq<T>, currentPage: nat): (r: seq<T>)
    ensures |r| == Min(|filtered|, currentPage * ItemsPerPage)
    ensures r == filtered[..|r|]
  {
    filtered[..Min(|filtered|, currentPage * ItemsPerPage)]
  }

  /** `visible.length < filtered.length` */
  function HasMoreItems<T>(filtered: seq<T>, currentPage: nat): (b: bool)
    ensures b <==> currentPage * ItemsPerPage < |filtered|
  {
    |Visible(filtered, currentPage)| < |filtered|
  }

  /** Every page shown holds items: the page is 1, or the pages before it do not show everything. */
  predicate PageNeeded(filteredCount: nat, currentPage: nat)
  {
    currentPage >= 1 && (currentPage == 1 || (currentPage - 1) * ItemsPerPage < filteredCount)
  }

  /** The button and the observer call `loadMore` only while items remain, so no empty page is ever added. */
  lemma LoadMoreWhileItemsRemain<T>(filtered: seq<T>, currentPage: nat)
    requires PageNeeded(|filtered|, currentPage) && HasMoreItems(filtered, currentPage)
    ensures PageNeeded(|filtered|, currentPage + 1)
    ensures |Visible(filtered, currentPage)| < |Visible(filtered, currentPage + 1)|
  {
  }

  // ---------------------------------------------------------------------
  // Expanded descriptions

  /** `expandedDescriptions[id]`, where a missing entry reads as `undefined`, which is false. */
  function Expanded(m: map<string, bool>, id: string): bool
  {
    id in m && m[id]
  }

  /** `{...prev, [id]: !prev[id]}` */
  function Toggled(m: map<string, bool>, id: string): (r: map<string, bool>)
    ensures r.Keys == m.Keys + {id}
    ensures Expanded(r, id) == !Expanded(m, id)
    ensures forall other :: other != id ==> Expanded(r, other) == Expanded(m, other)
  {
    m[id := !Expanded(m, id)]
  }

  /** Toggling twice restores every flag. */
  lemma ToggleTwice(m: map<string, bool>, id: string)
    ensures forall k :: Expanded(Toggled(Toggled(m, id), id), k) == Expanded(m, k)
  {
  }

  /** The toggle button is shown only for descriptions longer than 100 characters. */
  predicate ShowsDescriptionToggle(item: Item)
  {
    |item.description| > 100
  }

  // ---------------------------------------------------------------------
  // The page state

  /** `activeCategory`, `searchQuery`, `currentPage` and `expandedDescriptions` of one listing page. */
  class ListingPage {
    var activeCategory: string
    var searchQuery: string
    var currentPage: nat
    var expandedDescriptions: map<string, bool>

    constructor ()
      ensures activeCategory == AllTab && searchQuery == "" && currentPage == 1 && expandedDescriptions == map[]
    {
      activeCategory := AllTab;
      searchQuery := "";
      currentPage := 1;
      expandedDescriptions := map[];
    }

    /** A tab click; the reset effect puts the page back to 1 when the category changes. */
    method SetActiveCategory(category: string)
      modifies this
      ensures activeCategory == category && searchQuery == old(searchQuery)
      ensures currentPage == if category != old(activeCategory) then 1 else old(currentPage)
      ensures expandedDescriptions == old(expandedDescriptions)
    {
      if category != activeCategory {
        activeCategory := category;
        currentPage := 1;
      }
    }

    /** Typing in the search box; the reset effect puts the page back to 1 when the query changes. */
    method SetSearchQuery(query: string)
      modifies this
      ensures searchQuery == query && activeCategory == old(activeCategory)
      ensures currentPage == if query != old(searchQuery) then 1 else old(currentPage)
      ensures expandedDescriptions == old(expandedDescriptions)
    {
      if query != searchQuery {
        searchQuery := query;
        currentPage := 1;
      }
    }

    /** `loadMore`: one more page. */
    method LoadMore()
      modifies this
      ensures currentPage == old(currentPage) + 1
      ensures activeCategory == old(activeCategory) && searchQuery == old(searchQuery)
      ensures expandedDescriptions == old(expandedDescriptions)
    {
      currentPage := currentPage + 1;
    }

    /** `toggleDescription(id)`: flips that card's flag only. */
    method ToggleDescription(id: string)
      modifies this
      ensures expandedDescriptions == Toggled(old(expandedDescriptions), id)
      ensures activeCategory == old(activeCategory) && searchQuery == old(searchQuery) && currentPage == old(currentPage)
    {
      expandedDescriptions := expandedDescriptions[id := !(id in expandedDescriptions && expandedDescriptions[id])];
    }
  }

  // ---------------------------------------------------------------------
  // formatLink of the frameworks page

  /** `formatLink`: a link that starts with `http` is kept, any other gets `https://` in front. */
  function FormatLink(link: string): (r: string)
    ensures StartsWith(link, "http") ==> r == link
    ensures !StartsWith(link, "http") ==> r == "https://" + link
    ensures StartsWith(r, "http")
  {
    if StartsWith(link, "http") then link else "https://" + link
  }

  lemma FormatLinkIdempotent(link: string)
    ensures FormatLink(FormatLink(link)) == FormatLink(link)
  {
  }
}
