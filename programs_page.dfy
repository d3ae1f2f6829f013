/** The program listing page (src/pages/Programs.tsx): the category / delivery
    mode / text-search filter, and the page state behind it, whose category is
    mirrored into the `category` URL parameter. */
module ProgramsPage {

  import opened Wrappers
  import opened Text
  import Seqs
  import UrlParams
  import opened Catalog

  /** The wildcard of both selectors. */
  const All := "All"

  /** The lower-cased query occurs in the lower-cased name or category. */
  predicate MatchesSearch(p: Program, query: string) {
    Includes(Lower(p.name), Lower(query)) || Includes(Lower(p.category), Lower(query))
  }

  /** The three conditions of the filter callback. */
  predicate Keep(p: Program, category: string, mode: string, query: string) {
    && (category == All || p.category == category)
    && (mode == All || p.mode == mode)
    && MatchesSearch(p, query)
  }

  /** `filteredPrograms`: nothing while the list is absent, otherwise the
      programs passing all three conditions, in list order. */
  function FilterPrograms(programs: Option<seq<Program>>, category: string, mode: string, query: string): (r: seq<Program>)
    ensures programs.None? ==> r == []
    ensures programs.Some? ==> Seqs.IsSubsequence(r, programs.value)
    ensures forall p :: p in r <==> programs.Some? && p in programs.value && Keep(p, category, mode, query)
  {
    match programs
    case None => []
    case Some(ps) =>
      Seqs.FilterIsSubsequence(ps, (p: Program) => Keep(p, category, mode, query));
      Seqs.Filter(ps, (p: Program) => Keep(p, category, mode, query))
  }

  /** Every copy of a program that passes the filter is kept, and no copy of
      one that fails it. */
  lemma FilterProgramsCounts(programs: seq<Program>, category: string, mode: string, query: string)
    ensures forall p :: multiset(FilterPrograms(Some(programs), category, mode, query))[p]
                     == if Keep(p, category, mode, query) then multiset(programs)[p] else 0
  {
    Seqs.FilterCounts(programs, (p: Program) => Keep(p, category, mode, query));
  }

  /** No selection and no query: the whole list, unchanged. */
  lemma NoFilterKeepsAll(programs: seq<Program>)
    ensures FilterPrograms(Some(programs), All, All, "") == programs
  {
    forall p | p in programs ensures Keep(p, All, All, "") {
      IncludesEmpty(Lower(p.name));
    }
    Seqs.FilterAllKept(programs, (p: Program) => Keep(p, All, All, ""));
  }

  /** Queries that lower-case alike select alike; in particular the letter
      case of the query never matters. */
  lemma QueryCaseInsensitive(programs: seq<Program>, category: string, mode: string, q1: string, q2: string)
    requires Lower(q1) == Lower(q2)
    ensures FilterPrograms(Some(programs), category, mode, q1) == FilterPrograms(Some(programs), category, mode, q2)
  {
    Seqs.FilterCongruent(programs, (p: Program) => Keep(p, category, mode, q1), (p: Program) => Keep(p, category, mode, q2));
  }

  lemma UpperCaseQuery(programs: seq<Program>, category: string, mode: string, query: string)
    ensures FilterPrograms(Some(programs), category, mode, Upper(query)) == FilterPrograms(Some(programs), category, mode, query)
  {
    LowerUpper(query);
    QueryCaseInsensitive(programs, category, mode, Upper(query), query);
  }

  /** The conditions are conjunctive: filtering by category and query, then
      filtering that result by mode alone, is the combined filter. */
  lemma FilterInStages(programs: seq<Program>, category: string, mode: string, query: string)
    ensures FilterPrograms(Some(FilterPrograms(Some(programs), category, All, query)), All, mode, "")
         == FilterPrograms(Some(programs), category, mode, query)
  {
    var p1 := (p: Program) => Keep(p, category, All, query);
    var p2 := (p: Program) => Keep(p, All, mode, "");
    var p12 := (p: Program) => Keep(p, category, mode, query);
    forall p | p in programs ensures p12(p) == (p1(p) && p2(p)) {
      IncludesEmpty(Lower(p.name));
    }
    Seqs.FilterFilter(programs, p1, p2, p12);
  }

  /** The number on the "Filters" badge. */
  function ActiveFilterCount(category: string, mode: string): (n: nat)
    ensures n <= 2
    ensures n == 0 <==> category == All && mode == All
    ensures n == 2 <==> category != All && mode != All
  {
    (if category != All then 1 else 0) + (if mode != All then 1 else 0)
  }

  /** The page's filter state. `searchParams` is the router's URL parameter
      object, which `handleCategoryChange` edits in place. */
  class Page {
    var selectedCategory: string
    var selectedMode: string
    var searchQuery: string
    const searchParams: UrlParams.SearchParams

    /** Initial state: the `category` URL parameter, or 'All' without one. */
    constructor (searchParams: UrlParams.SearchParams)
      ensures this.searchParams == searchParams
      ensures selectedCategory == OrOpt(searchParams.Get("category"), All)
      ensures selectedMode == All && searchQuery == ""
    {
      this.searchParams := searchParams;
      selectedCategory := OrOpt(searchParams.Get("category"), All);
      selectedMode := All;
      searchQuery := "";
    }

    function Visible(programs: Option<seq<Program>>): (r: seq<Program>)
      reads this
    {
      FilterPrograms(programs, selectedCategory, selectedMode, searchQuery)
    }

    function BadgeCount(): (r: nat)
      reads this
    {
      ActiveFilterCount(selectedCategory, selectedMode)
    }

    /** `handleCategoryChange`: selecting 'All' removes the URL parameter,
        any other category sets it. */
    method HandleCategoryChange(category: string)
      modifies this, searchParams
      ensures selectedCategory == category
      ensures selectedMode == old(selectedMode) && searchQuery == old(searchQuery)
      ensures category == All ==> searchParams.entries == UrlParams.Deleted(old(searchParams.entries), "category")
      ensures category != All ==> searchParams.entries == UrlParams.WithValue(old(searchParams.entries), "category", category)
      ensures searchParams.Get("category") == if category == All then None else Some(category)
      ensures forall other :: other != "category" ==> searchParams.Get(other) == old(searchParams.Get(other))
    {
      selectedCategory := category;
      if category == All {
        searchParams.Delete("category");
      } else {
        searchParams.Set("category", category);
      }
    }

    method SetMode(mode: string)
      modifies this
      ensures selectedMode == mode
      ensures selectedCategory == old(selectedCategory) && searchQuery == old(searchQuery)
    {
      selectedMode := mode;
    }

    method SetQuery(query: string)
      modifies this
      ensures searchQuery == query
      ensures selectedCategory == old(selectedCategory) && selectedMode == old(selectedMode)
    {
      searchQuery := query;
    }

    /** "Clear All" / "Reset Filters": back to 'All', 'All', ''. The URL
        parameter is left as it was. */
    method ClearAll()
      modifies this
      ensures selectedCategory == All && selectedMode == All && searchQuery == ""
      ensures BadgeCount() == 0
      ensures forall ps :: Visible(Some(ps)) == ps
    {
      selectedCategory, selectedMode, searchQuery := All, All, "";
      forall ps ensures Visible(Some(ps)) == ps {
        NoFilterKeepsAll(ps);
      }
    }
  }
}
