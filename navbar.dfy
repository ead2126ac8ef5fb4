/** The navigation bar's search box: the suggestion drop-down that follows the
    typing, and the submit that opens the full search page. */
module Navbar {
  import opened Seqs
  import opened Text
  import opened Catalog
  import ProductCategory

  /** Suggestions need more than two characters once trimmed. */
  const MinQueryLength := 2
  const MaxSuggestions := 5

  /** The drop-down's match: the untrimmed query, ignoring case, occurs in the
      name, the description or the category. Tags are not searched. */
  predicate QuickMatch(p: Product, query: string) {
    ContainsIgnoringCase(p.name, query) || ContainsIgnoringCase(p.description, query) ||
    ContainsIgnoringCase(p.category, query)
  }

  function QuickMatching(query: string): Product -> bool { (p: Product) => QuickMatch(p, query) }

  /** The suggestions for a query: nothing for a short query, otherwise the
      first five matching catalog products in catalog order. */
  function Suggestions(catalog: seq<Product>, query: string): (r: seq<Product>)
    ensures |Trim(query)| <= MinQueryLength ==> r == []
    ensures |r| <= MaxSuggestions
    ensures forall p :: p in r ==> p in catalog && QuickMatch(p, query)
    ensures |Trim(query)| > MinQueryLength ==> r <= Filter(catalog, QuickMatching(query))
    ensures |Trim(query)| > MinQueryLength && |Filter(catalog, QuickMatching(query))| >= MaxSuggestions ==>
      |r| == MaxSuggestions
    ensures |Trim(query)| > MinQueryLength && |Filter(catalog, QuickMatching(query))| <= MaxSuggestions ==>
      r == Filter(catalog, QuickMatching(query))
  {
    if |Trim(query)| > MinQueryLength then
      var r := Take(Filter(catalog, QuickMatching(query)), MaxSuggestions);
      assert forall p :: p in r ==> p in Filter(catalog, QuickMatching(query));
      r
    else []
  }

  /** Every suggestion is also a hit on the full search page, which matches
      the tags as well. */
  lemma SuggestionsAreSearchHits(catalog: seq<Product>, query: string)
    ensures forall p :: p in Suggestions(catalog, query) ==> ProductCategory.MatchesSearch(p, query)
  {
  }

  /** White space counts toward no threshold: a query of spaces around two
      letters suggests nothing. */
  lemma PaddedShortQuerySuggestsNothing(catalog: seq<Product>)
    ensures Suggestions(catalog, "  ab  ") == []
  {
    LeadingSpacesTrimmed();
    TrailingSpacesTrimmed();
  }

  lemma LeadingSpacesTrimmed()
    ensures TrimStart("  ab  ") == "ab  "
  {
    var q := "  ab  ";
    var q1 := " ab  ";
    var q2 := "ab  ";
    assert !IsSpace(q2[0]);
    assert TrimStart(q2) == q2;
    assert q1[1..] == q2 && IsSpace(q1[0]);
    assert TrimStart(q1) == q2;
    assert q[1..] == q1 && IsSpace(q[0]);
  }

  lemma TrailingSpacesTrimmed()
    ensures TrimEnd("ab  ") == "ab"
  {
    var t := "ab  ";
    assert t[..3] == "ab " && t[..3][..2] == "ab";
  }

  class SearchBox {
    const catalog: seq<Product>
    var query: string
    var results: seq<Product>
    var showResults: bool

    /** While the drop-down is open it lists the suggestions for the text in the box. */
    ghost predicate Valid()
      reads this
    {
      showResults ==> |Trim(query)| > MinQueryLength && results == Suggestions(catalog, query)
    }

    constructor (products: seq<Product>)
      ensures Valid() && catalog == products && query == "" && results == [] && !showResults
    {
      catalog := products;
      query := "";
      results := [];
      showResults := false;
    }

    /** The drop-down is drawn when it is open and has something to show. */
    predicate DropDownVisible()
      reads this
    {
      showResults && |results| > 0
    }

    /** `handleSearchInput`. */
    method Input(q: string)
      modifies this`query, this`results, this`showResults
      ensures query == q
      ensures results == Suggestions(catalog, q)
      ensures showResults <==> |Trim(q)| > MinQueryLength
      ensures Valid()
    {
      query := q;
      if |Trim(q)| > MinQueryLength {
        results := Suggestions(catalog, q);
        showResults := true;
      } else {
        results := [];
        showResults := false;
      }
    }

    /** `handleSearch`: a query that is not all white space opens the search
        page for the untrimmed text and clears the box; the stale suggestions
        stay, hidden. */
    method Submit() returns (target: Option<string>)
      requires Valid()
      modifies this`query, this`showResults
      ensures Valid()
      ensures Trim(old(query)) == [] <==> target.None?
      ensures target.None? ==> query == old(query) && showResults == old(showResults)
      ensures target.Some? ==> target.value == old(query) && query == "" && !showResults
    {
      if Trim(query) == [] {
        return None;
      }
      target := Some(query);
      query := "";
      showResults := false;
    }

    /** Clicking a suggestion goes to its page and clears the box. */
    method Pick(i: nat) returns (id: string)
      requires i < |results|
      modifies this`query, this`showResults
      ensures Valid() && id == results[i].id && query == "" && !showResults
    {
      id := results[i].id;
      query := "";
      showResults := false;
    }

    /** A mouse press outside the box closes the drop-down. */
    method ClickOutside()
      modifies this`showResults
      ensures !showResults
    {
      showResults := false;
    }
  }

  /** Whatever the drop-down shows matches the text in the box. */
  lemma VisibleSuggestionsMatch(box: SearchBox, k: nat)
    requires box.Valid() && box.DropDownVisible() && k < |box.results|
    ensures box.results[k] in box.catalog && QuickMatch(box.results[k], box.query)
  {
    assert box.results[k] in box.results;
  }
}
