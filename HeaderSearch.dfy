// main/Header.tsx: the header's name-only company search and its
// dropdown selection.

module HeaderSearch {
  import Strs
  import Seqs

  datatype Company = Company(code: string, name: string)

  /** The name test: the lower-cased name includes the lower-cased query;
      the code plays no part. */
  predicate NameMatches(c: Company, query: string)
  {
    Strs.Contains(Strs.Lower(c.name), Strs.Lower(query))
  }

  /** `companies.filter(…)`, uncapped. */
  function SearchResults(companies: seq<Company>, query: string): (r: seq<Company>)
    ensures |r| <= |companies|
    ensures forall i :: 0 <= i < |r| ==> NameMatches(r[i], query)
  {
    Seqs.Filter(companies, (c: Company) => NameMatches(c, query))
  }

  /** Exactly the companies whose name matches are results, in list
      order; a company whose name does not match is left out whatever its
      code. */
  lemma SearchResultsSpec(companies: seq<Company>, query: string, c: Company)
    ensures c in SearchResults(companies, query) <==> c in companies && NameMatches(c, query)
    ensures Seqs.IsSubsequence(SearchResults(companies, query), companies)
  {
    Seqs.FilterMembers(companies, (c: Company) => NameMatches(c, query), c);
    Seqs.FilterIsSubsequence(companies, (c: Company) => NameMatches(c, query));
  }

  class Header {
    var query: string
    var companies: seq<Company>
    var filtered: seq<Company>
    var showDropdown: bool

    constructor()
      ensures query == [] && companies == [] && filtered == [] && !showDropdown
    {
      query := [];
      companies := [];
      filtered := [];
      showDropdown := false;
    }

    /** The search effect: `if (query)` tests the raw query, so a query of
        spaces still searches. */
    method RunSearch()
      modifies this`filtered, this`showDropdown
      ensures query == [] ==> filtered == [] && !showDropdown
      ensures query != [] ==> filtered == SearchResults(companies, query) && showDropdown
    {
      if query != [] {
        filtered := SearchResults(companies, query);
        showDropdown := true;
      } else {
        filtered := [];
        showDropdown := false;
      }
    }

    /** Focusing the input shows the dropdown. */
    method OnFocus()
      modifies this`showDropdown
      ensures showDropdown
    {
      showDropdown := true;
    }

    /** Clicking a dropdown entry: `selected` is what `onSelect` receives. */
    method PickCompany(c: Company) returns (selected: (string, string))
      modifies this`query, this`showDropdown
      ensures selected == (c.code, c.name) && query == [] && !showDropdown
    {
      selected := (c.code, c.name);
      query := [];
      showDropdown := false;
    }
  }
}
