/**
 * The store table (src/components/stores/StoreList.tsx): the search and
 * status filter.
 */
module StoreList {
  import opened Text
  import opened Sequences

  /** A listed store; the owner's email is shown but not searched. */
  datatype Store = Store(
    name: string,
    description: string,
    ownerName: string,
    ownerEmail: string,
    status: string)

  /** The normalised term occurs in the lowercased name, description or owner name. */
  predicate MatchesSearch(s: Store, term: string) {
    || Contains(Lower(s.name), term)
    || Contains(Lower(s.description), term)
    || Contains(Lower(s.ownerName), term)
  }

  /** The status filter is `all` or names the store's status. */
  predicate MatchesStatus(s: Store, statusFilter: string) {
    statusFilter == "all" || s.status == statusFilter
  }

  /**
   * `filteredStores`: with the term lowercased and then trimmed, the stores
   * passing both the search and the status filter, in their original order.
   */
  function FilteredStores(stores: seq<Store>, searchTerm: string, statusFilter: string): (r: seq<Store>)
    ensures SubsequenceOf(r, stores)
    ensures forall s :: s in r <==> s in stores && MatchesSearch(s, SearchTerm(searchTerm)) && MatchesStatus(s, statusFilter)
    ensures forall s :: multiset(r)[s] == (if MatchesSearch(s, SearchTerm(searchTerm)) && MatchesStatus(s, statusFilter) then multiset(stores)[s] else 0)
  {
    Filter(stores, s => MatchesSearch(s, SearchTerm(searchTerm)) && MatchesStatus(s, statusFilter))
  }

  /** A blank term with status `all` keeps every store, in order. */
  lemma BlankSearchAllStatusKeepsAll(stores: seq<Store>, searchTerm: string)
    requires IsBlank(searchTerm)
    ensures FilteredStores(stores, searchTerm, "all") == stores
  {
    SearchTermEmptyIffBlank(searchTerm);
    forall i | 0 <= i < |stores| ensures MatchesSearch(stores[i], SearchTerm(searchTerm)) {
      ContainsEmpty(Lower(stores[i].name));
    }
  }

  /** The owner's email plays no part in the search: changing it never changes whether a store is listed. */
  lemma OwnerEmailNotSearched(stores: seq<Store>, searchTerm: string, statusFilter: string, i: int, email: string)
    requires 0 <= i < |stores|
    ensures var changed := stores[i := stores[i].(ownerEmail := email)];
      (stores[i] in FilteredStores(stores, searchTerm, statusFilter)
       <==> changed[i] in FilteredStores(changed, searchTerm, statusFilter))
  {
  }

  /** A store found only through its owner's email is not listed. */
  lemma EmailOnlyMatchIsDropped()
    ensures var s := Store("Shop", "Food", "Budi", "xyz@mail.com", "active");
      s !in FilteredStores([s], "xyz", "all")
  {
    assert !Contains(Lower("Shop"), "xyz") by { NoX("Shop"); }
    assert !Contains(Lower("Food"), "xyz") by { NoX("Food"); }
    assert !Contains(Lower("Budi"), "xyz") by { NoX("Budi"); }
    XyzIsNormal();
  }

  lemma XyzIsNormal()
    ensures SearchTerm("xyz") == "xyz"
  {
    LowerOfLowercase("xyz");
    TrimOfTrimmed("xyz");
  }

  /** The lower-cased form of a string without `x` or `X` does not contain "xyz". */
  lemma NoX(str: string)
    requires 'x' !in str && 'X' !in str
    ensures !Contains(Lower(str), "xyz")
  {
    var hay := Lower(str);
    forall k | 0 <= k <= |hay| - 3 ensures !OccursAt(hay, "xyz", k) {
      assert hay[k..k + 3][0] == hay[k] == LowerChar(str[k]);
      assert str[k] in str;
    }
  }
}
