/**
 * The user table (src/components/users/UserList.tsx): the search and status
 * filter, the role label and the stores column.
 */
module UserList {
  import opened Text
  import opened Sequences

  /** `user.stores`: either a list of stores or a plain count. */
  datatype StoresValue = StoreArray(items: seq<string>) | StoreCount(count: int)

  /** A listed user. */
  datatype ListedUser = ListedUser(
    name: string,
    email: string,
    role: string,
    status: string,
    stores: StoresValue)

  /** The normalised term occurs in the lowercased name or email. */
  predicate MatchesSearch(u: ListedUser, term: string) {
    Contains(Lower(u.name), term) || Contains(Lower(u.email), term)
  }

  /** The status filter is `all` or names the user's status. */
  predicate MatchesStatus(u: ListedUser, statusFilter: string) {
    statusFilter == "all" || u.status == statusFilter
  }

  /**
   * `filteredUsers`: with the term lowercased and then trimmed, the users
   * passing both the search and the status filter, in their original order.
   */
  function FilteredUsers(users: seq<ListedUser>, searchTerm: string, statusFilter: string): (r: seq<ListedUser>)
    ensures SubsequenceOf(r, users)
    ensures forall u :: u in r <==> u in users && MatchesSearch(u, SearchTerm(searchTerm)) && MatchesStatus(u, statusFilter)
    ensures forall u :: multiset(r)[u] == (if MatchesSearch(u, SearchTerm(searchTerm)) && MatchesStatus(u, statusFilter) then multiset(users)[u] else 0)
  {
    Filter(users, u => MatchesSearch(u, SearchTerm(searchTerm)) && MatchesStatus(u, statusFilter))
  }

  /** A blank (empty or whitespace-only) term with status `all` keeps every user, in order. */
  lemma BlankSearchAllStatusKeepsAll(users: seq<ListedUser>, searchTerm: string)
    requires IsBlank(searchTerm)
    ensures FilteredUsers(users, searchTerm, "all") == users
  {
    SearchTermEmptyIffBlank(searchTerm);
    forall i | 0 <= i < |users| ensures MatchesSearch(users[i], SearchTerm(searchTerm)) {
      ContainsEmpty(Lower(users[i].name));
    }
  }

  /** The term is lowercased before matching, and surrounding spaces are dropped. */
  lemma SearchIsCaseInsensitiveAndTrimmed()
    ensures SearchTerm(" ANN ") == "ann"
    ensures MatchesSearch(ListedUser("Ann", "a@x.io", "user", "active", StoreCount(0)), SearchTerm(" ANN "))
  {
    PaddedUpperTermNormalises();
    assert Contains(Lower("Ann"), "ann") by {
      LowerNameFound();
    }
  }

  lemma PaddedUpperTermNormalises()
    ensures SearchTerm(" ANN ") == "ann"
  {
    var l := Lower(" ANN ");
    assert l == [' '] + "ann" + [' '] by {
      assert l[0] == LowerChar(' ') && l[1] == LowerChar('A') && l[2] == LowerChar('N');
      assert l[3] == LowerChar('N') && l[4] == LowerChar(' ');
    }
    TrimOfPadded("ann");
  }

  lemma LowerNameFound()
    ensures Contains(Lower("Ann"), "ann")
  {
    assert Lower("Ann") == "ann" by {
      assert Lower("Ann")[0] == LowerChar('A');
    }
    assert OccursAt("ann", "ann", 0);
  }

  /** The role column: `admin` reads "Administrator", every other role "User". */
  function RoleLabel(role: string): (r: string)
    ensures r == "Administrator" <==> role == "admin"
    ensures r == "User" <==> role != "admin"
  {
    if role == "admin" then "Administrator" else "User"
  }

  /** The stores column: the number of stores when `stores` is a list, else the value itself. */
  function StoresCell(v: StoresValue): (n: int)
    ensures v.StoreArray? ==> n == |v.items| && n >= 0
    ensures v.StoreCount? ==> n == v.count
  {
    match v
    case StoreArray(items) => |items|
    case StoreCount(count) => count
  }
}
