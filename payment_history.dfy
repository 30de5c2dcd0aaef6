/**
 * The payment history table (src/components/payments/PaymentHistory.tsx):
 * the search and status filter over the payments, and the total of the
 * completed payments shown above the table.
 */
module PaymentHistory {
  import opened Text
  import opened Sequences

  /** A listed payment; amounts are whole rupiah. */
  datatype Payment = Payment(
    userName: string,
    userEmail: string,
    subscriptionName: string,
    amount: int,
    status: string)

  /** The three controls above the table; `dateRange` is kept in state but never read. */
  datatype Filters = Filters(searchTerm: string, statusFilter: string, dateRange: string)

  /** The lowercased term occurs in the lowercased user name, user email or plan name. */
  predicate MatchesSearch(p: Payment, term: string) {
    || Contains(Lower(p.userName), Lower(term))
    || Contains(Lower(p.userEmail), Lower(term))
    || Contains(Lower(p.subscriptionName), Lower(term))
  }

  /** The status filter is `all` or names the payment's status. */
  predicate MatchesStatus(p: Payment, statusFilter: string) {
    statusFilter == "all" || p.status == statusFilter
  }

  /**
   * `filteredPayments`: the payments passing both the search and the status
   * filter, in their original order.
   */
  function FilteredPayments(payments: seq<Payment>, f: Filters): (r: seq<Payment>)
    ensures SubsequenceOf(r, payments)
    ensures forall p :: p in r <==> p in payments && MatchesSearch(p, f.searchTerm) && MatchesStatus(p, f.statusFilter)
    ensures forall p :: multiset(r)[p] == if MatchesSearch(p, f.searchTerm) && MatchesStatus(p, f.statusFilter) then multiset(payments)[p] else 0
  {
    Filter(payments, p => MatchesSearch(p, f.searchTerm) && MatchesStatus(p, f.statusFilter))
  }

  /** The date-range control has no effect on the list. */
  lemma DateRangeHasNoEffect(payments: seq<Payment>, f: Filters, range: string)
    ensures FilteredPayments(payments, f.(dateRange := range)) == FilteredPayments(payments, f)
  {
  }

  /** An empty search with status `all` keeps every payment, in order. */
  lemma EmptySearchAllStatusKeepsAll(payments: seq<Payment>, range: string)
    ensures FilteredPayments(payments, Filters("", "all", range)) == payments
  {
    assert Lower("") == "";
    forall i | 0 <= i < |payments| ensures MatchesSearch(payments[i], "") {
      ContainsEmpty(Lower(payments[i].userName));
    }
  }

  // ---------------------------------------------------------------------
  // The completed total

  predicate IsCompleted(p: Payment) {
    p.status == "completed"
  }

  /** `payments.reduce((total, p) => p.status === 'completed' ? total + p.amount : total, total)`. */
  function ReduceCompleted(payments: seq<Payment>, total: int): int
    decreases |payments|
  {
    if payments == [] then total
    else ReduceCompleted(payments[1..], if IsCompleted(payments[0]) then total + payments[0].amount else total)
  }

  /** `getTotalAmount`: the reduction started from 0. */
  function TotalAmount(payments: seq<Payment>): int {
    ReduceCompleted(payments, 0)
  }

  /** The plain sum of the amounts of a list of payments. */
  function SumAmounts(payments: seq<Payment>): int
    decreases |payments|
  {
    if payments == [] then 0 else payments[0].amount + SumAmounts(payments[1..])
  }

  /** The reduction adds exactly the amounts of the completed payments to its starting value. */
  lemma {:induction false} ReduceCompletedSpec(payments: seq<Payment>, total: int)
    ensures ReduceCompleted(payments, total) == total + SumAmounts(Filter(payments, IsCompleted))
    decreases |payments|
  {
    if payments != [] {
      var next := if IsCompleted(payments[0]) then total + payments[0].amount else total;
      ReduceCompletedSpec(payments[1..], next);
      var rest := Filter(payments[1..], IsCompleted);
      if IsCompleted(payments[0]) {
        var r := [payments[0]] + rest;
        assert Filter(payments, IsCompleted) == r;
        assert r[1..] == rest;
      }
    }
  }

  /** The total is the sum of the completed payments' amounts, and nothing else. */
  lemma TotalIsSumOfCompleted(payments: seq<Payment>)
    ensures TotalAmount(payments) == SumAmounts(Filter(payments, IsCompleted))
  {
    ReduceCompletedSpec(payments, 0);
  }

  /** Reducing a concatenation is reducing the second list from where the first one ended. */
  lemma {:induction false} ReduceCompletedAppend(a: seq<Payment>, b: seq<Payment>, total: int)
    ensures ReduceCompleted(a + b, total) == ReduceCompleted(b, ReduceCompleted(a, total))
    decreases |a|
  {
    if a == [] {
      assert a + b == b;
    } else {
      assert (a + b)[0] == a[0] && (a + b)[1..] == a[1..] + b;
      ReduceCompletedAppend(a[1..], b, if IsCompleted(a[0]) then total + a[0].amount else total);
    }
  }

  /** The total of two lists one after the other is the sum of their totals. */
  lemma TotalAppend(a: seq<Payment>, b: seq<Payment>)
    ensures TotalAmount(a + b) == TotalAmount(a) + TotalAmount(b)
  {
    ReduceCompletedAppend(a, b, 0);
    ReduceCompletedSpec(b, TotalAmount(a));
    ReduceCompletedSpec(b, 0);
  }

  /**
   * The total ignores the search and the status filter: a completed payment
   * the search hides still counts.
   */
  lemma TotalIgnoresFilters()
    ensures var p := Payment("Ann", "ann@example.com", "Pro", 50000, "completed");
      && FilteredPayments([p], Filters("zzz", "all", "all")) == []
      && TotalAmount([p]) == 50000
  {
    var p := Payment("Ann", "ann@example.com", "Pro", 50000, "completed");
    NotFound(Lower(p.userName), "zzz");
    NotFound(Lower(p.userEmail), "zzz");
    NotFound(Lower(p.subscriptionName), "zzz");
    assert Lower("zzz") == "zzz";
    assert !MatchesSearch(p, "zzz");
  }

  /** A haystack without the letter `z` does not contain "zzz". */
  lemma NotFound(hay: string, needle: string)
    requires needle == "zzz" && forall i :: 0 <= i < |hay| ==> hay[i] != 'z'
    ensures !Contains(hay, needle)
  {
    forall k | 0 <= k <= |hay| - |needle| ensures !OccursAt(hay, needle, k) {
      assert hay[k..k + 3][0] == hay[k];
    }
  }
}
