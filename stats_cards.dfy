/** The dashboard aggregates: approved total, pending amount and count,
    approved count and the average ticket size. */
module StatsCards {
  import opened Common
  import opened Types
  import opened Constants

  /** `totalSpent`: the approved amounts; at most the grand total when no amount
      is negative, and zero when nothing is approved. */
  function TotalSpent(xs: seq<Expense>): (r: real)
    ensures NonNegative(xs) ==> 0.0 <= r <= Total(xs)
    ensures (forall i :: 0 <= i < |xs| ==> !IsApproved(xs[i])) ==> r == 0.0
  {
    FilterTotalWithin(IsApproved, xs);
    FilterEmptyIff(IsApproved, xs);
    Total(Filter(IsApproved, xs))
  }

  /** `pendingAmount`: the amounts awaiting review, bounded in the same way. */
  function PendingAmount(xs: seq<Expense>): (r: real)
    ensures NonNegative(xs) ==> 0.0 <= r <= Total(xs)
    ensures (forall i :: 0 <= i < |xs| ==> !IsPending(xs[i])) ==> r == 0.0
  {
    FilterTotalWithin(IsPending, xs);
    FilterEmptyIff(IsPending, xs);
    Total(Filter(IsPending, xs))
  }

  function RejectedAmount(xs: seq<Expense>): real { Total(Filter(IsRejected, xs)) }

  /** `pendingCount`: zero exactly when no record awaits review. */
  function PendingCount(xs: seq<Expense>): (r: nat)
    ensures r <= |xs|
    ensures r == 0 <==> forall i :: 0 <= i < |xs| ==> !IsPending(xs[i])
  {
    FilterEmptyIff(IsPending, xs);
    |Filter(IsPending, xs)|
  }

  /** `approvedCount`: zero exactly when no record is approved. */
  function ApprovedCount(xs: seq<Expense>): (r: nat)
    ensures r <= |xs|
    ensures r == 0 <==> forall i :: 0 <= i < |xs| ==> !IsApproved(xs[i])
  {
    FilterEmptyIff(IsApproved, xs);
    |Filter(IsApproved, xs)|
  }

  function RejectedCount(xs: seq<Expense>): nat { |Filter(IsRejected, xs)| }

  /** Average approved amount, guarded against an empty approved set. */
  function AvgTicketSize(xs: seq<Expense>): (r: real)
    ensures IsAverage(r, TotalSpent(xs), ApprovedCount(xs))
  {
    Average(TotalSpent(xs), ApprovedCount(xs))
  }

  /** `a` is the average of `n` values summing to `total`, or zero when `n` is zero. */
  predicate IsAverage(a: real, total: real, n: nat) {
    (n == 0 ==> a == 0.0) && (n > 0 ==> a * n as real == total)
  }

  /** `n > 0 ? total / n : 0`. */
  function Average(total: real, n: nat): (a: real)
    ensures IsAverage(a, total, n)
  {
    if n > 0 then total / n as real else 0.0
  }

  /** Every record is in exactly one status bucket: the three counts add up
      to the list length and the three amounts to the grand total. */
  lemma {:induction false} StatusBreakdown(xs: seq<Expense>)
    ensures ApprovedCount(xs) + PendingCount(xs) + RejectedCount(xs) == |xs|
    ensures TotalSpent(xs) + PendingAmount(xs) + RejectedAmount(xs) == Total(xs)
  {
    if xs != [] {
      StatusBreakdown(xs[1..]);
      FilterHead(IsApproved, xs);
      FilterHead(IsPending, xs);
      FilterHead(IsRejected, xs);
    }
  }

  /** Filtering a non-empty list: the head counts, and adds its amount, when it passes. */
  lemma FilterHead(p: Expense -> bool, xs: seq<Expense>)
    requires xs != []
    ensures |Filter(p, xs)| == |Filter(p, xs[1..])| + if p(xs[0]) then 1 else 0
    ensures Total(Filter(p, xs)) == Total(Filter(p, xs[1..])) + if p(xs[0]) then xs[0].amount else 0.0
  {
    if p(xs[0]) {
      assert Filter(p, xs)[1..] == Filter(p, xs[1..]);
    }
  }

  /** The totals of a concatenation are the sums of the parts' totals. */
  lemma DashboardConcat(a: seq<Expense>, b: seq<Expense>)
    ensures TotalSpent(a + b) == TotalSpent(a) + TotalSpent(b)
    ensures PendingAmount(a + b) == PendingAmount(a) + PendingAmount(b)
    ensures PendingCount(a + b) == PendingCount(a) + PendingCount(b)
    ensures ApprovedCount(a + b) == ApprovedCount(a) + ApprovedCount(b)
  {
    FilterConcat(IsApproved, a, b);
    FilterConcat(IsPending, a, b);
    TotalConcat(Filter(IsApproved, a), Filter(IsApproved, b));
    TotalConcat(Filter(IsPending, a), Filter(IsPending, b));
  }

  /** A total of amounts that all lie in [lo, hi] lies between |xs|*lo and |xs|*hi. */
  lemma {:induction false} TotalBounds(xs: seq<Expense>, lo: real, hi: real)
    requires forall i :: 0 <= i < |xs| ==> lo <= xs[i].amount <= hi
    ensures |xs| as real * lo <= Total(xs) <= |xs| as real * hi
  {
    if xs != [] {
      TotalBounds(xs[1..], lo, hi);
    }
  }

  lemma AverageBetween(t: real, n: real, lo: real, hi: real)
    requires n > 0.0 && n * lo <= t <= n * hi
    ensures lo <= t / n <= hi
  {
    assert t / n * n == t;
  }

  /** The average ticket lies between the smallest and the largest approved amount. */
  lemma AvgTicketWithinRange(xs: seq<Expense>, lo: real, hi: real)
    requires ApprovedCount(xs) > 0
    requires forall i :: 0 <= i < |xs| && IsApproved(xs[i]) ==> lo <= xs[i].amount <= hi
    ensures lo <= AvgTicketSize(xs) <= hi
  {
    ApprovedWithin(xs, lo, hi);
    MeanWithin(Filter(IsApproved, xs), lo, hi);
  }

  /** The mean amount of a non-empty list of amounts in [lo, hi] lies in [lo, hi]. */
  lemma MeanWithin(a: seq<Expense>, lo: real, hi: real)
    requires |a| > 0
    requires forall i :: 0 <= i < |a| ==> lo <= a[i].amount <= hi
    ensures lo <= Total(a) / |a| as real <= hi
  {
    TotalBounds(a, lo, hi);
    AverageBetween(Total(a), |a| as real, lo, hi);
  }

  /** The bounds on the approved amounts of a list carry over to its approved records. */
  lemma ApprovedWithin(xs: seq<Expense>, lo: real, hi: real)
    requires forall i :: 0 <= i < |xs| && IsApproved(xs[i]) ==> lo <= xs[i].amount <= hi
    ensures forall i :: 0 <= i < |Filter(IsApproved, xs)| ==> lo <= Filter(IsApproved, xs)[i].amount <= hi
  {
    var approved := Filter(IsApproved, xs);
    forall i | 0 <= i < |approved| ensures lo <= approved[i].amount <= hi {
      var j :| 0 <= j < |xs| && xs[j] == approved[i];
    }
  }

  /** On the seed data: approved 12500, pending 3650 over two requests, average ticket 12500. */
  lemma SeedDashboard()
    ensures TotalSpent(INITIAL_EXPENSES) == 12500.0
    ensures PendingAmount(INITIAL_EXPENSES) == 3650.0
    ensures PendingCount(INITIAL_EXPENSES) == 2
    ensures ApprovedCount(INITIAL_EXPENSES) == 1
    ensures AvgTicketSize(INITIAL_EXPENSES) == 12500.0
  {
    var xs := INITIAL_EXPENSES;
    SeedExpenses();
    assert xs == [xs[0]] + [xs[1]] + [xs[2]];
    DashboardOfThree(xs[0], xs[1], xs[2]);
  }

  lemma DashboardOfThree(a: Expense, b: Expense, c: Expense)
    requires a.status == Approved && a.amount == 12500.0
    requires b.status == PendingReview && b.amount == 450.0
    requires c.status == PendingReview && c.amount == 3200.0
    ensures var xs := [a] + [b] + [c];
            TotalSpent(xs) == 12500.0 && PendingAmount(xs) == 3650.0 && PendingCount(xs) == 2 &&
            ApprovedCount(xs) == 1 && AvgTicketSize(xs) == 12500.0
  {
    DashboardConcat([a] + [b], [c]);
    DashboardConcat([a], [b]);
  }
}
