/** The reports page: the business-unit and month filters, the filtered total,
    the list of months offered by the month filter, and the page's selection
    state with its bulk actions. */
module Reports {
  import opened Common
  import opened Text
  import opened Types
  import opened Selection
  import ReportsCsv

  /** The sentinel value of both filters meaning "no restriction". */
  const ALL: string := "All"

  /** Whether a record passes the two filters. */
  function MatchesFilters(business: string, month: string): Expense -> bool {
    (e: Expense) => (business == ALL || e.businessUnit == business) && (month == ALL || StartsWith(e.date, month))
  }

  /** `filteredExpenses`: exactly the records that pass both filters. */
  function FilteredExpenses(xs: seq<Expense>, business: string, month: string): (r: seq<Expense>)
    ensures |r| <= |xs|
    ensures forall i :: 0 <= i < |r| ==> r[i] in xs
    ensures forall i :: 0 <= i < |r| ==> business == ALL || r[i].businessUnit == business
    ensures forall i :: 0 <= i < |r| ==> month == ALL || StartsWith(r[i].date, month)
    ensures forall i ::
              (0 <= i < |xs| && (business == ALL || xs[i].businessUnit == business) &&
               (month == ALL || StartsWith(xs[i].date, month))) ==> xs[i] in r
  {
    Filter(MatchesFilters(business, month), xs)
  }

  /** The filter keeps input order: filtering a concatenation filters each part. */
  lemma FilteredConcat(a: seq<Expense>, b: seq<Expense>, business: string, month: string)
    ensures FilteredExpenses(a + b, business, month) == FilteredExpenses(a, business, month) + FilteredExpenses(b, business, month)
  {
    FilterConcat(MatchesFilters(business, month), a, b);
  }

  /** With both filters at "All" nothing is filtered out. */
  lemma FilteredAll(xs: seq<Expense>)
    ensures FilteredExpenses(xs, ALL, ALL) == xs
  {
    FilterKeepsAll(MatchesFilters(ALL, ALL), xs);
  }

  /** `totalAmount`: the sum of the filtered amounts. */
  function TotalAmount(xs: seq<Expense>, business: string, month: string): (r: real)
    ensures NonNegative(xs) ==> 0.0 <= r <= Total(xs)
  {
    FilterTotalWithin(MatchesFilters(business, month), xs);
    Total(FilteredExpenses(xs, business, month))
  }

  /** With both filters at "All" the period total is the grand total. */
  lemma TotalAmountAll(xs: seq<Expense>)
    ensures TotalAmount(xs, ALL, ALL) == Total(xs)
  {
    FilteredAll(xs);
  }

  /** The period total of a concatenation is the sum of the parts' period totals. */
  lemma TotalAmountConcat(a: seq<Expense>, b: seq<Expense>, business: string, month: string)
    ensures TotalAmount(a + b, business, month) == TotalAmount(a, business, month) + TotalAmount(b, business, month)
  {
    FilteredConcat(a, b, business, month);
    TotalConcat(FilteredExpenses(a, business, month), FilteredExpenses(b, business, month));
  }

  /** A month key is the first seven characters of a date (`YYYY-MM`). */
  function MonthOf(e: Expense): string {
    Take(e.date, 7)
  }

  /** Strictly decreasing in string order (hence free of repeats). */
  predicate Descending(s: seq<string>) {
    forall i, j :: 0 <= i < j < |s| ==> LexLess(s[j], s[i])
  }

  lemma DescendingDistinct(s: seq<string>)
    requires Descending(s)
    ensures Distinct(s)
  {
    forall i, j | 0 <= i < j < |s| ensures s[i] != s[j] {
      if s[i] == s[j] {
        LexLessIrreflexive(s[i]);
      }
    }
  }

  /** Adds a month to a descending list at its place, unless already present. */
  function InsertDescending(s: seq<string>, m: string): (r: seq<string>)
    requires Descending(s)
    ensures Descending(r)
    ensures forall x :: x in r <==> x in s || x == m
  {
    if s == [] then [m]
    else if s[0] == m then s
    else if LexLess(s[0], m) then
      forall j | 0 <= j < |s| ensures LexLess(s[j], m) {
        if j > 0 {
          LexLessTransitive(s[j], s[0], m);
        }
      }
      [m] + s
    else
      LexLessTotal(s[0], m);
      var t := InsertDescending(s[1..], m);
      var r := [s[0]] + t;
      forall k | 1 <= k < |r| ensures LexLess(r[k], s[0]) {
        assert r[k] in t;
        if r[k] != m {
          var j :| 0 <= j < |s[1..]| && s[1..][j] == r[k];
          assert s[j + 1] == r[k];
        }
      }
      r
  }

  /** `availableMonths`: collects the month of every record, without repeats,
      and returns them newest first. */
  method AvailableMonths(xs: seq<Expense>) returns (months: seq<string>)
    ensures Descending(months) && Distinct(months)
    ensures forall m :: m in months <==> exists i :: 0 <= i < |xs| && m == MonthOf(xs[i])
  {
    months := [];
    var i := 0;
    while i < |xs|
      invariant 0 <= i <= |xs|
      invariant Descending(months)
      invariant forall m :: m in months <==> exists k :: 0 <= k < i && m == MonthOf(xs[k])
    {
      months := InsertDescending(months, MonthOf(xs[i]));
      i := i + 1;
    }
    DescendingDistinct(months);
  }

  /** Every offered month selects at least one record. */
  lemma OfferedMonthSelects(xs: seq<Expense>, months: seq<string>, m: string)
    requires forall x :: x in months <==> exists i :: 0 <= i < |xs| && x == MonthOf(xs[i])
    requires m in months
    ensures |FilteredExpenses(xs, ALL, m)| > 0
  {
    var i :| 0 <= i < |xs| && m == MonthOf(xs[i]);
    assert xs[i] in FilteredExpenses(xs, ALL, m);
  }

  /** The page's own state: the two filters and the selected ids. */
  class ReportsView {
    var selectedBusiness: string
    var selectedMonth: string
    var selectedIds: set<string>

    constructor()
      ensures selectedBusiness == ALL && selectedMonth == ALL && selectedIds == {}
    {
      selectedBusiness := ALL;
      selectedMonth := ALL;
      selectedIds := {};
    }

    /** The rows the table shows. */
    function Visible(xs: seq<Expense>): seq<Expense>
      reads this
    {
      FilteredExpenses(xs, selectedBusiness, selectedMonth)
    }

    /** `csvContent`: the export of the rows the table shows, as the page
        writes it. It reads back as the header and the ten values of each shown
        record only when no shown record has a comma, quote or line break in a
        bare value or a quote in its unit, and it has one line per shown record
        only when no value holds a line break. */
    function CsvContent(xs: seq<Expense>, amountText: real -> string): (r: string)
      reads this
      ensures (forall i :: 0 <= i < |Visible(xs)| ==> ReportsCsv.SafeAsWritten(Visible(xs)[i], amountText)) ==>
                ReportsCsv.ReadDocument(r) == Some([ReportsCsv.HEADERS] + ReportsCsv.FieldRows(Visible(xs), amountText))
      ensures (forall i :: 0 <= i < |Visible(xs)| ==> ReportsCsv.OneLineFields(Visible(xs)[i], amountText)) ==>
                Split(r, ReportsCsv.NEWLINE)
                == [Join([ReportsCsv.COMMA], ReportsCsv.HEADERS)] + ReportsCsv.AsWrittenRows(Visible(xs), amountText)
    {
      ReportsCsv.AsWrittenCsvFacts(Visible(xs), amountText);
      ReportsCsv.AsWrittenCsv(Visible(xs), amountText)
    }

    /** The floating action bar is shown while something is selected. */
    predicate ShowActionBar()
      reads this
    {
      |selectedIds| > 0
    }

    /** The header checkbox is ticked when the selection is as large as the table. */
    predicate AllChecked(xs: seq<Expense>)
      reads this
    {
      |selectedIds| > 0 && |selectedIds| == |Visible(xs)|
    }

    /** Choosing a business unit; a changed filter clears the selection. */
    method SetBusiness(b: string)
      modifies this
      ensures selectedBusiness == b && selectedMonth == old(selectedMonth)
      ensures selectedIds == if b != old(selectedBusiness) then {} else old(selectedIds)
    {
      if b != selectedBusiness {
        selectedBusiness := b;
        selectedIds := {};
      }
    }

    /** Choosing a month; a changed filter clears the selection. */
    method SetMonth(m: string)
      modifies this
      ensures selectedMonth == m && selectedBusiness == old(selectedBusiness)
      ensures selectedIds == if m != old(selectedMonth) then {} else old(selectedIds)
    {
      if m != selectedMonth {
        selectedMonth := m;
        selectedIds := {};
      }
    }

    /** `toggleSelection` on a copy of the set. */
    method ToggleSelection(id: string)
      modifies this
      ensures selectedIds == Toggle(old(selectedIds), id)
      ensures selectedBusiness == old(selectedBusiness) && selectedMonth == old(selectedMonth)
    {
      var next := selectedIds;
      if id in next {
        next := next - {id};
      } else {
        next := next + {id};
      }
      selectedIds := next;
    }

    /** `handleSelectAll` over the rows the table shows. */
    method SelectAll(xs: seq<Expense>)
      modifies this
      ensures selectedIds == SelectAllOrClear(old(selectedIds), old(Visible(xs)))
      ensures selectedBusiness == old(selectedBusiness) && selectedMonth == old(selectedMonth)
    {
      var visible := Visible(xs);
      if |selectedIds| == |visible| {
        selectedIds := {};
      } else {
        selectedIds := IdSet(visible);
      }
    }

    /** `executeBulkAction`: hands the command to the lifecycle and clears the
        selection when a command was issued. */
    method ExecuteBulkAction(action: BulkAction, confirmed: bool) returns (cmd: Option<BulkCommand>)
      modifies this
      ensures cmd == Execute(old(selectedIds), action, confirmed)
      ensures selectedIds == if cmd.Some? then {} else old(selectedIds)
      ensures selectedBusiness == old(selectedBusiness) && selectedMonth == old(selectedMonth)
    {
      cmd := Execute(selectedIds, action, confirmed);
      if cmd.Some? {
        selectedIds := {};
      }
    }
  }
}
