/** The entity vocabulary of the expense tracker: review status, payment
    method, user role, user, expense record and the persisted document root. */
module Types {
  import opened Common

  /** The three review states; the enum's string values are what the
      document stores and what the CSV export prints. */
  datatype ExpenseStatus = PendingReview | Approved | Rejected {
    function Label(): string {
      match this
      case PendingReview => "Pending Review"
      case Approved => "Approved"
      case Rejected => "Rejected"
    }
  }

  /** Reads a stored status string back; anything but the three labels is refused. */
  function ParseStatus(s: string): (r: Option<ExpenseStatus>)
    ensures r.Some? ==> r.value.Label() == s
  {
    if s == "Pending Review" then Some(PendingReview)
    else if s == "Approved" then Some(Approved)
    else if s == "Rejected" then Some(Rejected)
    else None
  }

  /** Every status is one of exactly three values, each with its own label. */
  lemma StatusRoundTrip(st: ExpenseStatus)
    ensures ParseStatus(st.Label()) == Some(st)
    ensures st == PendingReview || st == Approved || st == Rejected
  {
  }

  /** The five payment methods and their stored string values. */
  datatype PaymentMethod = Upi | Cash | BankTransfer | Card | Other {
    function Label(): string {
      match this
      case Upi => "UPI (PhonePe/GPay)"
      case Cash => "Cash"
      case BankTransfer => "Bank Transfer"
      case Card => "Card"
      case Other => "Other"
    }
  }

  function ParsePaymentMethod(s: string): (r: Option<PaymentMethod>)
    ensures r.Some? ==> r.value.Label() == s
  {
    if s == "UPI (PhonePe/GPay)" then Some(Upi)
    else if s == "Cash" then Some(Cash)
    else if s == "Bank Transfer" then Some(BankTransfer)
    else if s == "Card" then Some(Card)
    else if s == "Other" then Some(Other)
    else None
  }

  lemma PaymentMethodRoundTrip(m: PaymentMethod)
    ensures ParsePaymentMethod(m.Label()) == Some(m)
  {
  }

  /** `'admin' | 'staff'`. */
  datatype UserRole = Admin | Staff {
    function Label(): string {
      match this
      case Admin => "admin"
      case Staff => "staff"
    }
  }

  function ParseRole(s: string): (r: Option<UserRole>)
    ensures r.Some? ==> r.value.Label() == s
  {
    if s == "admin" then Some(Admin) else if s == "staff" then Some(Staff) else None
  }

  lemma RoleRoundTrip(role: UserRole)
    ensures ParseRole(role.Label()) == Some(role)
  {
  }

  datatype User = User(id: string, name: string, role: UserRole, avatar: Option<string>)

  /** One expense record. Amounts are exact rupee values; the four
      `Option` fields are the optional properties of the record. */
  datatype Expense = Expense(
    id: string,
    date: string,
    amount: real,
    merchant: string,
    businessUnit: string,
    category: string,
    paymentMethod: PaymentMethod,
    description: string,
    referenceNumber: Option<string>,
    receiptUrl: Option<string>,
    receiptBase64: Option<string>,
    status: ExpenseStatus,
    submittedBy: string,
    submittedById: string,
    submittedAt: string,
    reviewNote: Option<string>)

  /** The persisted document: the expense list and the two taxonomies. */
  datatype AppData = AppData(expenses: seq<Expense>, businessUnits: seq<string>, categories: seq<string>)

  /** `xs.map(e => e.id)`. */
  function Ids(xs: seq<Expense>): (r: seq<string>)
    ensures |r| == |xs|
    ensures forall i :: 0 <= i < |xs| ==> r[i] == xs[i].id
  {
    seq(|xs|, i requires 0 <= i < |xs| => xs[i].id)
  }

  /** No two records share an id (what the fresh-id generator provides). */
  predicate UniqueIds(xs: seq<Expense>) {
    forall i, j :: 0 <= i < j < |xs| ==> xs[i].id != xs[j].id
  }

  /** Lists with the same ids in the same places agree on their uniqueness. */
  lemma SameIdsUnique(xs: seq<Expense>, ys: seq<Expense>)
    requires Ids(ys) == Ids(xs)
    ensures UniqueIds(xs) ==> UniqueIds(ys)
  {
    forall i | 0 <= i < |ys| ensures ys[i].id == xs[i].id {
      assert Ids(ys)[i] == Ids(xs)[i];
    }
  }

  /** The set of ids carried by a list (`new Set(xs.map(e => e.id))`). */
  function IdSet(xs: seq<Expense>): (r: set<string>)
    ensures forall i :: 0 <= i < |xs| ==> xs[i].id in r
    ensures forall id :: id in r ==> exists i :: 0 <= i < |xs| && xs[i].id == id
  {
    set id | id in Ids(xs)
  }

  /** With unique ids the id set is as large as the list; with a repeated id
      it is strictly smaller. */
  lemma IdSetSize(xs: seq<Expense>)
    ensures UniqueIds(xs) ==> |IdSet(xs)| == |xs|
    ensures !UniqueIds(xs) ==> |IdSet(xs)| < |xs|
  {
    var ids := Ids(xs);
    if UniqueIds(xs) {
      assert Distinct(ids);
      DistinctCardinality(ids);
    } else {
      var i, j :| 0 <= i < j < |xs| && xs[i].id == xs[j].id;
      RepeatedCardinality(ids, i, j);
    }
  }

  /** `xs.reduce((sum, e) => sum + e.amount, 0)`. */
  function Total(xs: seq<Expense>): real {
    if xs == [] then 0.0 else xs[0].amount + Total(xs[1..])
  }

  /** No amount in the list is negative. */
  predicate NonNegative(xs: seq<Expense>) {
    forall i :: 0 <= i < |xs| ==> xs[i].amount >= 0.0
  }

  /** With no negative amount, the total of the records kept by a filter lies
      between zero and the total of the whole list. */
  lemma {:induction false} FilterTotalWithin(p: Expense -> bool, xs: seq<Expense>)
    ensures NonNegative(xs) ==> 0.0 <= Total(Filter(p, xs)) <= Total(xs)
  {
    if xs != [] && NonNegative(xs) {
      FilterTotalWithin(p, xs[1..]);
      assert NonNegative(xs[1..]) by {
        forall i | 0 <= i < |xs[1..]| ensures xs[1..][i].amount >= 0.0 {
          assert xs[1..][i] == xs[i + 1];
        }
      }
      if p(xs[0]) {
        assert Filter(p, xs) == [xs[0]] + Filter(p, xs[1..]);
        assert ([xs[0]] + Filter(p, xs[1..]))[1..] == Filter(p, xs[1..]);
      }
    }
  }

  lemma {:induction false} TotalConcat(a: seq<Expense>, b: seq<Expense>)
    ensures Total(a + b) == Total(a) + Total(b)
  {
    if a == [] {
      assert a + b == b;
    } else {
      assert (a + b)[0] == a[0] && (a + b)[1..] == a[1..] + b;
      TotalConcat(a[1..], b);
    }
  }

  /** The status filters used by the dashboard and the review queue. */
  function IsApproved(e: Expense): bool { e.status == Approved }
  function IsPending(e: Expense): bool { e.status == PendingReview }
  function IsRejected(e: Expense): bool { e.status == Rejected }

  /** `xs[0]` of a string list; JavaScript yields `undefined` on an empty list,
      which the model writes as the empty string. */
  function FirstOrBlank(xs: seq<string>): (r: string)
    ensures |xs| > 0 ==> r == xs[0]
    ensures |xs| == 0 ==> r == ""
  {
    if |xs| > 0 then xs[0] else ""
  }
}
