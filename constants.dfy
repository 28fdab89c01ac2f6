/** Seed data and fixed tables: default taxonomies, the payment-method list,
    the role-tagged navigation table, the demo users and the seed expenses. */
module Constants {
  import opened Common
  import opened Types

  const APP_NAME: string := "VyapaarTrack"

  const DEFAULT_BUSINESS_UNITS: seq<string> := [
    "uPVC Manufacturing",
    "Brick Factory",
    "Construction Projects",
    "College",
    "School",
    "Head Office"
  ]

  const DEFAULT_CATEGORIES: seq<string> := [
    "Materials",
    "Labor",
    "Fuel & Transport",
    "Utilities",
    "Maintenance",
    "Food & Refreshments",
    "Office Supplies",
    "Other"
  ]

  /** `Object.values(PaymentMethod)`, in declaration order. */
  const PAYMENT_METHODS: seq<PaymentMethod> := [Upi, Cash, BankTransfer, Card, Other]

  /** A navigation entry: display name, route path and the roles that see it. */
  datatype NavItem = NavItem(name: string, path: string, roles: seq<UserRole>)

  const NAV_ITEMS: seq<NavItem> := [
    NavItem("Dashboard", "/", [Admin]),
    NavItem("Review Queue", "/review", [Admin]),
    NavItem("New Entry", "/add", [Admin, Staff]),
    NavItem("Reports", "/reports", [Admin]),
    NavItem("Settings", "/settings", [Admin])
  ]

  const MOCK_USERS: seq<User> := [
    User("u1", "Accountant (Admin)", Admin, None),
    User("u2", "Site Manager (Staff)", Staff, None)
  ]

  const INITIAL_EXPENSES: seq<Expense> := [
    Expense("e1", "2023-10-25", 12500.0, "Shree Cement Traders", "Construction Projects", "Materials",
            BankTransfer, "50 bags of cement for Site A", None, None, None, Approved,
            "Ramesh (Site Manager)", "u2", "2023-10-25T10:30:00Z", None),
    Expense("e2", "2023-10-26", 450.0, "Local Tea Stall", "Brick Factory", "Food & Refreshments",
            Cash, "Tea and snacks for laborers", None, None, None, PendingReview,
            "Suresh (Supervisor)", "u3", "2023-10-26T14:15:00Z", None),
    Expense("e3", "2023-10-27", 3200.0, "Indian Oil Pump", "uPVC Manufacturing", "Fuel & Transport",
            Upi, "Diesel for Generator", None, None, None, PendingReview,
            "Driver Mohan", "u4", "2023-10-27T09:00:00Z", None)
  ]

  /** Six default business units, eight default categories, and the
      classification fallback label "Other" is one of the categories. */
  lemma DefaultTaxonomies()
    ensures |DEFAULT_BUSINESS_UNITS| == 6 && Distinct(DEFAULT_BUSINESS_UNITS)
    ensures |DEFAULT_CATEGORIES| == 8 && Distinct(DEFAULT_CATEGORIES)
    ensures "Other" in DEFAULT_CATEGORIES
  {
  }

  /** The payment-method list enumerates every method exactly once. */
  lemma PaymentMethodsComplete()
    ensures |PAYMENT_METHODS| == 5 && Distinct(PAYMENT_METHODS)
    ensures forall m: PaymentMethod :: m in PAYMENT_METHODS
  {
    forall m: PaymentMethod ensures m in PAYMENT_METHODS {
      match m
      case Upi => assert PAYMENT_METHODS[0] == m;
      case Cash => assert PAYMENT_METHODS[1] == m;
      case BankTransfer => assert PAYMENT_METHODS[2] == m;
      case Card => assert PAYMENT_METHODS[3] == m;
      case Other => assert PAYMENT_METHODS[4] == m;
    }
  }

  /** Admins see every entry; staff see only the new-entry form. */
  lemma NavRoles()
    ensures forall i :: 0 <= i < |NAV_ITEMS| ==> Admin in NAV_ITEMS[i].roles
    ensures forall i :: 0 <= i < |NAV_ITEMS| ==> (Staff in NAV_ITEMS[i].roles <==> NAV_ITEMS[i].path == "/add")
  {
  }

  /** The seed expenses carry the distinct ids e1, e2, e3: one Approved record
      of 12500 and two Pending Review records of 450 and 3200. */
  lemma SeedExpenses()
    ensures Ids(INITIAL_EXPENSES) == ["e1", "e2", "e3"] && UniqueIds(INITIAL_EXPENSES)
    ensures INITIAL_EXPENSES[0].status == Approved && INITIAL_EXPENSES[0].amount == 12500.0
    ensures INITIAL_EXPENSES[1].status == PendingReview && INITIAL_EXPENSES[1].amount == 450.0
    ensures INITIAL_EXPENSES[2].status == PendingReview && INITIAL_EXPENSES[2].amount == 3200.0
  {
  }
}
