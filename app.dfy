/** The application shell: route guarding, and the state holder that owns the
    document, the signed-in user and the record being edited. Each handler
    rewrites the document through one of the list transforms and then, as the
    save-on-change effect does, writes the whole document to the store. */
module App {
  import opened Common
  import opened Types
  import opened Constants
  import opened Storage
  import opened Lifecycle
  import opened Selection
  import opened Layout

  /** What the router shows for a path. */
  datatype View = LoginScreen | RedirectTo(target: string) | AccessDenied | Page(path: string)

  /** `ProtectedRoute`: without a user, redirect to the login route; with a role
      list that does not include the user's role, the access-denied notice;
      otherwise the guarded page. */
  function ProtectedRoute(user: Option<User>, allowedRoles: Option<seq<UserRole>>, page: string): (r: View)
    ensures user.None? ==> r == RedirectTo("/login")
    ensures user.Some? ==> (r == Page(page) <==> allowedRoles.None? || user.value.role in allowedRoles.value)
    ensures user.Some? && r != Page(page) ==> r == AccessDenied
  {
    if user.None? then RedirectTo("/login")
    else if allowedRoles.Some? && user.value.role !in allowedRoles.value then AccessDenied
    else Page(page)
  }

  /** The four routes wrapped in an admin-only guard. */
  const ADMIN_ROUTES: seq<string> := ["/", "/review", "/settings", "/reports"]

  /** The router: without a user only the login screen exists; the new-entry
      form is open to every user; the other four pages are admin-only; any
      other path redirects to the user's home page. */
  function Route(user: Option<User>, path: string): (r: View)
    ensures user.None? ==> r == LoginScreen
    ensures r.Page? ==> r.path == path && user.Some? && (path == "/add" || user.value.role == Admin)
    ensures user.Some? && user.value.role == Admin && (path == "/add" || path in ADMIN_ROUTES) ==> r == Page(path)
    ensures r.RedirectTo? ==> r.target == (if user.value.role == Admin then "/" else "/add")
    ensures user.Some? && path == "/add" ==> r == Page(path)
    ensures user.Some? && user.value.role != Admin && path in ADMIN_ROUTES ==> r == AccessDenied
    ensures user.Some? && path != "/add" && path !in ADMIN_ROUTES ==>
              r == RedirectTo(if user.value.role == Admin then "/" else "/add")
  {
    if user.None? then LoginScreen
    else if path == "/add" then Page(path)
    else if path in ADMIN_ROUTES then ProtectedRoute(user, Some([Admin]), path)
    else RedirectTo(if user.value.role == Admin then "/" else "/add")
  }

  /** The catch-all redirect always lands on a page the user may see. */
  lemma RedirectLandsOnPage(u: User, path: string)
    requires Route(Some(u), path).RedirectTo?
    ensures Route(Some(u), Route(Some(u), path).target).Page?
  {
  }

  /** The navigation offered to a user and the router agree: an entry is listed
      exactly when following it renders the page rather than the denial. */
  lemma NavAgreesWithRoutes(u: User, i: nat)
    requires i < |NAV_ITEMS|
    ensures NAV_ITEMS[i] in FilteredNav(Some(u)) <==> Route(Some(u), NAV_ITEMS[i].path) == Page(NAV_ITEMS[i].path)
    ensures NAV_ITEMS[i] !in FilteredNav(Some(u)) ==> Route(Some(u), NAV_ITEMS[i].path) == AccessDenied
  {
    NavItemRouted(i);
    FilteredNavHas(Some(u), i);
    NavItemAgrees(u, NAV_ITEMS[i], NAV_ITEMS[i] in FilteredNav(Some(u)));
  }

  /** Every navigation entry is open to admins, open to staff exactly when it
      is the new-entry form, and leads to that form or to an admin-only route. */
  lemma NavItemRouted(i: nat)
    requires i < |NAV_ITEMS|
    ensures Admin in NAV_ITEMS[i].roles && (Staff in NAV_ITEMS[i].roles <==> NAV_ITEMS[i].path == "/add")
    ensures NAV_ITEMS[i].path == "/add" || NAV_ITEMS[i].path in ADMIN_ROUTES
  {
    NavRoles();
  }

  lemma NavItemAgrees(u: User, item: NavItem, listed: bool)
    requires Admin in item.roles && (Staff in item.roles <==> item.path == "/add")
    requires item.path == "/add" || item.path in ADMIN_ROUTES
    requires listed <==> VisibleTo(Some(u))(item)
    ensures listed <==> Route(Some(u), item.path) == Page(item.path)
    ensures !listed ==> Route(Some(u), item.path) == AccessDenied
  {
    RouteOfGuardedPath(u, item.path);
  }

  /** On the new-entry form and the admin-only routes, the router shows the
      page to an admin and on the form, and the denial otherwise. */
  lemma RouteOfGuardedPath(u: User, path: string)
    requires path == "/add" || path in ADMIN_ROUTES
    ensures Route(Some(u), path) == if path == "/add" || u.role == Admin then Page(path) else AccessDenied
  {
  }

  /** The receipt that the forwarded-message demo inserts. `roll` stands for
      `Math.floor(Math.random() * 5000)`. */
  function ForwardedReceipt(id: string, today: string, now: string, roll: nat, units: seq<string>): (e: Expense)
    requires roll < 5000
    ensures e.id == id && e.status == PendingReview && e.businessUnit == FirstOrBlank(units)
    ensures 100.0 <= e.amount <= 5099.0 && e.amount == e.amount.Floor as real
    ensures e.receiptUrl.Some? && e.receiptBase64.None? && e.referenceNumber.None?
  {
    Expense(id, today, (roll + 100) as real, "Whatsapp Forwarded Store", FirstOrBlank(units), "Materials",
            Upi, "Auto-forwarded from +91 98*** ***10", None,
            Some("https://placehold.co/400x600/e2e8f0/475569?text=WhatsApp+Screenshot"), None,
            PendingReview, "WhatsApp Bot", "bot", now, None)
  }

  class AppState {
    var data: Option<AppData>
    var currentUser: Option<User>
    var editingExpense: Option<Expense>
    /** The stored session entry `vt_user`. */
    var sessionUser: Option<User>
    const store: LocalStore

    /** Whenever the document is loaded, the store holds exactly it. */
    predicate Valid()
      reads this, store
    {
      data.Some? ==> STORAGE_KEY in store.entries && store.entries[STORAGE_KEY] == data.value
    }

    /** Before mounting there is no document, no user and no editor. */
    constructor(store: LocalStore, session: Option<User>)
      ensures this.store == store && sessionUser == session
      ensures data.None? && currentUser.None? && editingExpense.None?
      ensures Valid()
    {
      this.store := store;
      sessionUser := session;
      data := None;
      currentUser := None;
      editingExpense := None;
    }

    /** The mount effect: load (or seed) the document, then restore a saved session. */
    method Mount()
      modifies this, store
      ensures Valid() && data.Some?
      ensures STORAGE_KEY in old(store.entries) ==> data.value == old(store.entries)[STORAGE_KEY]
      ensures STORAGE_KEY !in old(store.entries) ==> data.value == DefaultData()
      ensures store.entries == old(store.entries)[STORAGE_KEY := data.value]
      ensures currentUser == (if old(sessionUser).Some? then old(sessionUser) else old(currentUser))
      ensures sessionUser == old(sessionUser) && editingExpense == old(editingExpense)
    {
      var loaded := store.LoadData();
      data := Some(loaded);
      store.SaveData(loaded);
      if sessionUser.Some? {
        currentUser := sessionUser;
      }
    }

    /** The save-on-change effect: the new document becomes the state and is written. */
    method Commit(d: AppData)
      modifies this, store
      ensures data == Some(d) && Valid()
      ensures store.entries == old(store.entries)[STORAGE_KEY := d]
      ensures currentUser == old(currentUser) && editingExpense == old(editingExpense)
      ensures sessionUser == old(sessionUser)
    {
      data := Some(d);
      store.SaveData(d);
    }

    /** `handleLogin`: sets the user and saves the session. */
    method Login(u: User)
      modifies this
      ensures currentUser == Some(u) && sessionUser == Some(u)
      ensures data == old(data) && editingExpense == old(editingExpense)
    {
      currentUser := Some(u);
      sessionUser := Some(u);
    }

    /** `handleLogout`: clears the user and the saved session. */
    method Logout()
      modifies this
      ensures currentUser.None? && sessionUser.None?
      ensures data == old(data) && editingExpense == old(editingExpense)
    {
      currentUser := None;
      sessionUser := None;
    }

    /** `addExpense`: the new record goes in front of the old list. */
    method AddExpense(e: Expense)
      requires Valid()
      modifies this, store
      ensures Valid()
      ensures old(data).None? ==> data == old(data) && store.entries == old(store.entries)
      ensures old(data).Some? ==> data == Some(old(data).value.(expenses := [e] + old(data).value.expenses))
      ensures currentUser == old(currentUser) && editingExpense == old(editingExpense)
    {
      if data.None? {
        return;
      }
      Commit(data.value.(expenses := [e] + data.value.expenses));
    }

    /** `updateStatus`: one id takes the new status. */
    method UpdateStatus(id: string, s: ExpenseStatus)
      requires Valid()
      modifies this, store
      ensures Valid()
      ensures old(data).None? ==> data == old(data) && store.entries == old(store.entries)
      ensures old(data).Some? ==> data == Some(old(data).value.(expenses := Lifecycle.UpdateStatus(old(data).value.expenses, id, s)))
      ensures currentUser == old(currentUser) && editingExpense == old(editingExpense)
    {
      if data.None? {
        return;
      }
      Commit(data.value.(expenses := Lifecycle.UpdateStatus(data.value.expenses, id, s)));
    }

    /** `handleBulkStatusChange`: every id of the set takes the new status. */
    method BulkStatusChange(ids: set<string>, s: ExpenseStatus)
      requires Valid()
      modifies this, store
      ensures Valid()
      ensures old(data).None? ==> data == old(data) && store.entries == old(store.entries)
      ensures old(data).Some? ==> data == Some(old(data).value.(expenses := SetStatusWhere(old(data).value.expenses, ids, s)))
      ensures currentUser == old(currentUser) && editingExpense == old(editingExpense)
    {
      if data.None? {
        return;
      }
      Commit(data.value.(expenses := SetStatusWhere(data.value.expenses, ids, s)));
    }

    /** `handleBulkDelete`: every record whose id is in the set goes. */
    method BulkDelete(ids: set<string>)
      requires Valid()
      modifies this, store
      ensures Valid()
      ensures old(data).None? ==> data == old(data) && store.entries == old(store.entries)
      ensures old(data).Some? ==> data == Some(old(data).value.(expenses := RemoveWhere(old(data).value.expenses, ids)))
      ensures currentUser == old(currentUser) && editingExpense == old(editingExpense)
    {
      if data.None? {
        return;
      }
      Commit(data.value.(expenses := RemoveWhere(data.value.expenses, ids)));
    }

    /** Runs the command a page's bulk action produced. */
    method RunBulkCommand(cmd: BulkCommand)
      requires Valid()
      modifies this, store
      ensures Valid()
      ensures old(data).None? ==> data == old(data) && store.entries == old(store.entries)
      ensures old(data).Some? && cmd.BulkStatusChange? ==>
                data == Some(old(data).value.(expenses := SetStatusWhere(old(data).value.expenses, cmd.ids, cmd.status)))
      ensures old(data).Some? && cmd.BulkDelete? ==>
                data == Some(old(data).value.(expenses := RemoveWhere(old(data).value.expenses, cmd.ids)))
      ensures currentUser == old(currentUser) && editingExpense == old(editingExpense)
    {
      match cmd
      case BulkStatusChange(ids, s) => BulkStatusChange(ids, s);
      case BulkDelete(ids) => BulkDelete(ids);
    }

    /** `handleSingleDelete`: only a confirmed delete removes the records with
        that id, and it also closes the editor. */
    method SingleDelete(id: string, confirmed: bool)
      requires Valid()
      modifies this, store
      ensures Valid()
      ensures old(data).None? || !confirmed ==>
                data == old(data) && store.entries == old(store.entries) && editingExpense == old(editingExpense)
      ensures old(data).Some? && confirmed ==>
                data == Some(old(data).value.(expenses := RemoveId(old(data).value.expenses, id))) && editingExpense.None?
      ensures currentUser == old(currentUser)
    {
      if data.None? {
        return;
      }
      if confirmed {
        Commit(data.value.(expenses := RemoveId(data.value.expenses, id)));
        editingExpense := None;
      }
    }

    /** `handleSaveEdit`: the record with the edited record's id is replaced,
        and the editor closes. */
    method SaveEdit(u: Expense)
      requires Valid()
      modifies this, store
      ensures Valid()
      ensures old(data).None? ==>
                data == old(data) && store.entries == old(store.entries) && editingExpense == old(editingExpense)
      ensures old(data).Some? ==>
                data == Some(old(data).value.(expenses := ReplaceById(old(data).value.expenses, u))) && editingExpense.None?
      ensures currentUser == old(currentUser)
    {
      if data.None? {
        return;
      }
      Commit(data.value.(expenses := ReplaceById(data.value.expenses, u)));
      editingExpense := None;
    }

    /** `updateBusinessUnits`: the unit list is replaced wholesale. */
    method UpdateBusinessUnits(units: seq<string>)
      requires Valid()
      modifies this, store
      ensures Valid()
      ensures old(data).None? ==> data == old(data) && store.entries == old(store.entries)
      ensures old(data).Some? ==> data == Some(old(data).value.(businessUnits := units))
      ensures currentUser == old(currentUser) && editingExpense == old(editingExpense)
    {
      if data.None? {
        return;
      }
      Commit(data.value.(businessUnits := units));
    }

    /** `updateCategories`: the category list is replaced wholesale. */
    method UpdateCategories(cats: seq<string>)
      requires Valid()
      modifies this, store
      ensures Valid()
      ensures old(data).None? ==> data == old(data) && store.entries == old(store.entries)
      ensures old(data).Some? ==> data == Some(old(data).value.(categories := cats))
      ensures currentUser == old(currentUser) && editingExpense == old(editingExpense)
    {
      if data.None? {
        return;
      }
      Commit(data.value.(categories := cats));
    }

    /** `handleSimulateWhatsApp`: a pending receipt with a fresh id, the first
        business unit and an amount in [100, 5099] goes in front of the list. */
    method SimulateForwardedReceipt(freshId: string, today: string, now: string, roll: nat)
      requires Valid()
      requires roll < 5000
      requires data.Some? ==> freshId !in Ids(data.value.expenses)
      modifies this, store
      ensures Valid()
      ensures old(data).None? ==> data == old(data) && store.entries == old(store.entries)
      ensures old(data).Some? ==>
                var e := ForwardedReceipt(freshId, today, now, roll, old(data).value.businessUnits);
                data == Some(old(data).value.(expenses := [e] + old(data).value.expenses))
      ensures currentUser == old(currentUser) && editingExpense == old(editingExpense)
    {
      if data.None? {
        return;
      }
      var e := ForwardedReceipt(freshId, today, now, roll, data.value.businessUnits);
      Commit(data.value.(expenses := [e] + data.value.expenses));
    }

    /** An edit button sets the record the editor shows. */
    method OpenEditor(e: Expense)
      modifies this
      ensures editingExpense == Some(e)
      ensures data == old(data) && currentUser == old(currentUser)
    {
      editingExpense := Some(e);
    }

    /** Closing the editor. */
    method CloseEditor()
      modifies this
      ensures editingExpense.None?
      ensures data == old(data) && currentUser == old(currentUser)
    {
      editingExpense := None;
    }
  }

  /** The forwarded receipt adds one pending request: the queue grows by one
      and its pending amount by the receipt's amount, the approved figures stay. */
  lemma ForwardedReceiptCounts(xs: seq<Expense>, id: string, today: string, now: string, roll: nat, units: seq<string>)
    requires roll < 5000
    ensures var e := ForwardedReceipt(id, today, now, roll, units);
            && StatsCards.PendingCount([e] + xs) == StatsCards.PendingCount(xs) + 1
            && StatsCards.PendingAmount([e] + xs) == StatsCards.PendingAmount(xs) + e.amount
            && StatsCards.TotalSpent([e] + xs) == StatsCards.TotalSpent(xs)
  {
    var e := ForwardedReceipt(id, today, now, roll, units);
    StatsCards.DashboardConcat([e], xs);
  }
}
