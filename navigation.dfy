/** The top navigation bar (src/components/layout/Navigation.tsx): a constant table of three
    menus with their child links, and `isActive`, which decides from the current path which
    menu is highlighted. */
module Navigation {
  import opened Wrappers

  datatype NavChild = NavChild(title: string, path: string)

  datatype NavItem = NavItem(title: string, path: string, children: Option<seq<NavChild>>)

  function PaymentsMenu(): NavItem
  {
    NavItem("PAYMENTS", "/payments", Some([
      NavChild("Make a Payment", "/payments/new"),
      NavChild("Payment History", "/payments/history"),
      NavChild("Recurring Payments", "/payments/recurring"),
      NavChild("ACH Quick Entry", "/payments/quick-entry"),
      NavChild("Approval Payments", "/payments/approval"),
      NavChild("Create PPD Template", "/payments/ppd-template"),
      NavChild("Master Recipient List", "/recipients/master")]))
  }

  function ReportsMenu(): NavItem
  {
    NavItem("REPORTS", "/reports", Some([
      NavChild("Transaction Reports", "/reports/transactions"),
      NavChild("Payment Reports", "/reports/payments")]))
  }

  function AdministrationMenu(): NavItem
  {
    NavItem("ADMINISTRATION", "/settings", Some([
      NavChild("User Management", "/settings/users"),
      NavChild("Payment Limits", "/settings/limits"),
      NavChild("System Settings", "/settings/system")]))
  }

  function NavigationItems(): seq<NavItem>
  {
    [PaymentsMenu(), ReportsMenu(), AdministrationMenu()]
  }

  /** `children.some(child => currentPath === child.path)`, left to right. */
  function SomeChildAt(children: seq<NavChild>, currentPath: string): (found: bool)
    ensures found <==> exists i :: 0 <= i < |children| && children[i].path == currentPath
  {
    if children == [] then false
    else if children[0].path == currentPath then true
    else
      var rest := SomeChildAt(children[1..], currentPath);
      assert rest ==> exists i :: 0 <= i < |children| && children[i].path == currentPath by {
        if rest {
          var i :| 0 <= i < |children[1..]| && children[1..][i].path == currentPath;
          assert children[i + 1].path == currentPath;
        }
      }
      rest
  }

  /** `isActive`. */
  function IsActive(item: NavItem, currentPath: string): bool
  {
    if currentPath == item.path then true
    else if item.children.Some? then SomeChildAt(item.children.value, currentPath)
    else false
  }

  /** All the paths that highlight an item: its own and, exactly, its children's. */
  function ActivePaths(item: NavItem): set<string>
  {
    {item.path} + if item.children.Some? then set c | c in item.children.value :: c.path else {}
  }

  /** An item is active exactly when the current path is one of its paths; a path that only
      starts with one of them does not count. */
  lemma IsActiveIff(item: NavItem, currentPath: string)
    ensures IsActive(item, currentPath) <==> currentPath in ActivePaths(item)
  {
    if item.children.Some? && currentPath in ActivePaths(item) && currentPath != item.path {
      var c :| c in item.children.value && c.path == currentPath;
      var i :| 0 <= i < |item.children.value| && item.children.value[i] == c;
    }
  }

  /** An item without children is active only on its own path. */
  lemma ChildlessItemActiveOnlyOnItsPath(item: NavItem, currentPath: string)
    requires item.children.None?
    ensures IsActive(item, currentPath) <==> currentPath == item.path
  {
  }

  /** The Master Recipient List lives under `/recipients` but is listed under PAYMENTS, so
      that path highlights PAYMENTS and nothing else. */
  lemma MasterRecipientListHighlightsPayments()
    ensures IsActive(PaymentsMenu(), "/recipients/master")
    ensures !IsActive(ReportsMenu(), "/recipients/master")
    ensures !IsActive(AdministrationMenu(), "/recipients/master")
  {
    assert PaymentsMenu().children.value[6].path == "/recipients/master";
  }

  /** Matching is exact: `/payments/new/`, one character below the child path `/payments/new`,
      highlights nothing. */
  lemma DeeperPathHighlightsNothing()
    ensures forall item :: item in NavigationItems() ==> !IsActive(item, "/payments/new/")
  {
  }

  /** The paths of each menu, told apart by their first characters: PAYMENTS paths start
      `/p` or `/rec`, REPORTS paths `/rep` and ADMINISTRATION paths `/s`. */
  predicate PaymentsShape(p: string) { |p| >= 4 && (p[..2] == "/p" || p[..4] == "/rec") }
  predicate ReportsShape(p: string) { |p| >= 4 && p[..4] == "/rep" }
  predicate AdministrationShape(p: string) { |p| >= 4 && p[..2] == "/s" }

  lemma PaymentsChildShape(i: int)
    requires 0 <= i < |PaymentsMenu().children.value|
    ensures PaymentsShape(PaymentsMenu().children.value[i].path)
  {
    var cs := PaymentsMenu().children.value;
    if i == 0 { assert cs[0].path == "/payments/new"; }
    else if i == 1 { assert cs[1].path == "/payments/history"; }
    else if i == 2 { assert cs[2].path == "/payments/recurring"; }
    else if i == 3 { assert cs[3].path == "/payments/quick-entry"; }
    else if i == 4 { assert cs[4].path == "/payments/approval"; }
    else if i == 5 { assert cs[5].path == "/payments/ppd-template"; }
    else { assert cs[6].path == "/recipients/master"; }
  }

  lemma PaymentsActiveShape(currentPath: string)
    requires IsActive(PaymentsMenu(), currentPath)
    ensures PaymentsShape(currentPath)
  {
    var cs := PaymentsMenu().children.value;
    if currentPath != "/payments" {
      var i :| 0 <= i < |cs| && cs[i].path == currentPath;
      PaymentsChildShape(i);
    }
  }

  lemma ReportsActiveShape(currentPath: string)
    requires IsActive(ReportsMenu(), currentPath)
    ensures ReportsShape(currentPath)
  {
    var cs := ReportsMenu().children.value;
    if currentPath != "/reports" {
      var i :| 0 <= i < |cs| && cs[i].path == currentPath;
      assert i == 0 || i == 1;
    }
  }

  lemma AdministrationActiveShape(currentPath: string)
    requires IsActive(AdministrationMenu(), currentPath)
    ensures AdministrationShape(currentPath)
  {
    var cs := AdministrationMenu().children.value;
    if currentPath != "/settings" {
      var i :| 0 <= i < |cs| && cs[i].path == currentPath;
      assert i == 0 || i == 1 || i == 2;
    }
  }

  /** The three shapes exclude each other: they differ in the second or the fourth character. */
  lemma ShapesDisjoint(p: string)
    ensures !(PaymentsShape(p) && ReportsShape(p))
    ensures !(PaymentsShape(p) && AdministrationShape(p))
    ensures !(ReportsShape(p) && AdministrationShape(p))
  {
    if |p| >= 4 {
      assert p[..2][1] == p[1] && p[..4][1] == p[1] && p[..4][3] == p[3];
      assert "/p"[1] == 'p' && "/s"[1] == 's' && "/rec"[1] == 'r' && "/rep"[1] == 'r';
      assert "/rec"[3] == 'c' && "/rep"[3] == 'p';
    }
  }

  /** No two menus share a path, so at most one menu is highlighted at a time. */
  lemma AtMostOneActive(currentPath: string)
    ensures forall i, j :: 0 <= i < j < |NavigationItems()| ==>
      !(IsActive(NavigationItems()[i], currentPath) && IsActive(NavigationItems()[j], currentPath))
  {
    ShapesDisjoint(currentPath);
    if IsActive(PaymentsMenu(), currentPath) { PaymentsActiveShape(currentPath); }
    if IsActive(ReportsMenu(), currentPath) { ReportsActiveShape(currentPath); }
    if IsActive(AdministrationMenu(), currentPath) { AdministrationActiveShape(currentPath); }
  }
}
