/** The dashboard shell (`DashboardLayout`): the time-of-day greeting, the
    side-menu table keyed by role, the active-entry test, the mobile menu
    toggle and the logout button. */
module Navigation {
  import opened Lists
  import opened Auth

  /** The icons the menus and dashboard cards use. */
  datatype Icon =
    | LayoutDashboard | ShoppingCart | ShoppingBag | Ticket | Scissors | Dumbbell
    | PartyPopper | PlusCircle | ListIcon | Users | ChefHat | ClipboardList

  /** One side-menu entry; `title` holds the entry's `label` (a reserved word in Dafny). */
  datatype NavItem = NavItem(icon: Icon, title: string, path: string)

  /** The greeting for an hour of the day (`new Date().getHours()`). */
  function Greeting(hour: int): (g: string)
    ensures g == "Good morning" <==> hour < 12
    ensures g == "Good afternoon" <==> 12 <= hour < 18
    ensures g == "Good evening" <==> 18 <= hour
  {
    if hour < 12 then "Good morning"
    else if hour < 18 then "Good afternoon"
    else "Good evening"
  }

  /** Position of a greeting in the day, to compare them. */
  function GreetingRank(g: string): nat
  {
    if g == "Good morning" then 0 else if g == "Good afternoon" then 1 else 2
  }

  /** Over the day the greeting only moves forward: morning, afternoon, evening. */
  lemma GreetingMonotone(h1: int, h2: int)
    requires h1 <= h2
    ensures GreetingRank(Greeting(h1)) <= GreetingRank(Greeting(h2))
  {
  }

  /** The first entry of every non-empty menu. */
  const DashboardEntry := NavItem(LayoutDashboard, "Dashboard", "/dashboard")

  /** The fixed menu of each role, in display order. */
  function RoleMenu(r: Role): seq<NavItem>
  {
    match r
    case Voyager => [
      DashboardEntry,
      NavItem(ShoppingCart, "Catering", "/catering"),
      NavItem(ShoppingBag, "Stationery", "/stationery"),
      NavItem(Ticket, "Resort & Movies", "/resort-movies"),
      NavItem(Scissors, "Beauty Salon", "/beauty-salon"),
      NavItem(Dumbbell, "Fitness Center", "/fitness-center"),
      NavItem(PartyPopper, "Party Hall", "/party-hall")]
    case Admin => [
      DashboardEntry,
      NavItem(PlusCircle, "Add Item", "/add-item"),
      NavItem(ListIcon, "Manage Items", "/manage-items"),
      NavItem(Users, "Voyager Registration", "/register-voyager")]
    case Manager => [
      DashboardEntry,
      NavItem(Ticket, "Resort & Movies", "/resort-movies-bookings"),
      NavItem(Scissors, "Beauty Salon", "/beauty-salon-bookings"),
      NavItem(Dumbbell, "Fitness Center", "/fitness-center-bookings"),
      NavItem(PartyPopper, "Party Hall", "/party-hall-bookings")]
    case HeadCook => [
      DashboardEntry,
      NavItem(ChefHat, "Catering Orders", "/catering-orders")]
    case Supervisor => [
      DashboardEntry,
      NavItem(ClipboardList, "Stationery Orders", "/stationery-orders")]
  }

  /** The role a role string names, if any (the `switch` on `user?.role`). */
  function ParseRole(role: Option<string>): (r: Option<Role>)
    ensures r.Some? <==> role.Some? && exists x :: RoleName(x) == role.value
    ensures r.Some? ==> RoleName(r.value) == role.value
  {
    match role
    case None => None
    case Some(s) =>
      if s == "voyager" then assert RoleName(Voyager) == s; Some(Voyager)
      else if s == "admin" then assert RoleName(Admin) == s; Some(Admin)
      else if s == "manager" then assert RoleName(Manager) == s; Some(Manager)
      else if s == "headcook" then assert RoleName(HeadCook) == s; Some(HeadCook)
      else if s == "supervisor" then assert RoleName(Supervisor) == s; Some(Supervisor)
      else
        assert forall x :: RoleName(x) != s;
        None
  }

  /** `getNavItems()`: the menu of the user's role, or none for a missing or unknown role. */
  function NavItems(role: Option<string>): (items: seq<NavItem>)
    ensures items == [] <==> ParseRole(role).None?
    ensures items != [] ==> items[0] == DashboardEntry
  {
    match ParseRole(role)
    case Some(r) => RoleMenu(r)
    case None => []
  }

  /** The paths of a menu, in order. */
  function Paths(items: seq<NavItem>): seq<string>
  {
    seq(|items|, i requires 0 <= i < |items| => items[i].path)
  }

  /** Menu lengths 7, 4, 5, 2, 2; paths within a menu are distinct. */
  lemma RoleMenuShape(r: Role)
    ensures |NavItems(Some(RoleName(r)))| ==
              match r case Voyager => 7 case Admin => 4 case Manager => 5 case HeadCook => 2 case Supervisor => 2
    ensures NoDup(Paths(NavItems(Some(RoleName(r)))))
  {
  }

  /** The menu test `currentPath === item.path`. */
  predicate IsActive(currentPath: string, item: NavItem)
  {
    currentPath == item.path
  }

  /** How many entries of a menu are highlighted for the current path. */
  function ActiveCount(items: seq<NavItem>, currentPath: string): nat
  {
    if items == [] then 0
    else (if IsActive(currentPath, items[0]) then 1 else 0) + ActiveCount(items[1..], currentPath)
  }

  /** With distinct paths, at most one entry is highlighted, and exactly one when the path is in the menu. */
  lemma {:induction false} ActiveAtMostOne(items: seq<NavItem>, currentPath: string)
    requires NoDup(Paths(items))
    ensures ActiveCount(items, currentPath) <= 1
    ensures ActiveCount(items, currentPath) == 1 <==> currentPath in Paths(items)
  {
    if items != [] {
      assert Paths(items)[1..] == Paths(items[1..]);
      ActiveAtMostOne(items[1..], currentPath);
      if IsActive(currentPath, items[0]) {
        assert currentPath !in Paths(items[1..]) by {
          forall k | 0 <= k < |items| - 1
            ensures Paths(items[1..])[k] != currentPath
          {
            assert Paths(items)[k + 1] != Paths(items)[0];
          }
        }
      }
      assert Paths(items) == [items[0].path] + Paths(items[1..]);
    }
  }

  /** For any signed-in role, at most one menu entry is highlighted. */
  lemma OneActiveEntry(role: Option<string>, currentPath: string)
    ensures ActiveCount(NavItems(role), currentPath) <= 1
  {
    match ParseRole(role)
    case Some(r) =>
      RoleMenuShape(r);
      ActiveAtMostOne(NavItems(role), currentPath);
    case None =>
  }

  /** The layout's own state: whether the mobile menu is open. */
  class Layout {
    var mobileMenuOpen: bool

    constructor ()
      ensures !mobileMenuOpen
    {
      mobileMenuOpen := false;
    }

    /** The header menu button. */
    method ToggleMenu()
      modifies this
      ensures mobileMenuOpen == !old(mobileMenuOpen)
    {
      mobileMenuOpen := !mobileMenuOpen;
    }

    /** Following a link in the mobile menu closes the menu and goes to its path. */
    method FollowMobileLink(item: NavItem) returns (target: string)
      modifies this
      ensures !mobileMenuOpen && target == item.path
    {
      mobileMenuOpen := false;
      target := item.path;
    }

    /** `handleLogout`: sign out, then go to the sign-in page. */
    method HandleLogout(auth: AuthProvider) returns (target: string)
      modifies auth, auth.storage
      ensures auth.State() == LoggedOut(old(auth.State()))
      ensures target == "/login"
    {
      auth.Logout();
      target := "/login";
    }
  }
}
