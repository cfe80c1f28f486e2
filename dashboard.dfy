/** The landing page (`Dashboard`): one view per role, each a fixed table of
    shortcut cards, and a placeholder for a missing or unknown role. */
module Dashboard {
  import opened Lists
  import opened Auth
  import opened Navigation

  /** The view `renderDashboardContent` picks. */
  datatype View = VoyagerView | AdminView | ManagerView | HeadCookView | SupervisorView | UnknownRole

  /** A shortcut card: its icon, its title and the path its button navigates to. */
  datatype Shortcut = Shortcut(icon: Icon, title: string, path: string)

  /** A manager card: a shortcut with a booking count shown on it. */
  datatype BookingCard = BookingCard(icon: Icon, title: string, count: nat, path: string)

  /** The voyager's service cards. */
  const VoyagerServices: seq<Shortcut> := [
    Shortcut(ShoppingCart, "Catering", "/catering"),
    Shortcut(ShoppingBag, "Stationery", "/stationery"),
    Shortcut(Ticket, "Resort & Movies", "/resort-movies"),
    Shortcut(Scissors, "Beauty Salon", "/beauty-salon"),
    Shortcut(Dumbbell, "Fitness Center", "/fitness-center"),
    Shortcut(PartyPopper, "Party Hall", "/party-hall")
  ]

  /** The administrator's action cards. */
  const AdminActions: seq<Shortcut> := [
    Shortcut(PlusCircle, "Add Item", "/add-item"),
    Shortcut(ListIcon, "Manage Items", "/manage-items"),
    Shortcut(Users, "Voyager Registration", "/register-voyager")
  ]

  /** The manager's booking cards. */
  const ManagerBookings: seq<BookingCard> := [
    BookingCard(Ticket, "Resort & Movies", 24, "/resort-movies-bookings"),
    BookingCard(Scissors, "Beauty Salon", 18, "/beauty-salon-bookings"),
    BookingCard(Dumbbell, "Fitness Center", 35, "/fitness-center-bookings"),
    BookingCard(PartyPopper, "Party Hall", 12, "/party-hall-bookings")
  ]

  /** `renderDashboardContent()`: dispatch on `user?.role`. */
  function ViewFor(role: Option<string>): (v: View)
    ensures v == UnknownRole <==> ParseRole(role).None?
  {
    match ParseRole(role)
    case Some(Voyager) => VoyagerView
    case Some(Admin) => AdminView
    case Some(Manager) => ManagerView
    case Some(HeadCook) => HeadCookView
    case Some(Supervisor) => SupervisorView
    case None => UnknownRole
  }

  /** Each role gets its own view: the dispatch is one-to-one on the five roles. */
  lemma ViewsDistinct(r1: Role, r2: Role)
    requires ViewFor(Some(RoleName(r1))) == ViewFor(Some(RoleName(r2)))
    ensures r1 == r2
  {
  }

  /** The shortcuts a view offers, in display order (a manager card as its
      icon, title and path; the head cook and supervisor views have one card). */
  function Shortcuts(v: View): seq<Shortcut>
  {
    match v
    case VoyagerView => VoyagerServices
    case AdminView => AdminActions
    case ManagerView =>
      seq(|ManagerBookings|, i requires 0 <= i < |ManagerBookings| =>
        Shortcut(ManagerBookings[i].icon, ManagerBookings[i].title, ManagerBookings[i].path))
    case HeadCookView => [Shortcut(ChefHat, "Catering Orders", "/catering-orders")]
    case SupervisorView => [Shortcut(ClipboardList, "Stationery Orders", "/stationery-orders")]
    case UnknownRole => []
  }

  /** A menu entry read as a shortcut card. */
  function AsShortcut(item: NavItem): Shortcut
  {
    Shortcut(item.icon, item.title, item.path)
  }

  /** The dashboard and the side menu agree: for every role (and for a missing
      or unknown one), the dashboard's cards are exactly the menu entries after
      "Dashboard", with the same icons, titles and paths, in the same order. */
  lemma ShortcutsMatchMenu(role: Option<string>)
    ensures var items := NavItems(role);
      && |Shortcuts(ViewFor(role))| == (if items == [] then 0 else |items| - 1)
      && forall i :: 0 <= i < |Shortcuts(ViewFor(role))| ==> Shortcuts(ViewFor(role))[i] == AsShortcut(items[i + 1])
  {
  }

  /** The manager's four cards carry the counts 24, 18, 35 and 12, all on `-bookings` paths. */
  lemma ManagerCards()
    ensures |ManagerBookings| == 4
    ensures ManagerBookings[0].count == 24 && ManagerBookings[1].count == 18
    ensures ManagerBookings[2].count == 35 && ManagerBookings[3].count == 12
    ensures forall i :: 0 <= i < 4 ==> var p := ManagerBookings[i].path;
              |p| > 9 && p[|p| - 9..] == "-bookings"
  {
  }
}
