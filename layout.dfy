/** The page frame: the unread badge, the menu of each role, the header title and the two
    drop-down flags of the header. */
module LayoutFrame {
  import opened Wrappers
  import opened Domain
  import opened ClientStore
  import Seqs

  const NotificationLimit := 10

  predicate IsUnread(n: Notification) {
    !n.isRead
  }

  /** `data.filter((n) => !n.is_read).length`. */
  function UnreadCount(ns: seq<Notification>): (c: nat)
    ensures c <= |ns|
    ensures c == 0 <==> forall n :: n in ns ==> n.isRead
  {
    var unread := Seqs.Filter(ns, IsUnread);
    assert unread != [] ==> unread[0] in unread;
    |unread|
  }

  /** The badge over the bell is shown iff something is unread. */
  function ShowsBadge(ns: seq<Notification>): (shown: bool)
    ensures shown <==> exists n :: n in ns && !n.isRead
  {
    UnreadCount(ns) > 0
  }

  /** The loaded list holds at most ten notifications, so the badge never counts more than ten. */
  lemma UnreadAtMostTen(all: seq<Notification>, userId: Id)
    ensures UnreadCount(FetchNotifications(all, userId, NotificationLimit)) <= 10
  {
  }

  datatype MenuItem = MenuItem(id: string, caption: string)

  /** `menuItems`: six entries for an admin, the first four of them for sales. */
  function MenuItems(role: Role): (items: seq<MenuItem>)
    ensures role == Admin ==> |items| == 6
    ensures role == Sales ==> |items| == 4
    ensures role == Admin ==> items[4].id == "users" && items[5].id == "reports"
  {
    var common := [MenuItem("dashboard", "Dashboard"), MenuItem("prospects", "Daftar Prospek"),
                   MenuItem("follow-ups", "Daftar Follow Up"), MenuItem("profile", "Profil")];
    if role == Admin then common + [MenuItem("users", "User Management"), MenuItem("reports", "Laporan")]
    else common
  }

  /** The sales menu is the admin menu without its last two entries. */
  lemma SalesMenuIsAdminPrefix()
    ensures MenuItems(Sales) == MenuItems(Admin)[..4]
  {
  }

  /** The sales menu has neither the user management nor the report entry. */
  lemma SalesMenuHasNoAdminPages()
    ensures forall item :: item in MenuItems(Sales) ==> item.id != "users" && item.id != "reports"
  {
    var items := MenuItems(Sales);
    forall item | item in items ensures item.id != "users" && item.id != "reports" {
      var i :| 0 <= i < 4 && items[i] == item;
      assert i == 0 || i == 1 || i == 2 || i == 3;
    }
  }

  /** `items.find((item) => item.id === page)`, -1 standing for `undefined`. */
  function FindItem(items: seq<MenuItem>, page: string): (k: int)
    ensures -1 <= k < |items|
    ensures k >= 0 ==> items[k].id == page && forall j :: 0 <= j < k ==> items[j].id != page
    ensures k == -1 ==> forall j :: 0 <= j < |items| ==> items[j].id != page
    decreases |items|
  {
    if items == [] then -1
    else if items[0].id == page then 0
    else
      var k := FindItem(items[1..], page);
      if k == -1 then -1 else k + 1
  }

  /** The header title: the matching entry's label, else `Dashboard` (every label is non-empty). */
  function HeaderTitle(role: Role, page: string): (title: string)
    ensures var k := FindItem(MenuItems(role), page);
      (k >= 0 ==> title == MenuItems(role)[k].caption) && (k == -1 ==> title == "Dashboard")
  {
    var items := MenuItems(role);
    var k := FindItem(items, page);
    if k >= 0 && items[k].caption != "" then items[k].caption else "Dashboard"
  }

  /** A page outside the role's menu is titled Dashboard: `users` for a sales user, for instance. */
  lemma HiddenPageTitledDashboard()
    ensures HeaderTitle(Sales, "users") == "Dashboard"
  {
    SalesMenuHasNoAdminPages();
  }

  /** `markAllAsRead`: no call without a profile, else one call for the profile's own id. */
  function MarkAllCall(profile: Option<Profile>): (r: Option<Id>)
    ensures profile.None? <==> r.None?
    ensures profile.Some? ==> r == Some(profile.value.id)
  {
    if profile.None? then None else Some(profile.value.id)
  }

  /** The two drop-downs of the header. */
  class HeaderMenus {
    var showNotifications: bool
    var showUserMenu: bool

    /** Never both open. */
    predicate Valid()
      reads this
    {
      !(showNotifications && showUserMenu)
    }

    constructor()
      ensures Valid() && !showNotifications && !showUserMenu
    {
      showNotifications := false;
      showUserMenu := false;
    }

    /** The bell: toggles the panel and closes the user menu. */
    method ToggleNotifications()
      modifies this
      ensures showNotifications == !old(showNotifications) && !showUserMenu
      ensures Valid()
    {
      showNotifications := !showNotifications;
      showUserMenu := false;
    }

    /** The avatar button: toggles the user menu and closes the panel. */
    method ToggleUserMenu()
      modifies this
      ensures showUserMenu == !old(showUserMenu) && !showNotifications
      ensures Valid()
    {
      showUserMenu := !showUserMenu;
      showNotifications := false;
    }

    /** A change of `currentPage`, or a mouse-down outside both drop-downs: both close. */
    method CloseAll()
      modifies this
      ensures !showNotifications && !showUserMenu
      ensures Valid()
    {
      showNotifications := false;
      showUserMenu := false;
    }

    /** A mouse-down: inside either drop-down nothing changes, outside both close. */
    method MouseDown(insideMenus: bool)
      modifies this
      ensures insideMenus ==> showNotifications == old(showNotifications) && showUserMenu == old(showUserMenu)
      ensures !insideMenus ==> !showNotifications && !showUserMenu
      ensures old(Valid()) ==> Valid()
    {
      if !insideMenus {
        CloseAll();
      }
    }

    /** The profile entry of the user menu navigates to `profile` and closes the menu. */
    method OpenProfile() returns (page: string)
      modifies this
      ensures page == "profile" && !showUserMenu && showNotifications == old(showNotifications)
      ensures old(Valid()) ==> Valid()
    {
      page := "profile";
      showUserMenu := false;
    }
  }
}
