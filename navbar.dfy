/** The navigation bar (src/components/Navbar.tsx): the dashboard link, the
    unread badge, the notification bell and logout. */
module Navbar {
  import opened Types
  import opened Seqs
  import opened Storage
  import App

  /** getDashboardLink: the login page without a user, else the user's dashboard. */
  function DashboardLink(user: Option<User>): (r: string)
    ensures r == "/login" <==> user.None?
  {
    if user.None? then "/login"
    else match user.value.role
      case Tourist => "/dashboard/tourist"
      case HomestayHost => "/dashboard/host"
      case LocalGuide => "/dashboard/guide"
      case Admin => "/dashboard/admin"
  }

  /** The link of every signed-in user is the route that admits that user's
      role, and it shows that role's dashboard; different roles get
      different links. */
  lemma DashboardLinkIsAdmitted(u: User, other: User)
    ensures DashboardLink(Some(u)) == App.DashboardPath(u.role)
    ensures App.Route(DashboardLink(Some(u)), Some(u)) == App.Render(App.DashboardPage(u.role))
    ensures u.role != other.role ==> DashboardLink(Some(u)) != DashboardLink(Some(other))
  {
    App.DashboardAdmitsOneRole(u.role, Some(u));
  }

  /** The number of notifications in the list that are not yet read. */
  function UnreadCount(ns: seq<Notification>): nat {
    |Filter(ns, (n: Notification) => !n.read)|
  }

  /** The badge never exceeds the list, and reads zero exactly when every
      notification in the list is read. */
  lemma UnreadCountSpec(ns: seq<Notification>)
    ensures UnreadCount(ns) <= |ns|
    ensures UnreadCount(ns) == 0 <==> forall n :: n in ns ==> n.read
  {
    var p := (n: Notification) => !n.read;
    FilterIsFilterOf(ns, p);
    FilterMembership(Filter(ns, p), ns, p);
  }

  /** Once the user's notifications are marked read, a fresh load shows no unread badge. */
  lemma NoUnreadAfterMarking(all: seq<Notification>, userId: string)
    ensures UnreadCount(NotificationsOf(MarkedRead(all, userId), userId)) == 0
  {
    MarkedReadClearsUser(all, userId);
    UnreadCountSpec(NotificationsOf(MarkedRead(all, userId), userId));
  }

  class Bar {
    var user: Option<User>
    var notifications: seq<Notification>
    var showNotifications: bool

    /** The list shown belongs to the signed-in user. */
    ghost predicate Valid()
      reads this
    {
      user.Some? ==> forall n :: n in notifications ==> n.userId == user.value.id
    }

    /** Mounting: read the session and, with a user, that user's notifications. */
    constructor (store: Store)
      ensures Valid()
      ensures user == store.GetUser() && !showNotifications
      ensures notifications == if user.Some? then store.GetNotifications(user.value.id) else []
    {
      user := store.session;
      showNotifications := false;
      if store.session.Some? {
        var id := store.session.value.id;
        var mine := store.GetNotifications(id);
        FilterMembership(mine, store.notifications, (n: Notification) => n.userId == id);
        notifications := mine;
      } else {
        notifications := [];
      }
    }

    /** The effect re-run on navigation: re-read the session
        and, with a user, reload that user's notifications (the previous list
        is kept when there is no user). */
    method Reload(store: Store)
      requires Valid()
      modifies this`user, this`notifications
      ensures Valid()
      ensures user == store.GetUser()
      ensures notifications == if user.Some? then store.GetNotifications(user.value.id) else old(notifications)
    {
      user := store.session;
      if store.session.Some? {
        var id := store.session.value.id;
        var mine := store.GetNotifications(id);
        FilterMembership(mine, store.notifications, (n: Notification) => n.userId == id);
        notifications := mine;
      }
    }

    /** The bell, which is only on screen for a signed-in user: opening the
        panel marks that user's stored notifications read; closing it only
        closes it. The list on screen is not reloaded by the click. */
    method ClickBell(store: Store)
      requires user.Some?
      modifies this`showNotifications, store`notifications
      ensures showNotifications == !old(showNotifications)
      ensures store.notifications ==
        if old(showNotifications) then old(store.notifications)
        else MarkedRead(old(store.notifications), user.value.id)
    {
      var wasOpen := showNotifications;
      showNotifications := !showNotifications;
      if !wasOpen {
        store.MarkNotificationsRead(user.value.id);
      }
    }

    /** handleLogout: clears the session slot only; the profile mirror stays. */
    method HandleLogout(store: Store)
      modifies store`session, store`profile
      ensures store.GetUser() == None
      ensures store.profile == old(store.profile)
    {
      store.SetUser(None);
    }
  }
}
