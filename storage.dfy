/** The client-side data-access layer (src/utils/storage.ts).

    The browser's key-value store is modelled as one object holding one
    field per key: a sequence for every collection key and an optional user
    for each of the two session keys. A key that was never written reads as
    the empty sequence (or no user), which is what the constructor sets up.
    Every mutating operation is a read-modify-write of its own key (setUser
    with a user writes both session keys); its frame (`modifies this`field`)
    says that no other key changes, so none of the deletes cascades to
    another collection. */
module Storage {
  import opened Types
  import opened Seqs
  import Text

  /*** Pure operations on one collection ***/

  /** The id compared by deleteHomestay, deleteTouristPlace and deleteUser. */
  function HomestayKey(h: Homestay): string { h.id }
  function PlaceKey(p: TouristPlace): string { p.id }
  function UserKey(u: User): string { u.id }

  /** deleteBooking compares the booking id printed in decimal. */
  function BookingKey(b: Booking): string { Text.IntToString(b.id) }

  /** The argument of deleteBooking, which may be a number or a string. */
  datatype BookingRef = NumberRef(n: int) | TextRef(s: string)

  /** The printed form of deleteBooking's argument: a number in decimal, a string as is. */
  function RefText(r: BookingRef): string {
    match r
    case NumberRef(n) => Text.IntToString(n)
    case TextRef(s) => s
  }

  /** The test of the delete operations: a record stays when its key differs from id. */
  function KeepOthers<T>(key: T -> string, id: string): T -> bool {
    x => key(x) != id
  }

  /** The delete operations: keep every record whose key differs from id. */
  function RemoveById<T>(s: seq<T>, key: T -> string, id: string): seq<T> {
    Filter(s, KeepOthers(key, id))
  }

  /** Number of records in s whose key is id. */
  function CountId<T>(s: seq<T>, key: T -> string, id: string): nat {
    |Filter(s, x => key(x) == id)|
  }

  /** A delete keeps, in their original order and with their multiplicity,
      exactly the records whose key differs from id; deleting an id that is
      not present changes nothing. */
  lemma RemoveByIdSpec<T(!new)>(s: seq<T>, key: T -> string, id: string)
    ensures Subseq(RemoveById(s, key, id), s)
    ensures forall x :: multiset(RemoveById(s, key, id))[x] == if key(x) == id then 0 else multiset(s)[x]
    ensures forall x :: x in RemoveById(s, key, id) <==> x in s && key(x) != id
    ensures (forall x :: x in s ==> key(x) != id) ==> RemoveById(s, key, id) == s
  {
    FilterIsFilterOf(s, KeepOthers(key, id));
    FilterMembership(RemoveById(s, key, id), s, KeepOthers(key, id));
    if forall x :: x in s ==> key(x) != id {
      FilterKeepsAll(s, KeepOthers(key, id));
    }
  }

  /** Deleting the id of a record just saved gives what deleting it before
      the save would have given: the rest is untouched and in order. */
  lemma RemoveAfterAppend<T>(s: seq<T>, key: T -> string, x: T)
    ensures RemoveById(s + [x], key, key(x)) == RemoveById(s, key, key(x))
  {
    FilterConcat(s, [x], KeepOthers(key, key(x)));
    assert [x][1..] == [];
  }

  /** Saving never de-duplicates: two saves with the same id leave two more
      records carrying that id. */
  lemma AppendKeepsDuplicates<T>(s: seq<T>, key: T -> string, a: T, b: T)
    requires key(a) == key(b)
    ensures CountId(s + [a] + [b], key, key(a)) == CountId(s, key, key(a)) + 2
  {
    var id := key(a);
    FilterConcat(s + [a], [b], x => key(x) == id);
    FilterConcat(s, [a], x => key(x) == id);
    assert [a][1..] == [] && [b][1..] == [];
  }

  /** Deleting a booking by a number removes exactly the bookings with that id. */
  lemma DeleteBookingByNumber(bs: seq<Booking>, n: int)
    ensures forall b :: b in RemoveById(bs, BookingKey, RefText(NumberRef(n))) <==> b in bs && b.id != n
  {
    RemoveByIdSpec(bs, BookingKey, RefText(NumberRef(n)));
    forall b: Booking ensures BookingKey(b) == RefText(NumberRef(n)) <==> b.id == n {
      Text.IntToStringInjective(b.id, n);
    }
  }

  /** The comparison is on printed ids: the string "07" does not delete booking 7. */
  lemma DeleteBookingByPaddedText(b: Booking)
    requires b.id == 7
    ensures RemoveById([b], BookingKey, RefText(TextRef("07"))) == [b]
  {
    assert BookingKey(b) == "7";
    RemoveByIdSpec([b], BookingKey, RefText(TextRef("07")));
  }

  /** The records of one user, in stored order, for the three user-scoped getters. */
  function NotificationsOf(all: seq<Notification>, userId: string): seq<Notification> {
    Filter(all, (n: Notification) => n.userId == userId)
  }

  function PaymentMethodsOf(all: seq<PaymentMethod>, userId: string): seq<PaymentMethod> {
    Filter(all, (m: PaymentMethod) => m.userId == userId)
  }

  function SupportTicketsOf(all: seq<SupportTicket>, userId: string): seq<SupportTicket> {
    Filter(all, (t: SupportTicket) => t.userId == userId)
  }

  /** Registry ids are pairwise distinct. */
  predicate UniqueIds(users: seq<User>) {
    forall i, j :: 0 <= i < j < |users| ==> users[i].id != users[j].id
  }

  /** saveUserToRegistry: append unless some registered user has the same id. */
  function Register(users: seq<User>, u: User): seq<User> {
    if exists v :: v in users && v.id == u.id then users else users + [u]
  }

  /** After registering, a user with that id is registered; nothing already
      registered is lost, and the registry grows by at most one. */
  lemma RegisterSpec(users: seq<User>, u: User)
    ensures exists v :: v in Register(users, u) && v.id == u.id
    ensures users <= Register(users, u)
    ensures |Register(users, u)| <= |users| + 1
    ensures (forall v :: v in users ==> v.id != u.id) <==> Register(users, u) == users + [u]
    ensures (exists v :: v in users && v.id == u.id) ==> Register(users, u) == users
  {
    if forall v :: v in users ==> v.id != u.id {
      assert u in users + [u];
    }
  }

  /** Registering the same user twice is registering once. */
  lemma RegisterIdempotent(users: seq<User>, u: User)
    ensures Register(Register(users, u), u) == Register(users, u)
  {
    RegisterSpec(users, u);
  }

  /** Registration keeps registry ids unique. */
  lemma RegisterKeepsIdsUnique(users: seq<User>, u: User)
    requires UniqueIds(users)
    ensures UniqueIds(Register(users, u))
  {
    var r := Register(users, u);
    if r != users {
      forall i, j | 0 <= i < j < |r| ensures r[i].id != r[j].id {
        if j == |users| {
          assert r[i] in users;
        }
      }
    }
  }

  /** Two registrations add two entries for two different ids, one for the same id. */
  lemma RegisterTwo(users: seq<User>, a: User, b: User)
    requires forall v :: v in users ==> v.id != a.id && v.id != b.id
    ensures |Register(Register(users, a), b)| == |users| + (if a.id == b.id then 1 else 2)
  {
    RegisterSpec(users, a);
    var r := Register(users, a);
    if a.id == b.id {
      assert a in r;
    } else {
      assert forall v :: v in r ==> v.id != b.id;
      RegisterSpec(r, b);
    }
  }

  /** markNotificationsRead: every notification of the user gets read set to
      true; all others, and the order, are left as they are. */
  function MarkedRead(all: seq<Notification>, userId: string): (r: seq<Notification>)
    ensures |r| == |all|
  {
    seq(|all|, i requires 0 <= i < |all| =>
      if all[i].userId == userId then all[i].(read := true) else all[i])
  }

  /** Marking reads sets `read` on exactly the user's notifications and changes
      no other field, position or length. */
  lemma MarkedReadSpec(all: seq<Notification>, userId: string, i: int)
    requires 0 <= i < |all|
    ensures MarkedRead(all, userId)[i].read == (all[i].read || all[i].userId == userId)
    ensures MarkedRead(all, userId)[i].(read := all[i].read) == all[i]
  {
  }

  /** A second call changes nothing. */
  lemma MarkedReadIdempotent(all: seq<Notification>, userId: string)
    ensures MarkedRead(MarkedRead(all, userId), userId) == MarkedRead(all, userId)
  {
  }

  /** Afterwards every notification of the user reads as read. */
  lemma {:induction false} MarkedReadClearsUser(all: seq<Notification>, userId: string)
    ensures forall n :: n in NotificationsOf(MarkedRead(all, userId), userId) ==> n.read
  {
    forall n | n in NotificationsOf(MarkedRead(all, userId), userId) ensures n.read {
      var m := MarkedRead(all, userId);
      assert n in m;
      var i :| 0 <= i < |m| && m[i] == n;
    }
  }

  /** Another user's notifications are left exactly as they were. */
  lemma {:induction false} MarkedReadLeavesOthers(all: seq<Notification>, userId: string, other: string)
    requires other != userId
    ensures NotificationsOf(MarkedRead(all, userId), other) == NotificationsOf(all, other)
  {
    if all != [] {
      MarkedReadLeavesOthers(all[1..], userId, other);
      assert MarkedRead(all, userId)[1..] == MarkedRead(all[1..], userId);
    }
  }

  /*** The store ***/

  class Store {
    /** 'tourist_app_user': the signed-in session. */
    var session: Option<User>
    /** 'userProfile': a mirror written only when a user is set. */
    var profile: Option<User>
    var homestays: seq<Homestay>          // 'homestays'
    var touristPlaces: seq<TouristPlace>  // 'touristPlaces'
    var bookings: seq<Booking>            // 'bookings'
    var reviews: seq<Review>              // 'reviews'
    var notifications: seq<Notification>  // 'notifications', newest first
    var paymentMethods: seq<PaymentMethod>  // 'paymentMethods'
    var supportTickets: seq<SupportTicket>  // 'supportTickets'
    var allUsers: seq<User>               // 'all_users', the registry

    /** A store in which no key has been written: every getter reads empty. */
    constructor ()
      ensures GetUser() == None && profile == None
      ensures GetHomestays() == [] && GetTouristPlaces() == [] && GetBookings() == []
      ensures GetReviews() == [] && GetAllUsers() == []
      ensures forall u :: GetNotifications(u) == [] && GetPaymentMethods(u) == [] && GetSupportTickets(u) == []
    {
      session, profile := None, None;
      homestays, touristPlaces, bookings, reviews := [], [], [], [];
      notifications, paymentMethods, supportTickets, allUsers := [], [], [], [];
    }

    /** getUser reads the session slot only, never the profile mirror. */
    function GetUser(): (u: Option<User>)
      reads this
      ensures u == session
    {
      session
    }

    /** Setting a user writes both slots; clearing removes only the session
        and leaves the profile mirror as it was. */
    method SetUser(user: Option<User>)
      modifies this`session, this`profile
      ensures GetUser() == user
      ensures profile == if user.Some? then user else old(profile)
    {
      if user.Some? {
        session := user;
        profile := user;
      } else {
        session := None;
      }
    }

    /** The payment methods of one user, in stored order. */
    function GetPaymentMethods(userId: string): (r: seq<PaymentMethod>)
      reads this
      ensures IsFilterOf(r, paymentMethods, (m: PaymentMethod) => m.userId == userId)
    {
      FilterIsFilterOf(paymentMethods, (m: PaymentMethod) => m.userId == userId);
      PaymentMethodsOf(paymentMethods, userId)
    }

    method SavePaymentMethod(m: PaymentMethod)
      modifies this`paymentMethods
      ensures paymentMethods == old(paymentMethods) + [m]
    {
      paymentMethods := paymentMethods + [m];
    }

    /** The support tickets of one user, in stored order. */
    function GetSupportTickets(userId: string): (r: seq<SupportTicket>)
      reads this
      ensures IsFilterOf(r, supportTickets, (t: SupportTicket) => t.userId == userId)
    {
      FilterIsFilterOf(supportTickets, (t: SupportTicket) => t.userId == userId);
      SupportTicketsOf(supportTickets, userId)
    }

    method SaveSupportTicket(t: SupportTicket)
      modifies this`supportTickets
      ensures supportTickets == old(supportTickets) + [t]
    {
      supportTickets := supportTickets + [t];
    }

    /** The whole stored collection, unfiltered, in stored order. */
    function GetHomestays(): (r: seq<Homestay>)
      reads this
      ensures r == homestays
    {
      homestays
    }

    method SaveHomestay(h: Homestay)
      modifies this`homestays
      ensures homestays == old(homestays) + [h]
    {
      homestays := homestays + [h];
    }

    method DeleteHomestay(id: string)
      modifies this`homestays
      ensures homestays == RemoveById(old(homestays), HomestayKey, id)
    {
      homestays := RemoveById(homestays, HomestayKey, id);
    }

    /** The whole stored collection, unfiltered, in stored order. */
    function GetTouristPlaces(): (r: seq<TouristPlace>)
      reads this
      ensures r == touristPlaces
    {
      touristPlaces
    }

    method SaveTouristPlace(p: TouristPlace)
      modifies this`touristPlaces
      ensures touristPlaces == old(touristPlaces) + [p]
    {
      touristPlaces := touristPlaces + [p];
    }

    method DeleteTouristPlace(id: string)
      modifies this`touristPlaces
      ensures touristPlaces == RemoveById(old(touristPlaces), PlaceKey, id)
    {
      touristPlaces := RemoveById(touristPlaces, PlaceKey, id);
    }

    /** The whole stored collection, unfiltered, in stored order. */
    function GetBookings(): (r: seq<Booking>)
      reads this
      ensures r == bookings
    {
      bookings
    }

    method SaveBooking(b: Booking)
      modifies this`bookings
      ensures bookings == old(bookings) + [b]
    {
      bookings := bookings + [b];
    }

    /** Removes every booking whose printed id equals the printed argument. */
    method DeleteBooking(id: BookingRef)
      modifies this`bookings
      ensures bookings == RemoveById(old(bookings), BookingKey, RefText(id))
    {
      bookings := RemoveById(bookings, BookingKey, RefText(id));
    }

    /** The whole stored collection, unfiltered, in stored order. */
    function GetAllUsers(): (r: seq<User>)
      reads this
      ensures r == allUsers
    {
      allUsers
    }

    method SaveUserToRegistry(u: User)
      modifies this`allUsers
      ensures allUsers == Register(old(allUsers), u)
    {
      var found := exists v :: v in allUsers && v.id == u.id;
      if !found {
        allUsers := allUsers + [u];
      }
    }

    method DeleteUser(id: string)
      modifies this`allUsers
      ensures allUsers == RemoveById(old(allUsers), UserKey, id)
    {
      allUsers := RemoveById(allUsers, UserKey, id);
    }

    /** The whole stored collection, unfiltered, in stored order. */
    function GetReviews(): (r: seq<Review>)
      reads this
      ensures r == reviews
    {
      reviews
    }

    method SaveReview(r: Review)
      modifies this`reviews
      ensures reviews == old(reviews) + [r]
    {
      reviews := reviews + [r];
    }

    /** The notifications of one user, newest first as stored. */
    function GetNotifications(userId: string): (r: seq<Notification>)
      reads this
      ensures IsFilterOf(r, notifications, (n: Notification) => n.userId == userId)
    {
      FilterIsFilterOf(notifications, (n: Notification) => n.userId == userId);
      NotificationsOf(notifications, userId)
    }

    /** The new notification goes in front; the rest shift back by one. */
    method AddNotification(n: Notification)
      modifies this`notifications
      ensures |notifications| == |old(notifications)| + 1
      ensures notifications[0] == n && notifications[1..] == old(notifications)
    {
      notifications := [n] + notifications;
    }

    method MarkNotificationsRead(userId: string)
      modifies this`notifications
      ensures notifications == MarkedRead(old(notifications), userId)
    {
      notifications := MarkedRead(notifications, userId);
    }
  }

  /** A homestay deleted after a booking was made for it leaves the booking
      in place: deletes do not cascade. */
  method NoCascadeScenario(h: Homestay, b: Booking) returns (homestays: seq<Homestay>, bookings: seq<Booking>)
    requires b.homestayId == h.id
    ensures homestays == [] && bookings == [b]
  {
    var store := new Store();
    store.SaveHomestay(h);
    store.SaveBooking(b);
    store.DeleteHomestay(h.id);
    RemoveByIdSpec([h], HomestayKey, h.id);
    homestays, bookings := store.GetHomestays(), store.GetBookings();
  }
}
