/** The host's dashboard (src/pages/HostDashboard.tsx): which listings and
    bookings it shows, the earnings figure, and the add and delete handlers. */
module HostDashboard {
  import opened Types
  import opened Seqs
  import opened Storage
  import Text

  /** The image used when the form's image field is left empty. */
  const DefaultImage: string := "https://images.unsplash.com/photo-1566073771259-6a8506099945?auto=format&fit=crop&q=80&w=800"

  /** The flat amount counted per booking in the earnings figure. */
  const EarningPerBooking: int := 2500

  /** The stored homestays whose host is the given user, in stored order. */
  function HostListings(all: seq<Homestay>, hostId: string): seq<Homestay> {
    Filter(all, (h: Homestay) => h.hostId == hostId)
  }

  /** The ids of the listings, position by position. */
  function ListingIds(listings: seq<Homestay>): (ids: seq<string>)
    ensures |ids| == |listings|
  {
    seq(|listings|, i requires 0 <= i < |listings| => listings[i].id)
  }

  /** The stored bookings whose homestay is one of the listings, in stored order. */
  function HostBookings(all: seq<Booking>, listings: seq<Homestay>): seq<Booking> {
    Filter(all, (b: Booking) => b.homestayId in ListingIds(listings))
  }

  /** The earnings fold from a running total acc: each booking adds the flat amount. */
  function EarningsFrom(bookings: seq<Booking>, acc: int): int {
    if bookings == [] then acc else EarningsFrom(bookings[1..], acc + EarningPerBooking)
  }

  /** The earnings fold started from zero. */
  function Earnings(bookings: seq<Booking>): int {
    EarningsFrom(bookings, 0)
  }

  lemma {:induction false} EarningsFromCount(bookings: seq<Booking>, acc: int)
    ensures EarningsFrom(bookings, acc) == acc + EarningPerBooking * |bookings|
  {
    if bookings != [] {
      EarningsFromCount(bookings[1..], acc + EarningPerBooking);
    }
  }

  /** The earnings shown are 2500 per booking, whatever the bookings' prices. */
  lemma EarningsAreFlat(bookings: seq<Booking>, others: seq<Booking>)
    ensures Earnings(bookings) == EarningPerBooking * |bookings|
    ensures |others| == |bookings| ==> Earnings(others) == Earnings(bookings)
  {
    EarningsFromCount(bookings, 0);
    EarningsFromCount(others, 0);
  }

  /** The listings shown are exactly the stored homestays of the host, in stored order. */
  lemma HostListingsSpec(all: seq<Homestay>, hostId: string)
    ensures IsFilterOf(HostListings(all, hostId), all, (h: Homestay) => h.hostId == hostId)
    ensures forall h :: h in HostListings(all, hostId) <==> h in all && h.hostId == hostId
  {
    FilterIsFilterOf(all, (h: Homestay) => h.hostId == hostId);
    FilterMembership(HostListings(all, hostId), all, (h: Homestay) => h.hostId == hostId);
  }

  /** A booking is shown exactly when it is stored and its homestayId is the id
      of one of the listings; the booking's own hostId plays no part. */
  lemma HostBookingsSpec(all: seq<Booking>, listings: seq<Homestay>)
    ensures forall b :: b in HostBookings(all, listings) <==>
      b in all && exists h :: h in listings && h.id == b.homestayId
  {
    var p := (b: Booking) => b.homestayId in ListingIds(listings);
    FilterIsFilterOf(all, p);
    FilterMembership(HostBookings(all, listings), all, p);
    forall b: Booking
      ensures b.homestayId in ListingIds(listings) <==> exists h :: h in listings && h.id == b.homestayId
    {
      if b.homestayId in ListingIds(listings) {
        var i :| 0 <= i < |listings| && ListingIds(listings)[i] == b.homestayId;
        assert listings[i] in listings;
      }
      if exists h :: h in listings && h.id == b.homestayId {
        var h :| h in listings && h.id == b.homestayId;
        var i :| 0 <= i < |listings| && listings[i] == h;
        assert ListingIds(listings)[i] == b.homestayId;
      }
    }
  }

  /** The record made by handleAddHomestay. */
  function NewListing(host: User, name: string, location: string, price: int, description: string,
                      image: string, stamp: int): Homestay {
    Homestay(
      id := Text.IntToString(stamp),
      name := name,
      location := location,
      price := price,
      rating := 5.0,
      image := if image != "" then image else DefaultImage,
      hostId := host.id,
      description := description)
  }

  function ListingNotice(host: User, name: string, stamp: int, date: string): Notification {
    Notification(
      Text.IntToString(stamp),
      host.id,
      "Your homestay \"" + name + "\" has been listed successfully!",
      date,
      false)
  }

  /** Adding a listing of the host to the store adds it at the end of what
      the dashboard derives for that host. */
  lemma {:induction false} AddedListingShowsLast(all: seq<Homestay>, h: Homestay)
    ensures HostListings(all + [h], h.hostId) == HostListings(all, h.hostId) + [h]
  {
    FilterConcat(all, [h], (x: Homestay) => x.hostId == h.hostId);
    assert [h][1..] == [];
  }

  /** Deleting by id and selecting a host's listings commute. */
  lemma DeleteCommutesWithListings(all: seq<Homestay>, hostId: string, id: string)
    ensures RemoveById(HostListings(all, hostId), HomestayKey, id)
         == HostListings(RemoveById(all, HomestayKey, id), hostId)
  {
    var pHost := (h: Homestay) => h.hostId == hostId;
    var pKeep := KeepOthers(HomestayKey, id);
    FilterFilter(all, pHost, pKeep);
    FilterFilter(all, pKeep, pHost);
    FilterExt(all, And(pHost, pKeep), And(pKeep, pHost));
  }

  class Dashboard {
    /** The user read from the session when the page mounted. */
    var user: Option<User>
    /** The host's listings on screen. */
    var listings: seq<Homestay>
    /** The bookings on screen. */
    var bookings: seq<Booking>

    /** The listings on screen are the host's stored listings. */
    ghost predicate InSync(store: Store)
      reads this, store
    {
      user.Some? ==> listings == HostListings(store.homestays, user.value.id)
    }

    /** The mount effect: with a signed-in user, derive the host's listings and
        the bookings of those listings; without one, show nothing. */
    constructor (store: Store)
      ensures user == store.session
      ensures InSync(store)
      ensures user.Some? ==> bookings == HostBookings(store.bookings, listings)
      ensures user.None? ==> listings == [] && bookings == []
    {
      user := store.session;
      if store.session.Some? {
        var mine := HostListings(store.homestays, store.session.value.id);
        listings := mine;
        bookings := HostBookings(store.bookings, mine);
      } else {
        listings, bookings := [], [];
      }
    }

    /** The "Total Earnings" figure. */
    function TotalEarnings(): (e: int)
      reads this
      ensures e == EarningPerBooking * |bookings|
    {
      EarningsAreFlat(bookings, bookings);
      Earnings(bookings)
    }

    /** handleAddHomestay: without a user nothing happens; otherwise the new
        listing is appended to the store and to the list on screen, and one
        unread notification for the host is prepended. */
    method HandleAddHomestay(store: Store, name: string, location: string, price: int,
                             description: string, image: string,
                             listingStamp: int, noticeStamp: int, noticeDate: string)
      requires InSync(store)
      modifies this`listings, store`homestays, store`notifications
      ensures InSync(store)
      ensures user.None? ==>
        && store.homestays == old(store.homestays) && listings == old(listings)
        && store.notifications == old(store.notifications)
      ensures user.Some? ==>
        var h := NewListing(user.value, name, location, price, description, image, listingStamp);
        && h.hostId == user.value.id && h.rating == 5.0
        && h.image == (if image == "" then DefaultImage else image)
        && store.homestays == old(store.homestays) + [h]
        && listings == old(listings) + [h]
        && store.notifications == [ListingNotice(user.value, name, noticeStamp, noticeDate)] + old(store.notifications)
        && store.notifications[0].userId == user.value.id && !store.notifications[0].read
    {
      if user.None? {
        return;
      }
      var host := user.value;
      var h := NewListing(host, name, location, price, description, image, listingStamp);
      AddedListingShowsLast(store.homestays, h);
      store.SaveHomestay(h);
      listings := listings + [h];
      store.AddNotification(ListingNotice(host, name, noticeStamp, noticeDate));
    }

    /** handleDelete: once confirmed, the id is removed from the store and
        from the list on screen. The handler itself does not look at the user. */
    method HandleDelete(store: Store, id: string, confirmed: bool)
      requires InSync(store)
      modifies this`listings, store`homestays
      ensures InSync(store)
      ensures confirmed ==>
        && store.homestays == RemoveById(old(store.homestays), HomestayKey, id)
        && listings == RemoveById(old(listings), HomestayKey, id)
      ensures !confirmed ==> store.homestays == old(store.homestays) && listings == old(listings)
    {
      if confirmed {
        if user.Some? {
          DeleteCommutesWithListings(store.homestays, user.value.id, id);
        }
        store.DeleteHomestay(id);
        listings := RemoveById(listings, HomestayKey, id);
      }
    }
  }
}
