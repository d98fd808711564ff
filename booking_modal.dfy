/** The booking dialog (src/components/BookingModal.tsx): the form state and
    the booking transaction, which makes three ordered store writes. The
    clock reads of the transaction (three `Date.now()` and two
    `new Date().toISOString()`) are separate parameters, because they are
    separate reads. */
module BookingModal {
  import opened Types
  import opened Seqs
  import opened Storage
  import Text

  /** The guest selector offers 1 to 6 guests. */
  const GuestOptions: seq<int> := [1, 2, 3, 4, 5, 6]
  const InitialGuests: int := 1

  /** The booking record of handleBooking. */
  function NewBooking(h: Homestay, u: User, stamp: int, checkIn: string, checkOut: string, guests: int): Booking {
    Booking(
      id := stamp,
      homestayId := h.id,
      homestayName := h.name,
      location := h.location,
      checkIn := checkIn,
      checkOut := checkOut,
      guests := guests,
      bookedBy := u.id,
      bookedByRole := Tourist,
      status := Confirmed,
      totalPrice := h.price * 1,
      hostId := h.hostId)
  }

  /** The tourist's confirmation. */
  function TouristNotice(h: Homestay, u: User, stamp: int, date: string): Notification {
    Notification(
      Text.IntToString(stamp),
      u.id,
      "Accommodation Booked Successfully! Your stay at " + h.name + " is confirmed.",
      date,
      false)
  }

  /** The host's alert; its id is a later clock read plus one. */
  function HostNotice(h: Homestay, u: User, stamp: int, date: string): Notification {
    Notification(
      Text.IntToString(stamp + 1),
      h.hostId,
      "New booking received for " + h.name + " from " + u.name + ".",
      date,
      false)
  }

  /** What each inbox shows after the two prepends, when tourist and host differ:
      the tourist sees the confirmation first, the host sees the alert first,
      and everything each of them saw before follows unchanged. */
  lemma {:induction false} InboxesAfterBooking(all: seq<Notification>, hostNote: Notification, touristNote: Notification)
    requires hostNote.userId != touristNote.userId
    ensures NotificationsOf([hostNote, touristNote] + all, touristNote.userId)
         == [touristNote] + NotificationsOf(all, touristNote.userId)
    ensures NotificationsOf([hostNote, touristNote] + all, hostNote.userId)
         == [hostNote] + NotificationsOf(all, hostNote.userId)
  {
    var pT := (n: Notification) => n.userId == touristNote.userId;
    var pH := (n: Notification) => n.userId == hostNote.userId;
    FilterConcat([hostNote, touristNote], all, pT);
    FilterConcat([hostNote, touristNote], all, pH);
    assert [hostNote, touristNote][1..] == [touristNote];
    assert [touristNote][1..] == [];
  }

  /** The dialog for one homestay and one signed-in user. */
  class BookingForm {
    const homestay: Homestay
    const user: User
    var checkIn: string
    var checkOut: string
    var guests: int
    var isSubmitting: bool
    var showSuccess: bool

    /** The guest count is always one of the offered options. */
    ghost predicate Valid()
      reads this
    {
      guests in GuestOptions
    }

    constructor (homestay: Homestay, user: User)
      ensures Valid()
      ensures this.homestay == homestay && this.user == user
      ensures checkIn == "" && checkOut == "" && guests == InitialGuests
      ensures !isSubmitting && !showSuccess
    {
      this.homestay, this.user := homestay, user;
      checkIn, checkOut, guests := "", "", 1;
      isSubmitting, showSuccess := false, false;
    }

    /** Choosing an entry of the guest selector. */
    method SelectGuests(n: int)
      requires n in GuestOptions
      modifies this`guests
      ensures Valid() && guests == n
    {
      guests := n;
    }

    /** Picking the check-in date. */
    method SetCheckIn(date: string)
      requires Valid()
      modifies this`checkIn
      ensures Valid() && checkIn == date
    {
      checkIn := date;
    }

    /** Picking the check-out date. */
    method SetCheckOut(date: string)
      requires Valid()
      modifies this`checkOut
      ensures Valid() && checkOut == date
    {
      checkOut := date;
    }

    /** handleBooking: one booking appended, then the tourist's and the host's
        notifications prepended in that order, so the host's ends up first.
        No other collection of the store changes. */
    method HandleBooking(store: Store, bookingStamp: int, touristStamp: int, touristDate: string,
                         hostStamp: int, hostDate: string)
      requires Valid()
      modifies this`isSubmitting, this`showSuccess, store`bookings, store`notifications
      ensures Valid() && isSubmitting && showSuccess
      ensures |store.bookings| == |old(store.bookings)| + 1
      ensures store.bookings[..|old(store.bookings)|] == old(store.bookings)
      ensures var b := store.bookings[|old(store.bookings)|];
        && b == NewBooking(homestay, user, bookingStamp, checkIn, checkOut, guests)
        && b.homestayId == homestay.id && b.homestayName == homestay.name
        && b.location == homestay.location && b.hostId == homestay.hostId
        && b.bookedBy == user.id && b.bookedByRole == Tourist && b.status == Confirmed
        && b.totalPrice == homestay.price
        && 1 <= b.guests <= 6
      ensures store.notifications
           == [HostNotice(homestay, user, hostStamp, hostDate), TouristNotice(homestay, user, touristStamp, touristDate)]
              + old(store.notifications)
      ensures store.notifications[0].userId == homestay.hostId && !store.notifications[0].read
      ensures store.notifications[1].userId == user.id && !store.notifications[1].read
    {
      isSubmitting := true;
      var booking := NewBooking(homestay, user, bookingStamp, checkIn, checkOut, guests);
      store.SaveBooking(booking);
      store.AddNotification(TouristNotice(homestay, user, touristStamp, touristDate));
      store.AddNotification(HostNotice(homestay, user, hostStamp, hostDate));
      showSuccess := true;
    }
  }
}
