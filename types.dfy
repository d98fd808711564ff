/** The record schemas of the marketplace (src/types.ts).
    Every TypeScript interface becomes a datatype with one constructor and
    named fields; every string-literal union becomes an enumeration. */
module Types {

  datatype Option<T> = None | Some(value: T)

  /** 'Tourist' | 'Homestay Host' | 'Local Guide' | 'Admin' */
  datatype UserRole = Tourist | HomestayHost | LocalGuide | Admin

  /** The literal stored in JSON for each role. */
  function RoleName(r: UserRole): string {
    match r
    case Tourist => "Tourist"
    case HomestayHost => "Homestay Host"
    case LocalGuide => "Local Guide"
    case Admin => "Admin"
  }

  /** Reads a role back from its stored literal; any other string is not a role. */
  function ParseRole(s: string): (r: Option<UserRole>)
    ensures r.Some? ==> RoleName(r.value) == s
  {
    if s == "Tourist" then Some(Tourist)
    else if s == "Homestay Host" then Some(HomestayHost)
    else if s == "Local Guide" then Some(LocalGuide)
    else if s == "Admin" then Some(Admin)
    else None
  }

  /** The four roles, each once. */
  const AllRoles: seq<UserRole> := [Tourist, HomestayHost, LocalGuide, Admin]

  /** The union has exactly four members: every role is listed, the list has
      no repetition, and the stored literals are pairwise distinct and parse back. */
  lemma RolesAreExactlyFour(r: UserRole, q: UserRole)
    ensures r in AllRoles && |AllRoles| == 4
    ensures forall i, j :: 0 <= i < j < |AllRoles| ==> AllRoles[i] != AllRoles[j]
    ensures RoleName(r) == RoleName(q) <==> r == q
    ensures ParseRole(RoleName(r)) == Some(r)
  {
  }

  /** A Booking's bookedByRole is typed as the single literal 'Tourist'. */
  type TouristRole = r: UserRole | r == Tourist witness Tourist

  datatype User = User(
    id: string,
    email: string,
    name: string,
    role: UserRole,
    preferredLocation: Option<string>,
    phoneNumber: Option<string>)

  datatype PaymentMethod = PaymentMethod(
    id: string,
    userId: string,
    cardHolderName: string,
    cardNumber: string,
    expiryDate: string)

  datatype TicketStatus = Open | Closed

  datatype SupportTicket = SupportTicket(
    id: string,
    userId: string,
    issueType: string,
    message: string,
    status: TicketStatus,
    date: string)

  /** price is a whole number of rupees; rating is only ever compared. */
  datatype Homestay = Homestay(
    id: string,
    name: string,
    location: string,
    price: int,
    rating: real,
    image: string,
    hostId: string,
    description: string)

  datatype TouristPlace = TouristPlace(
    id: string,
    name: string,
    location: string,
    description: string,
    image: string,
    guideId: string,
    category: string)

  datatype BookingStatus = Pending | Confirmed | Cancelled

  /** The one record whose id is a number (a millisecond timestamp). */
  datatype Booking = Booking(
    id: int,
    homestayId: string,
    homestayName: string,
    location: string,
    checkIn: string,
    checkOut: string,
    guests: int,
    bookedBy: string,
    bookedByRole: TouristRole,
    status: BookingStatus,
    totalPrice: int,
    hostId: string)

  /** Every booking is booked in the Tourist role, and its id is a number. */
  lemma BookingRoleIsTourist(b: Booking)
    ensures b.bookedByRole == Tourist && RoleName(b.bookedByRole) == "Tourist"
  {
  }

  datatype Review = Review(
    id: string,
    homestayId: string,
    userId: string,
    userName: string,
    rating: int,
    comment: string,
    date: string)

  datatype Notification = Notification(
    id: string,
    userId: string,
    message: string,
    date: string,
    read: bool)
}
