/** The records the dashboard receives from the backend, reduced to the
    fields some decision on a page depends on. */
module Entities {
  import opened Js

  datatype Role = Parent | Nanny | Admin

  /** The role as the backend spells it. */
  function RoleName(r: Role): string {
    match r
    case Parent => "parent"
    case Nanny => "nanny"
    case Admin => "admin"
  }

  function ParseRole(s: string): (r: Option<Role>)
    ensures r.Some? ==> RoleName(r.value) == s
  {
    if s == "parent" then Some(Parent)
    else if s == "nanny" then Some(Nanny)
    else if s == "admin" then Some(Admin)
    else None
  }

  /** Role names spell each role uniquely and are read back exactly. */
  lemma RoleNameRoundTrip(r: Role)
    ensures ParseRole(RoleName(r)) == Some(r)
  {
  }

  datatype BookingStatus = Pending | Confirmed | InProgress | Completed | Cancelled | Rejected

  /** The status as the backend spells it. */
  function StatusName(s: BookingStatus): string {
    match s
    case Pending => "pending"
    case Confirmed => "confirmed"
    case InProgress => "in-progress"
    case Completed => "completed"
    case Cancelled => "cancelled"
    case Rejected => "rejected"
  }

  function ParseStatus(s: string): (r: Option<BookingStatus>)
    ensures r.Some? ==> StatusName(r.value) == s
  {
    if s == "pending" then Some(Pending)
    else if s == "confirmed" then Some(Confirmed)
    else if s == "in-progress" then Some(InProgress)
    else if s == "completed" then Some(Completed)
    else if s == "cancelled" then Some(Cancelled)
    else if s == "rejected" then Some(Rejected)
    else None
  }

  lemma StatusNameRoundTrip(s: BookingStatus)
    ensures ParseStatus(StatusName(s)) == Some(s)
  {
  }

  /** A booking; `id` is the database `_id`, `bookingId` the displayed code. */
  datatype Booking = Booking(
    id: string,
    bookingId: string,
    parentName: Option<string>,
    nannyName: Option<string>,
    totalAmount: int,
    status: BookingStatus)

  datatype User = User(
    id: string,
    name: Option<string>,
    email: Option<string>,
    phoneNumber: string,
    role: Role,
    isVerified: bool,
    isDeactivated: bool)

  /** A daycare centre or an elder-care provider. */
  datatype Provider = Provider(
    id: string,
    centerName: Option<string>,
    name: Option<string>,
    ownerName: Option<string>,
    city: Option<string>,
    phoneNumber: Option<string>,
    verificationStatus: Option<string>,
    adminEstimatedPrice: Option<int>)

  datatype Review = Review(
    id: string,
    rating: int,
    comment: Option<string>,
    parentName: Option<string>,
    nannyName: Option<string>)

  /** The admin identity kept in the browser session. */
  datatype AdminRecord = AdminRecord(
    id: string,
    name: Option<string>,
    phoneNumber: Option<string>,
    role: string,
    email: Option<string>)

  /** The booking counters of the statistics reply. */
  datatype BookingCounts = BookingCounts(total: int, pending: int, confirmed: int, completed: int, cancelled: int)

  /** One `{ _id: { date, role }, count }` entry of the registration trend. */
  datatype TrendEntry = TrendEntry(date: string, role: string, count: int)

  /** The `stats` object of `/admin/stats`, reduced to what the dashboard
      and the analytics page compute with. */
  datatype Stats = Stats(
    bookings: BookingCounts,
    revenueTotal: int,
    totalNannies: int,
    pendingNannies: int,
    userTrend: seq<TrendEntry>,
    recentBookings: seq<Booking>)
}
