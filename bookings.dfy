/** The bookings page: a paginated, filterable list, a detail panel, and
    the two status changes an admin may make from it. */
module Bookings {
  import opened Js
  import opened Http
  import opened Entities
  import opened Paging
  import Api

  /** The buttons of the detail panel. */
  datatype AdminAction = ConfirmBooking | CancelBooking

  /** The status each button asks for: one a pending booking may move to. */
  function Target(a: AdminAction): (s: BookingStatus)
    ensures AdminTransition(Pending, s)
  {
    match a
    case ConfirmBooking => Confirmed
    case CancelBooking => Cancelled
  }

  /** The admin's part of the booking workflow: a pending booking may be
      confirmed or cancelled, a confirmed one cancelled; nothing else. */
  predicate AdminTransition(from: BookingStatus, to: BookingStatus) {
    (from == Pending && (to == Confirmed || to == Cancelled)) || (from == Confirmed && to == Cancelled)
  }

  /** The buttons shown for a booking in each status, in display order. */
  function Actions(s: BookingStatus): (r: seq<AdminAction>)
    ensures r != [] <==> s == Pending || s == Confirmed
    ensures s == Pending ==> r == [ConfirmBooking, CancelBooking]
    ensures s == Confirmed ==> r == [CancelBooking]
    ensures forall a :: a in r <==> AdminTransition(s, Target(a))
  {
    if s == Pending then [ConfirmBooking, CancelBooking]
    else if s == Confirmed then [CancelBooking]
    else []
  }

  /** The request a status change sends, or none: a cancellation needs a
      non-empty reason from the prompt (`answer`), which is then sent;
      any other change sends no reason. */
  function StatusChangeCall(id: string, target: BookingStatus, answer: Option<string>): (c: Option<Api.Call>)
    ensures c.None? <==> target == Cancelled && !Truthy(answer)
    ensures c.Some? ==> c.value.UpdateBookingStatus? && c.value.id == id && c.value.status == StatusName(target)
    ensures c.Some? ==> (c.value.reason.Some? <==> target == Cancelled)
    ensures c.Some? && target == Cancelled ==> c.value.reason == answer && answer.value != ""
  {
    if target == Cancelled then
      if Truthy(answer) then Some(Api.UpdateBookingStatus(id, StatusName(target), answer)) else None
    else Some(Api.UpdateBookingStatus(id, StatusName(target), None))
  }

  /** The open detail record after a successful change of booking `id`:
      its status follows when it is that booking, and nothing else moves. */
  function PatchSelected(selected: Option<Booking>, id: string, target: BookingStatus): (r: Option<Booking>)
    ensures r.Some? <==> selected.Some?
    ensures r.Some? ==> r.value.(status := selected.value.status) == selected.value
    ensures r.Some? ==> r.value.status == if selected.value.id == id then target else selected.value.status
  {
    if selected.Some? && selected.value.id == id then Some(selected.value.(status := target)) else selected
  }

  /** The `{ bookings, pagination }` payload of a list reply. */
  datatype BookingList = BookingList(bookings: seq<Booking>, pagination: Pagination)

  class BookingsPage {
    var bookings: seq<Booking>
    var loading: bool
    var pagination: Pagination
    var search: string
    var statusFilter: string
    var selected: Option<Booking>
    var detailLoading: bool

    constructor()
      ensures bookings == [] && loading && pagination == InitialPagination
      ensures search == "" && statusFilter == "" && selected == None && !detailLoading
    {
      bookings, loading, pagination := [], true, InitialPagination;
      search, statusFilter, selected, detailLoading := "", "", None, false;
    }

    /** The query string of a list request for `page` under the current filters. */
    function Query(page: int): string
      reads this
    {
      Serialize(ListParams(page, search, "status", statusFilter))
    }

    /** `loadBookings(page)`: requests the page under the current filters and
        takes the list and the pagination only from a successful reply. */
    method LoadBookings(page: int, reply: Reply<BookingList>) returns (call: Api.Call)
      modifies this`bookings, this`pagination, this`loading
      ensures call == Api.GetBookings(Some(Query(page)))
      ensures !loading
      ensures Succeeded(reply) ==>
                bookings == reply.response.payload.bookings && pagination == reply.response.payload.pagination
      ensures !Succeeded(reply) ==> bookings == old(bookings) && pagination == old(pagination)
    {
      loading := true;
      call := Api.GetBookings(Some(Query(page)));
      if Succeeded(reply) {
        bookings := reply.response.payload.bookings;
        pagination := reply.response.payload.pagination;
      }
      loading := false;
    }

    /** Typing in the search box; the list effect then reloads page 1. */
    method SetSearch(s: string) returns (reloadPage: int)
      modifies this`search
      ensures search == s && reloadPage == 1
    {
      search := s;
      reloadPage := 1;
    }

    /** Choosing a status filter; the list effect then reloads page 1. */
    method SetStatusFilter(s: string) returns (reloadPage: int)
      modifies this`statusFilter
      ensures statusFilter == s && reloadPage == 1
    {
      statusFilter := s;
      reloadPage := 1;
    }

    /** `handleViewBooking`: opens the detail panel on a successful reply. */
    method HandleViewBooking(id: string, reply: Reply<Booking>) returns (call: Api.Call)
      modifies this`selected, this`detailLoading
      ensures call == Api.GetBooking(id) && !detailLoading
      ensures Succeeded(reply) ==> selected == Some(reply.response.payload)
      ensures !Succeeded(reply) ==> selected == old(selected)
    {
      detailLoading := true;
      call := Api.GetBooking(id);
      if Succeeded(reply) {
        selected := Some(reply.response.payload);
      }
      detailLoading := false;
    }

    /** `handleStatusChange`: sends the change unless a cancellation lacks a
        reason; a successful reply reloads the current page and patches the
        open detail record. A failed or thrown reply changes nothing. */
    method HandleStatusChange(id: string, target: BookingStatus, answer: Option<string>, reply: Reply<()>)
      returns (call: Option<Api.Call>, reload: Option<int>)
      modifies this`selected
      ensures call == StatusChangeCall(id, target, answer)
      ensures reload.Some? <==> call.Some? && Succeeded(reply)
      ensures reload.Some? ==> reload.value == pagination.page && selected == PatchSelected(old(selected), id, target)
      ensures reload.None? ==> selected == old(selected)
    {
      call := StatusChangeCall(id, target, answer);
      reload := None;
      if call.None? {
        return;
      }
      if Succeeded(reply) {
        reload := Some(pagination.page);
        selected := PatchSelected(selected, id, target);
      }
    }

    /** Closing the detail panel. */
    method CloseDetail()
      modifies this`selected
      ensures selected == None
    {
      selected := None;
    }
  }
}
