/** The dashboard home: headline statistics, the booking-status pie, and
    the most recent bookings. */
module Dashboard {
  import opened Js
  import opened Http
  import opened Entities
  import Api

  /** One slice of the booking-status pie. */
  datatype Slice = Slice(name: string, value: int)

  /** The pie's candidate slices, in their fixed order. */
  function Candidates(b: BookingCounts): seq<Slice> {
    [Slice("Pending", b.pending), Slice("Confirmed", b.confirmed),
     Slice("Completed", b.completed), Slice("Cancelled", b.cancelled)]
  }

  /** `filter(d => d.value > 0)`. */
  function Positive(s: seq<Slice>): (r: seq<Slice>)
    ensures |r| <= |s|
    ensures forall x :: x in r <==> x in s && x.value > 0
  {
    if s == [] then []
    else if s[0].value > 0 then [s[0]] + Positive(s[1..])
    else Positive(s[1..])
  }

  lemma {:induction false} PositiveIsSubsequence(s: seq<Slice>)
    ensures IsSubsequence(Positive(s), s)
  {
    if s != [] {
      PositiveIsSubsequence(s[1..]);
      var r := Positive(s);
      if s[0].value > 0 {
        assert r[0] == s[0] && r[1..] == Positive(s[1..]);
      }
    }
  }

  /** `bookingStatusData`: at most four slices, only the positive counters,
      in the order pending, confirmed, completed, cancelled; the in-progress
      and rejected counts never appear. */
  function StatusBreakdown(b: BookingCounts): (r: seq<Slice>)
    ensures |r| <= 4
    ensures forall x :: x in r ==> x.value > 0
    ensures Slice("Pending", b.pending) in r <==> b.pending > 0
    ensures Slice("Confirmed", b.confirmed) in r <==> b.confirmed > 0
    ensures Slice("Completed", b.completed) in r <==> b.completed > 0
    ensures Slice("Cancelled", b.cancelled) in r <==> b.cancelled > 0
    ensures forall x :: x in r ==> x.name in ["Pending", "Confirmed", "Completed", "Cancelled"]
    ensures IsSubsequence(r, Candidates(b))
  {
    PositiveIsSubsequence(Candidates(b));
    Positive(Candidates(b))
  }

  const Colors := ["#dc2626", "#f87171", "#fca5a5", "#fecaca", "#fee2e2"]

  /** `COLORS[idx % COLORS.length]`: the palette repeats every five slices. */
  function ColorOf(idx: nat): (c: string)
    ensures c in Colors
    ensures idx < |Colors| ==> c == Colors[idx]
    ensures idx >= |Colors| ==> c == ColorOf(idx - |Colors|)
  {
    Colors[idx % |Colors|]
  }

  /** `recentBookings.slice(0, 6)`: the first six, in order. */
  function RecentShown(bs: seq<Booking>): (r: seq<Booking>)
    ensures |r| == if |bs| < 6 then |bs| else 6
    ensures forall i :: 0 <= i < |r| ==> r[i] == bs[i]
  {
    if |bs| <= 6 then bs else bs[..6]
  }

  /** The badge classes of a booking status, neutral grey for a status not in the table. */
  function BadgeStyle(status: string): (r: string)
    ensures ParseStatus(status).None? ==> r == "bg-gray-100 text-gray-600"
    ensures ParseStatus(status).Some? ==> r != "bg-gray-100 text-gray-600"
    ensures r != ""
  {
    var styles := map[
      "pending" := "bg-yellow-100 text-yellow-700",
      "confirmed" := "bg-blue-100 text-blue-700",
      "in-progress" := "bg-purple-100 text-purple-700",
      "completed" := "bg-green-100 text-green-700",
      "cancelled" := "bg-red-100 text-red-700",
      "rejected" := "bg-gray-100 text-gray-700"];
    if status in styles then styles[status] else "bg-gray-100 text-gray-600"
  }

  datatype CardStyle = CardStyle(bg: string, icon: string, border: string)

  /** The StatCard palette, red for a colour not in it. */
  function CardColors(color: string): (c: CardStyle)
    ensures color !in {"orange", "green", "purple"} ==> c == CardStyle("bg-red-50", "text-red-600", "border-red-100")
    ensures color in {"orange", "green", "purple"} ==> c.bg != "bg-red-50"
    ensures c.bg != ""
  {
    var palette := map[
      "red" := CardStyle("bg-red-50", "text-red-600", "border-red-100"),
      "orange" := CardStyle("bg-orange-50", "text-orange-600", "border-orange-100"),
      "green" := CardStyle("bg-emerald-50", "text-emerald-600", "border-emerald-100"),
      "purple" := CardStyle("bg-purple-50", "text-purple-600", "border-purple-100")];
    if color in palette then palette[color] else palette["red"]
  }

  datatype View = LoadingView | RetryView | Ready(breakdown: seq<Slice>, recent: seq<Booking>)

  class DashboardPage {
    var stats: Option<Stats>
    var loading: bool

    constructor()
      ensures stats == None && loading
    {
      stats, loading := None, true;
    }

    /** `loadStats`: takes `stats` only from a successful reply and ends
        loading; it never turns loading back on, so a retry shows no spinner. */
    method LoadStats(reply: Reply<Stats>) returns (call: Api.Call)
      modifies this`stats, this`loading
      ensures call == Api.GetStats
      ensures !loading
      ensures Succeeded(reply) ==> stats == Some(reply.response.payload)
      ensures !Succeeded(reply) ==> stats == old(stats)
    {
      call := Api.GetStats;
      if Succeeded(reply) {
        stats := Some(reply.response.payload);
      }
      loading := false;
    }

    /** What the page renders: the spinner while loading, the retry view
        without statistics, otherwise the pie and the recent bookings. */
    method Render() returns (v: View)
      ensures v.LoadingView? <==> loading
      ensures v.RetryView? <==> !loading && stats.None?
      ensures v.Ready? ==>
        stats.Some? && v.breakdown == StatusBreakdown(stats.value.bookings)
        && v.recent == RecentShown(stats.value.recentBookings)
    {
      if loading {
        return LoadingView;
      }
      if stats.None? {
        return RetryView;
      }
      v := Ready(StatusBreakdown(stats.value.bookings), RecentShown(stats.value.recentBookings));
    }
  }
}
