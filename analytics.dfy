/** The analytics page: booking rates, the average booking value, active
    nannies, and the registration trend pivoted into one row per day. */
module Analytics {
  import opened Js
  import opened Text
  import opened Http
  import opened Entities

  /** Code-point lexicographic order, the order `localeCompare` gives the
      backend's `YYYY-MM-DD` dates. */
  predicate LexLess(a: string, b: string)
    decreases |a|
  {
    if a == [] then b != []
    else if b == [] then false
    else if a[0] != b[0] then a[0] < b[0]
    else LexLess(a[1..], b[1..])
  }

  lemma {:induction false} LexIrreflexive(a: string)
    ensures !LexLess(a, a)
    decreases |a|
  {
    if a != [] {
      LexIrreflexive(a[1..]);
    }
  }

  lemma {:induction false} LexTransitive(a: string, b: string, c: string)
    requires LexLess(a, b) && LexLess(b, c)
    ensures LexLess(a, c)
    decreases |a|
  {
    if a != [] && a[0] == b[0] && b[0] == c[0] {
      LexTransitive(a[1..], b[1..], c[1..]);
    }
  }

  lemma {:induction false} LexTotal(a: string, b: string)
    requires a != b
    ensures LexLess(a, b) || LexLess(b, a)
    decreases |a|
  {
    if a != [] && b != [] && a[0] == b[0] {
      assert a == [a[0]] + a[1..] && b == [b[0]] + b[1..];
      LexTotal(a[1..], b[1..]);
    }
  }

  /** A row of the registration chart: its date and its numeric fields. */
  datatype TrendRow = TrendRow(date: string, counts: map<string, int>)

  /** A row starts with these three counters at zero. */
  const InitialCounts: map<string, int> := map["parents" := 0, "nannies" := 0, "admins" := 0]

  /** How an entry's role names the field it writes: as the page does it
      (`role + 's'`), or with the plural the chart reads. */
  datatype Naming = AsWritten | Corrected

  /** The field an entry writes. */
  function FieldName(naming: Naming, role: string): string {
    match naming
    case AsWritten => role + "s"
    case Corrected => if role == "nanny" then "nannies" else role + "s"
  }

  /** Parents and admins land on a charted counter under either naming; a
      nanny lands on one only under the corrected plural. */
  lemma FieldNameCharted(naming: Naming, role: string)
    ensures role == "parent" || role == "admin" ==> FieldName(naming, role) in InitialCounts
    ensures role == "nanny" ==> (FieldName(naming, role) in InitialCounts <==> naming == Corrected)
  {
    assert "parent" + "s" == "parents" && "admin" + "s" == "admins";
    assert "nanny" + "s" == "nannys" && "nannys"[0] != "admins"[0];
  }

  /** The dates the trend mentions. */
  function Dates(t: seq<TrendEntry>): set<string> {
    if t == [] then {} else Dates(t[..|t| - 1]) + {t[|t| - 1].date}
  }

  /** The counters of date `d` after the entries of `t`, in order: every
      entry for `d` writes its count to its field, later ones overwriting. */
  function CountsAfter(t: seq<TrendEntry>, d: string, naming: Naming): (c: map<string, int>)
    ensures InitialCounts.Keys <= c.Keys
  {
    if t == [] then InitialCounts
    else
      var c := CountsAfter(t[..|t| - 1], d, naming);
      var e := t[|t| - 1];
      if e.date == d then c[FieldName(naming, e.role) := e.count] else c
  }

  function RowDates(rows: seq<TrendRow>): set<string> {
    set r | r in rows :: r.date
  }

  predicate StrictlySorted(rows: seq<TrendRow>) {
    forall i, j :: 0 <= i < j < |rows| ==> LexLess(rows[i].date, rows[j].date)
  }

  /** Places `x` among rows sorted by date, none of which has its date. */
  function Insert(x: TrendRow, s: seq<TrendRow>): (r: seq<TrendRow>)
    requires StrictlySorted(s) && x.date !in RowDates(s)
    ensures StrictlySorted(r)
    ensures forall y :: y in r <==> y == x || y in s
  {
    if s == [] then [x]
    else if LexLess(x.date, s[0].date) then
      assert forall j :: 0 < j < |s| ==> LexLess(x.date, s[j].date) by {
        forall j | 0 < j < |s| ensures LexLess(x.date, s[j].date) {
          LexTransitive(x.date, s[0].date, s[j].date);
        }
      }
      [x] + s
    else
      assert s[0].date != x.date;
      LexTotal(x.date, s[0].date);
      assert StrictlySorted(s[1..]);
      var rest := Insert(x, s[1..]);
      assert forall y :: y in s[1..] ==> LexLess(s[0].date, y.date);
      [s[0]] + rest
  }

  /** The rows ordered by date: `sort((a, b) => a.date.localeCompare(b.date))`
      on rows whose dates are distinct. */
  function SortByDate(s: seq<TrendRow>): (r: seq<TrendRow>)
    requires forall i, j :: 0 <= i < j < |s| ==> s[i].date != s[j].date
    ensures StrictlySorted(r)
    ensures forall y :: y in r <==> y in s
  {
    if s == [] then []
    else
      var rest := SortByDate(s[1..]);
      assert s[0].date !in RowDates(rest) by {
        forall y | y in rest ensures y.date != s[0].date {
          assert y in s[1..];
        }
      }
      Insert(s[0], rest)
  }

  /** A date not yet mentioned still has its initial counters. */
  lemma {:induction false} CountsAfterFresh(t: seq<TrendEntry>, d: string, naming: Naming)
    requires d !in Dates(t)
    ensures CountsAfter(t, d, naming) == InitialCounts
  {
    if t != [] {
      CountsAfterFresh(t[..|t| - 1], d, naming);
    }
  }

  /** One more entry adds its date and updates that date's counters only. */
  lemma PrefixStep(t: seq<TrendEntry>, i: nat, naming: Naming)
    requires i < |t|
    ensures Dates(t[..i + 1]) == Dates(t[..i]) + {t[i].date}
    ensures forall d :: CountsAfter(t[..i + 1], d, naming) ==
              if t[i].date == d then CountsAfter(t[..i], d, naming)[FieldName(naming, t[i].role) := t[i].count]
              else CountsAfter(t[..i], d, naming)
  {
    assert t[..i + 1][..i] == t[..i];
  }

  /** The `userTrendMap` pivot: one `forEach` over the trend fills a row per
      date (created with zero counters the first time the date is seen) and
      writes each entry's count to its field; the rows are then sorted by
      date. The result holds exactly one row per date of the trend, in
      strictly ascending date order, each with the counters `CountsAfter`
      gives it. */
  method PivotUserTrend(trend: seq<TrendEntry>, naming: Naming) returns (rows: seq<TrendRow>)
    ensures StrictlySorted(rows)
    ensures RowDates(rows) == Dates(trend)
    ensures forall r :: r in rows ==> r.counts == CountsAfter(trend, r.date, naming)
  {
    var table: map<string, map<string, int>> := map[];
    var order: seq<string> := [];
    var i := 0;
    while i < |trend|
      invariant 0 <= i <= |trend|
      invariant table.Keys == Dates(trend[..i])
      invariant forall d :: d in table ==> table[d] == CountsAfter(trend[..i], d, naming)
      invariant forall k :: 0 <= k < |order| ==> order[k] in table
      invariant forall d :: d in table ==> d in order
      invariant forall a, b :: 0 <= a < b < |order| ==> order[a] != order[b]
    {
      var e := trend[i];
      PrefixStep(trend, i, naming);
      if e.date !in table {
        CountsAfterFresh(trend[..i], e.date, naming);
        table := table[e.date := InitialCounts];
        order := order + [e.date];
      }
      table := table[e.date := table[e.date][FieldName(naming, e.role) := e.count]];
      i := i + 1;
    }
    assert trend[..i] == trend;
    rows := SortedValues(table, order);
  }

  /** `Object.values(userTrendMap)` in insertion order, sorted by date. */
  method SortedValues(table: map<string, map<string, int>>, order: seq<string>) returns (rows: seq<TrendRow>)
    requires forall k :: 0 <= k < |order| ==> order[k] in table
    requires forall d :: d in table ==> d in order
    requires forall a, b :: 0 <= a < b < |order| ==> order[a] != order[b]
    ensures StrictlySorted(rows)
    ensures RowDates(rows) == table.Keys
    ensures forall r :: r in rows ==> r.date in table && r.counts == table[r.date]
  {
    var values := seq(|order|, k requires 0 <= k < |order| => TrendRow(order[k], table[order[k]]));
    rows := SortByDate(values);
    forall d | d in table ensures d in RowDates(rows) {
      var k :| 0 <= k < |order| && order[k] == d;
      assert values[k] in rows;
    }
    forall r | r in rows ensures r.date in table && r.counts == table[r.date] {
      assert r in values;
    }
  }

  /** A field no entry for the date writes keeps its initial state. */
  lemma {:induction false} UnwrittenFieldStays(t: seq<TrendEntry>, d: string, naming: Naming, field: string)
    requires forall i :: 0 <= i < |t| && t[i].date == d ==> FieldName(naming, t[i].role) != field
    ensures field in CountsAfter(t, d, naming) <==> field in InitialCounts
    ensures field in InitialCounts ==> CountsAfter(t, d, naming)[field] == 0
  {
    if t != [] {
      UnwrittenFieldStays(t[..|t| - 1], d, naming, field);
    }
  }

  /** The last entry for a date and field decides the count. */
  lemma {:induction false} LastWriteWins(t: seq<TrendEntry>, d: string, naming: Naming, i: nat)
    requires i < |t| && t[i].date == d
    requires forall j :: i < j < |t| && t[j].date == d ==> FieldName(naming, t[j].role) != FieldName(naming, t[i].role)
    ensures var f := FieldName(naming, t[i].role);
      f in CountsAfter(t, d, naming) && CountsAfter(t, d, naming)[f] == t[i].count
  {
    if i < |t| - 1 {
      LastWriteWins(t[..|t| - 1], d, naming, i);
    }
  }

  /** As written, a nanny's count goes to `nannys`: with the backend's
      three roles the `nannies` field the chart reads is never written and
      stays 0 for every date. */
  lemma NanniesAlwaysZero(t: seq<TrendEntry>, d: string)
    requires forall i :: 0 <= i < |t| ==> t[i].role == "parent" || t[i].role == "nanny" || t[i].role == "admin"
    ensures CountsAfter(t, d, AsWritten)["nannies"] == 0
  {
    forall i | 0 <= i < |t| && t[i].date == d ensures FieldName(AsWritten, t[i].role) != "nannies" {
      var f := FieldName(AsWritten, t[i].role);
      assert |f| != |"nannies"| || f[4] != "nannies"[4];
    }
    UnwrittenFieldStays(t, d, AsWritten, "nannies");
  }

  /** One nanny registering on a day: as written the chart shows 0 nannies
      for it; corrected it shows 1. */
  lemma NannyCountCounterexample(d: string)
    ensures CountsAfter([TrendEntry(d, "nanny", 1)], d, AsWritten)["nannies"] == 0
    ensures var c := CountsAfter([TrendEntry(d, "nanny", 1)], d, AsWritten); "nannys" in c && c["nannys"] == 1
    ensures CountsAfter([TrendEntry(d, "nanny", 1)], d, Corrected)["nannies"] == 1
  {
    var t := [TrendEntry(d, "nanny", 1)];
    assert t[..0] == [];
    assert "nanny" + "s" == "nannys";
    assert "nannys" != "nannies";
  }

  /** Corrected, the last nanny entry of a date is the nannies count the chart reads. */
  lemma CorrectedNanniesCharted(t: seq<TrendEntry>, d: string, i: nat)
    requires forall j :: 0 <= j < |t| ==> t[j].role == "parent" || t[j].role == "nanny" || t[j].role == "admin"
    requires i < |t| && t[i].date == d && t[i].role == "nanny"
    requires forall j :: i < j < |t| && t[j].date == d ==> t[j].role != "nanny"
    ensures CountsAfter(t, d, Corrected)["nannies"] == t[i].count
  {
    forall j | i < j < |t| && t[j].date == d ensures FieldName(Corrected, t[j].role) != "nannies" {
      var f := FieldName(Corrected, t[j].role);
      assert |f| != |"nannies"| || f[4] != "nannies"[4];
    }
    LastWriteWins(t, d, Corrected, i);
  }

  /** `Math.round(revenue / completed)`: the nearest integer, halves up. */
  function RoundedAverage(revenue: int, completed: int): (m: int)
    requires completed > 0
    ensures 2 * completed * m - completed <= 2 * revenue < 2 * completed * m + completed
  {
    var q := (2 * revenue + completed) / (2 * completed);
    DivBounds(2 * revenue + completed, 2 * completed);
    q
  }

  lemma DivBounds(x: int, d: int)
    requires d > 0
    ensures d * (x / d) <= x < d * (x / d) + d
  {
  }

  /** The four key metrics. The rates (percentages written with one decimal)
      are kept as the counts they divide; a zero total reads `0`. */
  datatype Rate = ZeroRate | Ratio(part: int, total: int)

  datatype Metrics = Metrics(completion: Rate, cancellation: Rate, avgBookingValue: int, activeNannies: int)

  function MetricsOf(s: Stats): (m: Metrics)
    ensures m.completion.ZeroRate? <==> s.bookings.total <= 0
    ensures m.cancellation.ZeroRate? <==> s.bookings.total <= 0
    ensures m.completion.Ratio? ==> m.completion == Ratio(s.bookings.completed, s.bookings.total)
    ensures m.cancellation.Ratio? ==> m.cancellation == Ratio(s.bookings.cancelled, s.bookings.total)
    ensures s.bookings.completed <= 0 ==> m.avgBookingValue == 0
    ensures s.bookings.completed > 0 ==>
              var c := s.bookings.completed;
              2 * c * m.avgBookingValue - c <= 2 * s.revenueTotal < 2 * c * m.avgBookingValue + c
    ensures m.activeNannies + s.pendingNannies == s.totalNannies
  {
    var b := s.bookings;
    Metrics(
      if b.total > 0 then Ratio(b.completed, b.total) else ZeroRate,
      if b.total > 0 then Ratio(b.cancelled, b.total) else ZeroRate,
      if b.completed > 0 then RoundedAverage(s.revenueTotal, b.completed) else 0,
      s.totalNannies - s.pendingNannies)
  }

  datatype View = LoadingView | FailedView | Ready(metrics: Metrics, userTrendData: seq<TrendRow>)

  class AnalyticsPage {
    var stats: Option<Stats>
    var loading: bool

    constructor()
      ensures stats == None && loading
    {
      stats, loading := None, true;
    }

    /** The mount effect: takes `stats` only from a successful reply. */
    method Load(reply: Reply<Stats>)
      modifies this`stats, this`loading
      ensures !loading
      ensures Succeeded(reply) ==> stats == Some(reply.response.payload)
      ensures !Succeeded(reply) ==> stats == old(stats)
    {
      if Succeeded(reply) {
        stats := Some(reply.response.payload);
      }
      loading := false;
    }

    /** What the page renders: the loading line, the failure line, or the
        metrics and the pivoted trend, each entry writing `role + 's'`. */
    method Render() returns (v: View)
      ensures v.LoadingView? <==> loading
      ensures v.FailedView? <==> !loading && stats.None?
      ensures v.Ready? ==> stats.Some? && v.metrics == MetricsOf(stats.value)
      ensures v.Ready? ==> StrictlySorted(v.userTrendData) && RowDates(v.userTrendData) == Dates(stats.value.userTrend)
      ensures v.Ready? ==> forall r :: r in v.userTrendData ==>
                r.counts == CountsAfter(stats.value.userTrend, r.date, AsWritten)
      ensures v.Ready? && (forall i :: 0 <= i < |stats.value.userTrend| ==> stats.value.userTrend[i].role in {"parent", "nanny", "admin"}) ==>
                forall r :: r in v.userTrendData ==> "nannies" in r.counts && r.counts["nannies"] == 0
    {
      if loading {
        return LoadingView;
      }
      if stats.None? {
        return FailedView;
      }
      var rows := PivotUserTrend(stats.value.userTrend, AsWritten);
      v := Ready(MetricsOf(stats.value), rows);
      var t := stats.value.userTrend;
      if forall i :: 0 <= i < |t| ==> t[i].role in {"parent", "nanny", "admin"} {
        forall r | r in rows ensures "nannies" in r.counts && r.counts["nannies"] == 0 {
          NanniesAlwaysZero(t, r.date);
        }
      }
    }
  }
}
