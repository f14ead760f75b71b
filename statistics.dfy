/**
 * The per-day charts of the statistics page: a header row, then one row per
 * distinct day in the order the days were first met, carrying the sum of the
 * amounts (top-ups, withdrawals) or the number of registrations of that day.
 */
module Statistics {

  /** The `"%d %B"` rendering of a creation time, used only as a key. */
  type Day(==, !new)

  /** One record as the chart sees it: its day and its amount. */
  datatype Entry = Entry(day: Day, amount: int)

  datatype Row = Header(dayLabel: string, seriesLabel: string) | Point(day: Day, value: int)

  function DaysOf(entries: seq<Entry>): (days: seq<Day>)
    ensures |days| == |entries|
    ensures forall i :: 0 <= i < |entries| ==> days[i] == entries[i].day
  {
    seq(|entries|, i requires 0 <= i < |entries| => entries[i].day)
  }

  predicate Distinct(days: seq<Day>)
  {
    forall i, j :: 0 <= i < j < |days| ==> days[i] != days[j]
  }

  /** The distinct days of `days`, each where it first occurs. */
  function FirstSeen(days: seq<Day>): (order: seq<Day>)
    ensures Distinct(order)
    ensures forall d :: d in order <==> d in days
  {
    if days == [] then []
    else
      var earlier := FirstSeen(days[..|days| - 1]);
      assert days == days[..|days| - 1] + [days[|days| - 1]];
      if days[|days| - 1] in earlier then earlier else earlier + [days[|days| - 1]]
  }

  /** The sum of the amounts of the entries on day `d`. */
  function DayTotal(entries: seq<Entry>, d: Day): int
  {
    if entries == [] then 0
    else
      var last := entries[|entries| - 1];
      DayTotal(entries[..|entries| - 1], d) + (if last.day == d then last.amount else 0)
  }

  function Total(entries: seq<Entry>): int
  {
    if entries == [] then 0 else Total(entries[..|entries| - 1]) + entries[|entries| - 1].amount
  }

  /** The sum of the day totals over the days of `order`. */
  function SumOver(entries: seq<Entry>, order: seq<Day>): int
  {
    if order == [] then 0 else SumOver(entries, order[..|order| - 1]) + DayTotal(entries, order[|order| - 1])
  }

  lemma {:induction false} DayTotalOfAbsentDay(entries: seq<Entry>, d: Day)
    requires d !in DaysOf(entries)
    ensures DayTotal(entries, d) == 0
  {
    if entries != [] {
      var prefix := entries[..|entries| - 1];
      assert DaysOf(prefix) == DaysOf(entries)[..|entries| - 1];
      DayTotalOfAbsentDay(prefix, d);
      assert DaysOf(entries)[|entries| - 1] == entries[|entries| - 1].day;
    }
  }

  /** Appending one entry raises the sum over distinct days by its amount if its day is among them. */
  lemma {:induction false} SumOverAppend(entries: seq<Entry>, x: Entry, order: seq<Day>)
    requires Distinct(order)
    ensures SumOver(entries + [x], order) == SumOver(entries, order) + (if x.day in order then x.amount else 0)
  {
    if order != [] {
      var init := order[..|order| - 1];
      assert order == init + [order[|order| - 1]];
      SumOverAppend(entries, x, init);
      assert (entries + [x])[..|entries|] == entries;
    }
  }

  /** The per-day totals of a chart add up to the total of all entries. */
  lemma {:induction false} BucketsAddUp(entries: seq<Entry>)
    ensures SumOver(entries, FirstSeen(DaysOf(entries))) == Total(entries)
  {
    if entries != [] {
      var prefix := entries[..|entries| - 1];
      var x := entries[|entries| - 1];
      assert entries == prefix + [x];
      assert DaysOf(entries)[..|entries| - 1] == DaysOf(prefix);
      BucketsAddUp(prefix);
      var earlier := FirstSeen(DaysOf(prefix));
      SumOverAppend(prefix, x, earlier);
      if x.day !in earlier {
        DayTotalOfAbsentDay(prefix, x.day);
        var order := earlier + [x.day];
        assert order[..|order| - 1] == earlier;
      }
    }
  }

  lemma FirstSeenStep(days: seq<Day>, d: Day)
    ensures FirstSeen(days + [d]) == if d in FirstSeen(days) then FirstSeen(days) else FirstSeen(days) + [d]
  {
  }

  lemma DayTotalStep(entries: seq<Entry>, x: Entry, d: Day)
    ensures DayTotal(entries + [x], d) == DayTotal(entries, d) + (if x.day == d then x.amount else 0)
  {
  }

  lemma DaysOfStep(entries: seq<Entry>, x: Entry)
    ensures DaysOf(entries + [x]) == DaysOf(entries) + [x.day]
  {
  }

  /** What a dictionary of day totals and its key order is, for `entries`. */
  ghost predicate Bucketed(entries: seq<Entry>, totals: map<Day, int>, order: seq<Day>)
  {
    && order == FirstSeen(DaysOf(entries))
    && (forall d :: d in totals <==> d in order)
    && (forall d :: d in totals ==> totals[d] == DayTotal(entries, d))
  }

  /** Adding one entry to its day (creating the day at 0 first) keeps the dictionary exact. */
  lemma BucketedStep(entries: seq<Entry>, x: Entry, totals: map<Day, int>, order: seq<Day>)
    requires Bucketed(entries, totals, order)
    ensures x.day !in totals ==> Bucketed(entries + [x], totals[x.day := x.amount], order + [x.day])
    ensures x.day in totals ==> Bucketed(entries + [x], totals[x.day := totals[x.day] + x.amount], order)
  {
    DaysOfStep(entries, x);
    FirstSeenStep(DaysOf(entries), x.day);
    var next := if x.day in totals then totals[x.day := totals[x.day] + x.amount] else totals[x.day := x.amount];
    if x.day !in totals {
      DayTotalOfAbsentDay(entries, x.day);
    }
    forall d | d in next ensures next[d] == DayTotal(entries + [x], d) {
      DayTotalStep(entries, x, d);
    }
  }

  /**
   * The first loop of `get_chart_data_for_transactions`: a dictionary from
   * day to total, whose keys keep the order in which days were first met.
   */
  method SumByDay(transactions: seq<Entry>) returns (totals: map<Day, int>, order: seq<Day>)
    ensures order == FirstSeen(DaysOf(transactions))
    ensures forall d :: d in totals <==> d in order
    ensures forall d :: d in totals ==> totals[d] == DayTotal(transactions, d)
  {
    totals, order := map[], [];
    var i := 0;
    while i < |transactions|
      invariant 0 <= i <= |transactions|
      invariant Bucketed(transactions[..i], totals, order)
    {
      var t := transactions[i];
      assert transactions[..i + 1] == transactions[..i] + [t];
      BucketedStep(transactions[..i], t, totals, order);
      if t.day !in totals {
        totals := totals[t.day := 0];
        order := order + [t.day];
      }
      totals := totals[t.day := totals[t.day] + t.amount];
      i := i + 1;
    }
    assert transactions[..i] == transactions;
  }

  /**
   * `get_chart_data_for_transactions`: the header, then for each distinct day
   * in first-seen order the total amount of that day.
   */
  method ChartData(transactions: seq<Entry>, dayLabel: string, seriesLabel: string) returns (chart: seq<Row>)
    ensures |chart| == 1 + |FirstSeen(DaysOf(transactions))|
    ensures chart[0] == Header(dayLabel, seriesLabel)
    ensures forall j :: 1 <= j < |chart| ==>
      chart[j] == Point(FirstSeen(DaysOf(transactions))[j - 1], DayTotal(transactions, FirstSeen(DaysOf(transactions))[j - 1]))
  {
    var totals, order := SumByDay(transactions);
    chart := [Header(dayLabel, seriesLabel)];
    var k := 0;
    while k < |order|
      invariant 0 <= k <= |order|
      invariant |chart| == k + 1
      invariant chart[0] == Header(dayLabel, seriesLabel)
      invariant forall j :: 1 <= j < |chart| ==> chart[j] == Point(order[j - 1], totals[order[j - 1]])
    {
      chart := chart + [Point(order[k], totals[order[k]])];
      k := k + 1;
    }
  }

  // ---------------------------------------------------------------------
  // Registrations

  /** The number of registrations on day `d`. */
  function Count(days: seq<Day>, d: Day): nat
  {
    if days == [] then 0 else Count(days[..|days| - 1], d) + (if days[|days| - 1] == d then 1 else 0)
  }

  /** The sum of the day counts over the days of `order`. */
  function CountOver(days: seq<Day>, order: seq<Day>): nat
  {
    if order == [] then 0 else CountOver(days, order[..|order| - 1]) + Count(days, order[|order| - 1])
  }

  lemma CountStep(days: seq<Day>, x: Day, d: Day)
    ensures Count(days + [x], d) == Count(days, d) + (if x == d then 1 else 0)
  {
  }

  /** Each registration as an entry of amount one. */
  function Ones(days: seq<Day>): (entries: seq<Entry>)
    ensures DaysOf(entries) == days
  {
    seq(|days|, i requires 0 <= i < |days| => Entry(days[i], 1))
  }

  lemma {:induction false} CountIsDayTotalOfOnes(days: seq<Day>, d: Day)
    ensures Count(days, d) == DayTotal(Ones(days), d)
  {
    if days != [] {
      assert Ones(days)[..|days| - 1] == Ones(days[..|days| - 1]);
      CountIsDayTotalOfOnes(days[..|days| - 1], d);
    }
  }

  lemma {:induction false} CountOverIsSumOverOnes(days: seq<Day>, order: seq<Day>)
    ensures CountOver(days, order) == SumOver(Ones(days), order)
  {
    if order != [] {
      CountOverIsSumOverOnes(days, order[..|order| - 1]);
      CountIsDayTotalOfOnes(days, order[|order| - 1]);
    }
  }

  lemma {:induction false} TotalOfOnes(days: seq<Day>)
    ensures Total(Ones(days)) == |days|
  {
    if days != [] {
      assert Ones(days)[..|days| - 1] == Ones(days[..|days| - 1]);
      TotalOfOnes(days[..|days| - 1]);
    }
  }

  /** The registration counts of the chart add up to the number of registrations. */
  lemma RegistrationsAddUp(days: seq<Day>)
    ensures CountOver(days, FirstSeen(days)) == |days|
  {
    CountOverIsSumOverOnes(days, FirstSeen(days));
    BucketsAddUp(Ones(days));
    TotalOfOnes(days);
  }

  lemma {:induction false} CountOfAbsentDay(days: seq<Day>, d: Day)
    requires d !in days
    ensures Count(days, d) == 0
  {
    if days != [] {
      assert days == days[..|days| - 1] + [days[|days| - 1]];
      CountOfAbsentDay(days[..|days| - 1], d);
    }
  }

  /** What a dictionary of day counts and its key order is, for `days`. */
  ghost predicate Tallied(days: seq<Day>, counts: map<Day, int>, order: seq<Day>)
  {
    && order == FirstSeen(days)
    && (forall d :: d in counts <==> d in order)
    && (forall d :: d in counts ==> counts[d] == Count(days, d))
  }

  /** Counting one more registration (creating its day at 0 first) keeps the dictionary exact. */
  lemma TalliedStep(days: seq<Day>, day: Day, counts: map<Day, int>, order: seq<Day>)
    requires Tallied(days, counts, order)
    ensures day !in counts ==> Tallied(days + [day], counts[day := 1], order + [day])
    ensures day in counts ==> Tallied(days + [day], counts[day := counts[day] + 1], order)
  {
    FirstSeenStep(days, day);
    var next := if day in counts then counts[day := counts[day] + 1] else counts[day := 1];
    if day !in counts {
      CountOfAbsentDay(days, day);
    }
    forall d | d in next ensures next[d] == Count(days + [day], d) {
      CountStep(days, day, d);
    }
  }

  /**
   * The registration chart of the statistics page: the header, then for
   * each distinct day in first-seen order the number of registrations.
   */
  method RegistrationData(registrations: seq<Day>) returns (chart: seq<Row>)
    ensures |chart| == 1 + |FirstSeen(registrations)|
    ensures chart[0] == Header("Day", "Registrations")
    ensures forall j :: 1 <= j < |chart| ==>
      chart[j] == Point(FirstSeen(registrations)[j - 1], Count(registrations, FirstSeen(registrations)[j - 1]))
  {
    var counts: map<Day, int> := map[];
    var order: seq<Day> := [];
    var i := 0;
    while i < |registrations|
      invariant 0 <= i <= |registrations|
      invariant Tallied(registrations[..i], counts, order)
    {
      var day := registrations[i];
      assert registrations[..i + 1] == registrations[..i] + [day];
      TalliedStep(registrations[..i], day, counts, order);
      if day !in counts {
        counts := counts[day := 0];
        order := order + [day];
      }
      counts := counts[day := counts[day] + 1];
      i := i + 1;
    }
    assert registrations[..i] == registrations;
    chart := [Header("Day", "Registrations")];
    var k := 0;
    while k < |order|
      invariant 0 <= k <= |order|
      invariant |chart| == k + 1
      invariant chart[0] == Header("Day", "Registrations")
      invariant forall j :: 1 <= j < |chart| ==> chart[j] == Point(order[j - 1], Count(registrations, order[j - 1]))
    {
      chart := chart + [Point(order[k], counts[order[k]])];
      k := k + 1;
    }
  }

  /** The three charts of the statistics page, each with its own header. */
  method Dashboard(withdrawals: seq<Entry>, topUps: seq<Entry>, registrations: seq<Day>)
    returns (withdrawalData: seq<Row>, topUpData: seq<Row>, registrationData: seq<Row>)
    ensures |withdrawalData| == 1 + |FirstSeen(DaysOf(withdrawals))|
    ensures |topUpData| == 1 + |FirstSeen(DaysOf(topUps))|
    ensures |registrationData| == 1 + |FirstSeen(registrations)|
    ensures withdrawalData[0] == Header("Day", "Withdrawals")
    ensures topUpData[0] == Header("Day", "TopUps")
    ensures registrationData[0] == Header("Day", "Registrations")
    ensures forall j :: 1 <= j < |withdrawalData| ==>
      withdrawalData[j] == Point(FirstSeen(DaysOf(withdrawals))[j - 1], DayTotal(withdrawals, FirstSeen(DaysOf(withdrawals))[j - 1]))
    ensures forall j :: 1 <= j < |topUpData| ==>
      topUpData[j] == Point(FirstSeen(DaysOf(topUps))[j - 1], DayTotal(topUps, FirstSeen(DaysOf(topUps))[j - 1]))
    ensures forall j :: 1 <= j < |registrationData| ==>
      registrationData[j] == Point(FirstSeen(registrations)[j - 1], Count(registrations, FirstSeen(registrations)[j - 1]))
  {
    withdrawalData := ChartData(withdrawals, "Day", "Withdrawals");
    topUpData := ChartData(topUps, "Day", "TopUps");
    registrationData := RegistrationData(registrations);
  }
}
