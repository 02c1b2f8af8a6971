/**
 The configurable variant of the calculator (jkx_calculator.py): tariffs come
 from the configuration, every calculation appends one eight-column row to the
 history file, and the previous readings are the current readings of the last
 history row.
 */
module JkxCalculator {
  import opened Meters

  /** One history row: when it was saved, the three current readings, the
      three usages and the total cost. */
  datatype Record = Record(
    date: int,
    hotCurr: real, coldCurr: real, elecCurr: real,
    hotUsage: real, coldUsage: real, elecUsage: real,
    total: real)

  /** The header init_files writes into a new history file. */
  const HistoryHeader: seq<string> :=
    ["date", "hot_curr", "cold_curr", "elec_curr", "hot_usage", "cold_usage", "elec_usage", "total_cost"]

  /** What calculate_utility_cost returns: (total, hot, cold, elec). */
  datatype Bill = Bill(total: real, hot: real, cold: real, elec: real)
  {
    function Usages(): seq<real>
    {
      [hot, cold, elec]
    }
  }

  /** calculate_utility_cost: rejected when some current reading is below the
      previous one; otherwise usage is the per-meter difference and the total
      is the rounded tariff formula with sewage billed on hot plus cold. */
  function Calculate(prev: seq<real>, curr: seq<real>, t: Tariffs): (r: Result<Bill>)
    ensures r == Failure(Regression) <==> Regressed(prev, curr)
    ensures r == Failure(MissingReading) <==> !Regressed(prev, curr) && (|prev| < 3 || |curr| < 3)
    ensures r.Success? <==> !Regressed(prev, curr) && |prev| >= 3 && |curr| >= 3
    ensures r.Success? ==>
      && prev[Hot] + r.value.hot == curr[Hot]
      && prev[Cold] + r.value.cold == curr[Cold]
      && prev[Elec] + r.value.elec == curr[Elec]
      && r.value.hot >= 0.0 && r.value.cold >= 0.0 && r.value.elec >= 0.0
      && r.value.total == Round2(UnroundedCost(r.value.hot, r.value.cold, r.value.elec, t))
      && -0.005 <= r.value.total - UnroundedCost(r.value.hot, r.value.cold, r.value.elec, t) <= 0.005
      && (NonNegativeTariffs(t) ==> r.value.total >= 0.0)
  {
    if Regressed(prev, curr) then Failure(Regression)
    else if |prev| < 3 || |curr| < 3 then Failure(MissingReading)
    else
      assert !(curr[Hot] < prev[Hot]) && !(curr[Cold] < prev[Cold]) && !(curr[Elec] < prev[Elec]);
      var hot := curr[Hot] - prev[Hot];
      var cold := curr[Cold] - prev[Cold];
      var elec := curr[Elec] - prev[Elec];
      Success(Bill(Round2(UnroundedCost(hot, cold, elec, t)), hot, cold, elec))
  }

  /** The reading an entry stands for: an empty entry keeps the previous value. */
  function EntryReading(e: Entry, pv: real): real
    requires !e.Malformed?
  {
    if e.Empty? then pv else e.value
  }

  /** `[float(e.get() or pv) for e, pv in zip(entries, prev_values)]`. */
  function ResolveEntries(entries: seq<Entry>, prev: seq<real>): (r: Result<seq<real>>)
    ensures r.Failure? ==> r.error == InvalidNumber
    ensures r.Failure? <==> exists i :: 0 <= i < |entries| && i < |prev| && entries[i].Malformed?
    ensures r.Success? ==>
      && |r.value| == Min(|entries|, |prev|)
      && forall i :: 0 <= i < |r.value| ==>
           !entries[i].Malformed? && r.value[i] == (if entries[i].Empty? then prev[i] else entries[i].value)
    decreases |entries|
  {
    if entries == [] || prev == [] then Success([])
    else if entries[0].Malformed? then Failure(InvalidNumber)
    else
      match ResolveEntries(entries[1..], prev[1..])
      case Failure(e) =>
        var i :| 0 <= i < |entries[1..]| && i < |prev[1..]| && entries[1..][i].Malformed?;
        assert entries[i + 1].Malformed?;
        Failure(e)
      case Success(rest) =>
        Success([EntryReading(entries[0], prev[0])] + rest)
  }

  /** The current readings on_calculate settles on, with the bill for them. */
  datatype Submission = Submission(curr: seq<real>, bill: Bill)

  /** The try block of on_calculate: resolve the entries, then calculate. */
  function Submit(entries: seq<Entry>, prev: seq<real>, t: Tariffs): (r: Result<Submission>)
    requires |entries| == MeterCount && |prev| == MeterCount
    ensures r.Failure? <==>
      || (exists i :: 0 <= i < 3 && entries[i].Malformed?)
      || (exists i :: 0 <= i < 3 && entries[i].Number? && entries[i].value < prev[i])
    ensures r.Success? ==>
      && |r.value.curr| == 3
      && Calculate(prev, r.value.curr, t) == Success(r.value.bill)
      && forall i :: 0 <= i < 3 ==>
           && r.value.curr[i] == (if entries[i].Empty? then prev[i] else entries[i].value)
           && (entries[i].Empty? ==> r.value.bill.Usages()[i] == 0.0)
  {
    match ResolveEntries(entries, prev)
    case Failure(e) => Failure(e)
    case Success(curr) =>
      match Calculate(prev, curr, t)
      case Failure(e) =>
        if e == Regression then
          var i :| 0 <= i < 3 && curr[i] < prev[i];
          assert entries[i].Number? && entries[i].value < prev[i];
          Failure(e)
        else Failure(e)
      case Success(bill) => Success(Submission(curr, bill))
  }

  /** The row write_new_values appends for a successful calculation. */
  function NewRecord(now: int, curr: seq<real>, usage: seq<real>, total: real): Record
    requires |curr| >= 3 && |usage| >= 3
  {
    Record(now, curr[Hot], curr[Cold], curr[Elec], usage[Hot], usage[Cold], usage[Elec], total)
  }

  /** get_last_readings as a value: the last row's current readings, or three
      zeros for an empty history. */
  function LastReadings(rows: seq<Record>): (last: seq<real>)
    ensures |last| == 3
    ensures rows == [] ==> last == [0.0, 0.0, 0.0]
  {
    if rows == [] then [0.0, 0.0, 0.0]
    else [rows[|rows| - 1].hotCurr, rows[|rows| - 1].coldCurr, rows[|rows| - 1].elecCurr]
  }

  /** The options of the period menu in the history tab. */
  datatype Period = All | ThreeMonths | SixMonths | OneYear

  function Label(p: Period): string
  {
    match p
    case All => "Все"
    case ThreeMonths => "3мес."
    case SixMonths => "6мес."
    case OneYear => "1год"
  }

  /** The menu label a period is chosen by; any other label is a KeyError. */
  function PeriodFromLabel(name: string): (p: Option<Period>)
    ensures p.Some? <==> name in {"Все", "3мес.", "6мес.", "1год"}
    ensures p.Some? ==> Label(p.value) == name
  {
    if name == "Все" then Some(All)
    else if name == "3мес." then Some(ThreeMonths)
    else if name == "6мес." then Some(SixMonths)
    else if name == "1год" then Some(OneYear)
    else None
  }

  const SecondsPerDay: int := 86400

  /** The length of a time window, in days. */
  function PeriodDays(p: Period): nat
    requires p != All
  {
    match p
    case ThreeMonths => 90
    case SixMonths => 180
    case OneYear => 365
  }

  /** `datetime.now() - timedelta(days=days)`, dates being seconds. */
  function Cutoff(p: Period, now: int): (c: int)
    requires p != All
    ensures c < now
  {
    now - PeriodDays(p) * SecondsPerDay
  }

  /** A row as the history tab shows it: date, the three usages and the total. */
  datatype HistoryEntry = HistoryEntry(date: int, hotUsage: real, coldUsage: real, elecUsage: real, total: real)

  /** The five columns the history tab keeps of each row. */
  function UsageView(rows: seq<Record>): seq<HistoryEntry>
  {
    seq(|rows|, i requires 0 <= i < |rows| =>
      HistoryEntry(rows[i].date, rows[i].hotUsage, rows[i].coldUsage, rows[i].elecUsage, rows[i].total))
  }

  /** Appending a row to the history adds exactly its usage entry to the end
      of the history tab's rows; the earlier entries stay as they were. */
  lemma UsageViewAppend(rows: seq<Record>, r: Record)
    ensures UsageView(rows + [r]) == UsageView(rows) + [HistoryEntry(r.date, r.hotUsage, r.coldUsage, r.elecUsage, r.total)]
  {
    assert UsageView(rows + [r])[..|rows|] == UsageView(rows);
  }

  /** The rows dated at or after cutoff, in their original order. */
  function KeepSince(rows: seq<HistoryEntry>, cutoff: int): (kept: seq<HistoryEntry>)
    ensures |kept| <= |rows|
    ensures forall x :: x in kept <==> x in rows && x.date >= cutoff
  {
    if rows == [] then []
    else
      var rest := KeepSince(rows[1..], cutoff);
      assert forall x :: x in rows <==> x == rows[0] || x in rows[1..];
      if rows[0].date >= cutoff then [rows[0]] + rest else rest
  }

  /** The period filter of _draw_history: "Все" keeps every row, a window keeps
      the rows dated no earlier than now minus its days. */
  function FilterByPeriod(rows: seq<HistoryEntry>, p: Period, now: int): (shown: seq<HistoryEntry>)
    ensures p == All ==> shown == rows
    ensures |shown| <= |rows|
    ensures forall x :: x in shown <==> x in rows && (p == All || x.date >= Cutoff(p, now))
  {
    if p == All then rows else KeepSince(rows, Cutoff(p, now))
  }

  /** The filter keeps order: filtering a concatenation filters each part. */
  lemma {:induction false} KeepSinceAppend(a: seq<HistoryEntry>, b: seq<HistoryEntry>, cutoff: int)
    ensures KeepSince(a + b, cutoff) == KeepSince(a, cutoff) + KeepSince(b, cutoff)
  {
    if a == [] {
      assert a + b == b;
    } else {
      assert (a + b)[0] == a[0];
      assert (a + b)[1..] == a[1..] + b;
      KeepSinceAppend(a[1..], b, cutoff);
    }
  }

  /** A history whose rows all fall in the window is shown whole. */
  lemma {:induction false} KeepSinceAllRecent(rows: seq<HistoryEntry>, cutoff: int)
    requires forall i :: 0 <= i < |rows| ==> rows[i].date >= cutoff
    ensures KeepSince(rows, cutoff) == rows
  {
    if rows != [] {
      KeepSinceAllRecent(rows[1..], cutoff);
    }
  }

  /** Narrowing a window: filtering the wider view again by a later cutoff is
      the same as filtering the history by that cutoff directly. */
  lemma {:induction false} KeepSinceNarrows(rows: seq<HistoryEntry>, wide: int, narrow: int)
    requires wide <= narrow
    ensures KeepSince(KeepSince(rows, wide), narrow) == KeepSince(rows, narrow)
  {
    if rows != [] {
      KeepSinceNarrows(rows[1..], wide, narrow);
    }
  }

  /** The three-month view is the one-year view filtered again to three months. */
  lemma ShorterPeriodWithinLonger(rows: seq<HistoryEntry>, shorter: Period, longer: Period, now: int)
    requires shorter != All && longer != All && PeriodDays(shorter) <= PeriodDays(longer)
    ensures FilterByPeriod(FilterByPeriod(rows, longer, now), shorter, now) == FilterByPeriod(rows, shorter, now)
  {
    KeepSinceNarrows(rows, Cutoff(longer, now), Cutoff(shorter, now));
  }

  /** The application window: the history file it appends to and the
      previous readings the next calculation is measured against. */
  class UtilityApp {
    /** The history file on disk; None while it does not exist. */
    var historyFile: Option<CsvFile<Record>>
    /** prev_values: the readings the next calculation starts from. */
    var prevValues: seq<real>
    /** COEFF, loaded from the configuration at start-up. */
    const tariffs: Tariffs

    /** The history file exists and prev_values are the last row's readings. */
    ghost predicate Valid()
      reads this
    {
      historyFile.Some? && prevValues == LastReadings(historyFile.value.rows)
    }

    function Rows(): seq<Record>
      reads this
      requires historyFile.Some?
    {
      historyFile.value.rows
    }

    /** Start-up: make sure the history file exists, then load the last readings. */
    constructor (disk: Option<CsvFile<Record>>, coeff: Tariffs)
      ensures Valid() && tariffs == coeff
      ensures historyFile == if disk.None? then Some(CsvFile(HistoryHeader, [])) else disk
    {
      tariffs := coeff;
      historyFile := disk;
      prevValues := [];
      new;
      InitFiles();
      prevValues := GetLastReadings();
    }

    /** init_files: create the file with its header only when it is missing. */
    method InitFiles()
      modifies this`historyFile
      ensures historyFile == if old(historyFile).None? then Some(CsvFile(HistoryHeader, [])) else old(historyFile)
    {
      if historyFile.None? {
        historyFile := Some(CsvFile(HistoryHeader, []));
      }
    }

    /** read_history: the eight columns of the file, row by row in file order. */
    method ReadHistory() returns (dates: seq<int>, hotC: seq<real>, coldC: seq<real>, elecC: seq<real>,
                                  hotU: seq<real>, coldU: seq<real>, elecU: seq<real>, totals: seq<real>)
      requires historyFile.Some?
      ensures |dates| == |hotC| == |coldC| == |elecC| == |Rows()|
      ensures |hotU| == |coldU| == |elecU| == |totals| == |Rows()|
      ensures forall i :: 0 <= i < |Rows()| ==>
        Rows()[i] == Record(dates[i], hotC[i], coldC[i], elecC[i], hotU[i], coldU[i], elecU[i], totals[i])
    {
      var rows := historyFile.value.rows;
      dates, hotC, coldC, elecC, hotU, coldU, elecU, totals := [], [], [], [], [], [], [], [];
      for i := 0 to |rows|
        invariant |dates| == |hotC| == |coldC| == |elecC| == i
        invariant |hotU| == |coldU| == |elecU| == |totals| == i
        invariant forall k :: 0 <= k < i ==>
          rows[k] == Record(dates[k], hotC[k], coldC[k], elecC[k], hotU[k], coldU[k], elecU[k], totals[k])
      {
        var row := rows[i];
        dates := dates + [row.date];
        hotC := hotC + [row.hotCurr];
        coldC := coldC + [row.coldCurr];
        elecC := elecC + [row.elecCurr];
        hotU := hotU + [row.hotUsage];
        coldU := coldU + [row.coldUsage];
        elecU := elecU + [row.elecUsage];
        totals := totals + [row.total];
      }
    }

    /** write_new_values: append exactly one row; the header and every earlier
        row stay as they were. */
    method WriteNewValues(curr: seq<real>, usage: seq<real>, total: real, now: int)
      requires historyFile.Some? && |curr| >= 3 && |usage| >= 3
      modifies this`historyFile
      ensures historyFile.Some? && historyFile.value.header == old(historyFile.value.header)
      ensures Rows() == old(Rows()) + [NewRecord(now, curr, usage, total)]
    {
      var file := historyFile.value;
      historyFile := Some(CsvFile(file.header, file.rows + [NewRecord(now, curr, usage, total)]));
    }

    /** get_last_readings: the last row's current readings, or zeros when the
        history holds no row. */
    method GetLastReadings() returns (last: seq<real>)
      requires historyFile.Some?
      ensures last == LastReadings(Rows())
      ensures Rows() != [] ==>
        last == [Rows()[|Rows()| - 1].hotCurr, Rows()[|Rows()| - 1].coldCurr, Rows()[|Rows()| - 1].elecCurr]
    {
      var dates, hotC, coldC, elecC, hotU, coldU, elecU, totals := ReadHistory();
      if |dates| == 0 {
        last := [0.0, 0.0, 0.0];
      } else {
        last := [hotC[|hotC| - 1], coldC[|coldC| - 1], elecC[|elecC| - 1]];
      }
    }

    /** on_calculate: a rejected input changes nothing; an accepted one appends
        one row and makes its readings the previous ones. */
    method OnCalculate(entries: seq<Entry>, now: int) returns (outcome: Result<Bill>)
      requires Valid() && |entries| == MeterCount
      modifies this
      ensures Valid()
      ensures outcome.Failure? ==> historyFile == old(historyFile) && prevValues == old(prevValues)
      ensures var s := Submit(entries, old(prevValues), tariffs);
        && (s.Failure? ==> outcome == Failure(s.error))
        && (s.Success? ==>
              && outcome == Success(s.value.bill)
              && historyFile.value.header == old(historyFile.value.header)
              && Rows() == old(Rows()) + [NewRecord(now, s.value.curr, s.value.bill.Usages(), s.value.bill.total)]
              && prevValues == s.value.curr)
    {
      var curr := ResolveEntries(entries, prevValues);
      if curr.Failure? {
        outcome := Failure(curr.error);
        return;
      }
      var computed := Calculate(prevValues, curr.value, tariffs);
      if computed.Failure? {
        outcome := Failure(computed.error);
        return;
      }
      var bill := computed.value;
      WriteNewValues(curr.value, bill.Usages(), bill.total, now);
      prevValues := GetLastReadings();
      assert prevValues == curr.value;
      outcome := computed;
    }

    /** _reset_form: reload prev_values from the history, which they already match. */
    method ResetForm()
      requires Valid()
      modifies this`prevValues
      ensures Valid() && prevValues == old(prevValues)
    {
      prevValues := GetLastReadings();
    }

    /** The rows _draw_history lists for the chosen period, oldest first. */
    method DrawHistory(p: Period, now: int) returns (shown: seq<HistoryEntry>)
      requires historyFile.Some?
      ensures shown == FilterByPeriod(UsageView(Rows()), p, now)
    {
      var dates, hotC, coldC, elecC, hotU, coldU, elecU, totals := ReadHistory();
      var zipped := seq(|dates|, i requires 0 <= i < |dates| =>
        HistoryEntry(dates[i], hotU[i], coldU[i], elecU[i], totals[i]));
      assert zipped == UsageView(Rows());
      shown := FilterByPeriod(zipped, p, now);
    }
  }
}
