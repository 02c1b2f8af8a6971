/**
 The fixed-tariff variant of the calculator (main.py): the previous readings
 live in a values file that every successful calculation overwrites, and each
 calculation also appends the new readings to a history file.
 */
module ValuesApp {
  import opened Meters

  /** COEFF: rubles per cubic metre of hot water, cold water and sewage, and per kWh. */
  const MainTariffs: Tariffs := Tariffs(186.37, 41.00, 28.10, 4.95)

  /** What init_files writes into a missing values file. */
  const InitialValues: seq<real> := [0.0, 0.0, 0.0]

  /** The header init_files writes into a new history file. */
  const HistoryHeader: seq<string> := ["date", "hot_water", "cold_water", "electricity"]

  /** A history row: the save time followed by the readings as entered. */
  datatype HistoryRow = HistoryRow(date: int, readings: seq<real>)

  /** What calculate_utility_cost returns: (total, hot, cold, sewage, elec). */
  datatype Bill = Bill(total: real, hot: real, cold: real, sewage: real, elec: real)

  /** calculate_utility_cost with the fixed tariffs: rejected when some current
      reading is below the previous one; otherwise per-meter usages, sewage as
      hot plus cold, and the rounded sum of usage times tariff. */
  function Calculate(prev: seq<real>, curr: seq<real>): (r: Result<Bill>)
    ensures r == Failure(Regression) <==> Regressed(prev, curr)
    ensures r == Failure(MissingReading) <==> !Regressed(prev, curr) && (|prev| < 3 || |curr| < 3)
    ensures r.Success? <==> !Regressed(prev, curr) && |prev| >= 3 && |curr| >= 3
    ensures r.Success? ==>
      && prev[Hot] + r.value.hot == curr[Hot]
      && prev[Cold] + r.value.cold == curr[Cold]
      && prev[Elec] + r.value.elec == curr[Elec]
      && r.value.hot >= 0.0 && r.value.cold >= 0.0 && r.value.elec >= 0.0
      && r.value.sewage == r.value.hot + r.value.cold
      && r.value.total == Round2(r.value.hot * 186.37 + r.value.cold * 41.00 + r.value.sewage * 28.10 + r.value.elec * 4.95)
      && r.value.total >= 0.0
  {
    if Regressed(prev, curr) then Failure(Regression)
    else if |prev| < 3 || |curr| < 3 then Failure(MissingReading)
    else
      assert !(curr[Hot] < prev[Hot]) && !(curr[Cold] < prev[Cold]) && !(curr[Elec] < prev[Elec]);
      var hot := curr[Hot] - prev[Hot];
      var cold := curr[Cold] - prev[Cold];
      var sewage := hot + cold;
      var elec := curr[Elec] - prev[Elec];
      Success(Bill(Round2(UnroundedCost(hot, cold, elec, MainTariffs)), hot, cold, sewage, elec))
  }

  /** `[float(var.get()) for var in entries]`: an empty or malformed entry is a
      ValueError. */
  function ParseEntries(entries: seq<Entry>): (r: Result<seq<real>>)
    ensures r.Failure? ==> r.error == InvalidNumber
    ensures r.Failure? <==> exists i :: 0 <= i < |entries| && !entries[i].Number?
    ensures r.Success? ==>
      && |r.value| == |entries|
      && forall i :: 0 <= i < |entries| ==> entries[i].Number? && r.value[i] == entries[i].value
  {
    if entries == [] then Success([])
    else if !entries[0].Number? then Failure(InvalidNumber)
    else
      match ParseEntries(entries[1..])
      case Failure(e) =>
        var i :| 0 <= i < |entries[1..]| && !entries[1..][i].Number?;
        assert !entries[i + 1].Number?;
        Failure(e)
      case Success(rest) => Success([entries[0].value] + rest)
  }

  /** The readings on_calculate parsed, with the bill for them. */
  datatype Submission = Submission(curr: seq<real>, bill: Bill)

  /** The try block of on_calculate: parse the entries, then calculate
      against the values file's readings. */
  function Submit(entries: seq<Entry>, prev: seq<real>): (r: Result<Submission>)
    ensures (exists i :: 0 <= i < |entries| && entries[i].Empty?) ==> r == Failure(InvalidNumber)
    ensures r.Failure? <==>
      || (exists i :: 0 <= i < |entries| && !entries[i].Number?)
      || (exists i :: 0 <= i < |entries| && i < |prev| && entries[i].Number? && entries[i].value < prev[i])
      || |entries| < 3 || |prev| < 3
    ensures r.Success? ==>
      && |r.value.curr| == |entries|
      && (forall i :: 0 <= i < |entries| ==> entries[i].Number? && r.value.curr[i] == entries[i].value)
      && Calculate(prev, r.value.curr) == Success(r.value.bill)
  {
    match ParseEntries(entries)
    case Failure(e) => Failure(e)
    case Success(curr) =>
      match Calculate(prev, curr)
      case Failure(e) =>
        if e == Regression then
          var i :| 0 <= i < |prev| && i < |curr| && curr[i] < prev[i];
          assert entries[i].Number? && entries[i].value < prev[i];
          Failure(e)
        else Failure(e)
      case Success(bill) => Success(Submission(curr, bill))
  }

  /** The two files the program keeps next to itself. */
  class UtilityFiles {
    /** The values file, as the readings it holds; None while it does not exist. */
    var valuesFile: Option<seq<real>>
    /** The history file; None while it does not exist. */
    var historyFile: Option<CsvFile<HistoryRow>>

    ghost predicate Valid()
      reads this
    {
      valuesFile.Some? && historyFile.Some?
    }

    function Rows(): seq<HistoryRow>
      reads this
      requires historyFile.Some?
    {
      historyFile.value.rows
    }

    /** Program start: the files as found on disk, then init_files. */
    constructor (values0: Option<seq<real>>, history0: Option<CsvFile<HistoryRow>>)
      ensures Valid()
      ensures valuesFile == if values0.None? then Some(InitialValues) else values0
      ensures historyFile == if history0.None? then Some(CsvFile(HistoryHeader, [])) else history0
    {
      valuesFile := values0;
      historyFile := history0;
      new;
      InitFiles();
    }

    /** init_files: create each file that is missing; an existing file is
        never overwritten. */
    method InitFiles()
      modifies this
      ensures Valid()
      ensures valuesFile == if old(valuesFile).None? then Some(InitialValues) else old(valuesFile)
      ensures historyFile == if old(historyFile).None? then Some(CsvFile(HistoryHeader, [])) else old(historyFile)
    {
      if valuesFile.None? {
        valuesFile := Some(InitialValues);
      }
      if historyFile.None? {
        historyFile := Some(CsvFile(HistoryHeader, []));
      }
    }

    /** read_previous_values: the readings the values file holds. */
    method ReadPreviousValues() returns (prev: seq<real>)
      requires valuesFile.Some?
      ensures prev == valuesFile.value
    {
      prev := valuesFile.value;
    }

    /** write_new_values: overwrite the values file with the new readings and
        append one row with them to the history. */
    method WriteNewValues(values: seq<real>, now: int)
      requires Valid()
      modifies this
      ensures Valid()
      ensures valuesFile == Some(values)
      ensures historyFile.value.header == old(historyFile.value.header)
      ensures Rows() == old(Rows()) + [HistoryRow(now, values)]
    {
      valuesFile := Some(values);
      var file := historyFile.value;
      historyFile := Some(CsvFile(file.header, file.rows + [HistoryRow(now, values)]));
    }

    /** on_calculate: parse, read the previous values, calculate, and write
        only when all of that succeeded. */
    method OnCalculate(entries: seq<Entry>, now: int) returns (outcome: Result<Bill>)
      requires Valid()
      modifies this
      ensures Valid()
      ensures outcome.Failure? ==> valuesFile == old(valuesFile) && historyFile == old(historyFile)
      ensures var s := Submit(entries, old(valuesFile.value));
        && (s.Failure? ==> outcome == Failure(s.error))
        && (s.Success? ==>
              && outcome == Success(s.value.bill)
              && valuesFile == Some(s.value.curr)
              && historyFile.value.header == old(historyFile.value.header)
              && Rows() == old(Rows()) + [HistoryRow(now, s.value.curr)])
    {
      var curr := ParseEntries(entries);
      if curr.Failure? {
        outcome := Failure(curr.error);
        return;
      }
      var prev := ReadPreviousValues();
      var computed := Calculate(prev, curr.value);
      if computed.Failure? {
        outcome := Failure(computed.error);
        return;
      }
      WriteNewValues(curr.value, now);
      outcome := computed;
    }
  }
}
