/** The main loop of the program: every data row of the file is checked, read and
    derived, and appends one value to each of nine parallel series. */
module Pipeline {
  import opened Results
  import opened Calendar
  import opened DateText
  import opened Derive
  import Csv

  /** Why a file's rows could not all be processed; `row` counts data rows from 0. */
  datatype RowError =
    | MalformedRow(row: nat, width: nat)        // the column-count assertion fails
    | BadCurrent(row: nat)                      // field 0 is not a number
    | BadDate(row: nat, reason: DateError)      // field 1 is not a `%Y-%m-%d` date

  /** A row's content once checked: the LER current and the day of the reading. */
  datatype Reading = Reading(iler: real, date: Date)

  /** Checks a row's width, then reads field 0 as the current (`lexical_cast<double>`,
      given as `toReal`) and field 1 as the date, in that order. */
  function ReadRow(row: nat, fields: seq<string>, toReal: string -> Option<real>): (r: Result<Reading, RowError>)
    ensures |fields| != 2 ==> r == Err(MalformedRow(row, |fields|))
    ensures |fields| == 2 && toReal(fields[0]).None? ==> r == Err(BadCurrent(row))
    ensures |fields| == 2 && toReal(fields[0]).Some? && ParseDate(fields[1]).Err? ==>
      r == Err(BadDate(row, ParseDate(fields[1]).error))
    ensures r.Ok? <==> |fields| == 2 && toReal(fields[0]).Some? && ParseDate(fields[1]).Ok?
    ensures r.Ok? ==>
      && ValidDate(r.value.date)
      && toReal(fields[0]) == Some(r.value.iler)
      && ParseDate(fields[1]) == Ok(r.value.date)
    ensures r.Err? ==> r.error.row == row
  {
    if |fields| != 2 then Err(MalformedRow(row, |fields|))
    else match toReal(fields[0])
      case None => Err(BadCurrent(row))
      case Some(iler) =>
        match ParseDate(fields[1])
        case Err(e) => Err(BadDate(row, e))
        case Ok(d) => Ok(Reading(iler, d))
  }

  /** The nine series the loop fills: time axis, current and bunch current for LER
      and HER, then time axis, bunch-current product and luminosity for collisions. */
  datatype Series = Series(
    vsler: seq<int>, viler: seq<real>, vbler: seq<real>,
    vsher: seq<int>, viher: seq<real>, vbher: seq<real>,
    vscol: seq<int>, vbpro: seq<real>, vlumi: seq<real>)

  /** All nine series hold `n` entries. */
  predicate Aligned(s: Series, n: nat) {
    && |s.vsler| == n && |s.viler| == n && |s.vbler| == n
    && |s.vsher| == n && |s.viher| == n && |s.vbher| == n
    && |s.vscol| == n && |s.vbpro| == n && |s.vlumi| == n
  }

  /** The entries at index `i` of the nine series, gathered as one row. */
  function At(s: Series, n: nat, i: nat): RowValues
    requires Aligned(s, n) && i < n
  {
    RowValues(s.vsler[i], s.viler[i], s.vbler[i], s.vsher[i], s.viher[i], s.vbher[i],
              s.vscol[i], s.vbpro[i], s.vlumi[i])
  }

  /** `push_back` of one row's values onto each series. */
  function Push(s: Series, v: RowValues): Series {
    Series(s.vsler + [v.sler], s.viler + [v.iler], s.vbler + [v.bler],
           s.vsher + [v.sher], s.viher + [v.iher], s.vbher + [v.bher],
           s.vscol + [v.scol], s.vbpro + [v.bpro], s.vlumi + [v.lumi])
  }

  /** Pushing keeps the series aligned, leaves earlier entries alone and puts the
      new row last. */
  lemma PushAppends(s: Series, n: nat, v: RowValues)
    requires Aligned(s, n)
    ensures Aligned(Push(s, v), n + 1)
    ensures At(Push(s, v), n + 1, n) == v
    ensures forall i :: 0 <= i < n ==> At(Push(s, v), n + 1, i) == At(s, n, i)
  {
  }

  /** The sample of a row that reads successfully: its time-axis value, its
      current and the gate decision for its day. */
  function RowSample(row: nat, fields: seq<string>, toReal: string -> Option<real>): Sample
    requires ReadRow(row, fields, toReal).Ok?
  {
    var rd := ReadRow(row, fields, toReal).value;
    SampleOf(rd.iler, rd.date)
  }

  /** Runs the loop over the data rows. It either stops at the first row that does
      not read, reporting it, or returns nine aligned series whose index `i` holds
      exactly what row `i` derives. */
  method ProcessRows(cells: seq<seq<string>>, toReal: string -> Option<real>, lsph: real -> real)
    returns (r: Result<Series, RowError>)
    ensures r.Ok? <==> forall i :: 0 <= i < |cells| ==> ReadRow(i, cells[i], toReal).Ok?
    ensures r.Err? ==>
      && r.error.row < |cells|
      && ReadRow(r.error.row, cells[r.error.row], toReal) == Err(r.error)
      && forall i :: 0 <= i < r.error.row ==> ReadRow(i, cells[i], toReal).Ok?
    ensures r.Ok? ==> Aligned(r.value, |cells|)
    ensures r.Ok? ==> forall i :: 0 <= i < |cells| ==>
      At(r.value, |cells|, i) == DeriveSample(RowSample(i, cells[i], toReal), lsph)
  {
    var s := Series([], [], [], [], [], [], [], [], []);
    var k := 0;
    while k < |cells|
      invariant 0 <= k <= |cells|
      invariant forall i :: 0 <= i < k ==> ReadRow(i, cells[i], toReal).Ok?
      invariant Aligned(s, k)
      invariant forall i :: 0 <= i < k ==> At(s, k, i) == DeriveSample(RowSample(i, cells[i], toReal), lsph)
    {
      var rd := ReadRow(k, cells[k], toReal);
      if rd.Err? {
        return Err(rd.error);
      }
      var s' := Push(s, DeriveRow(rd.value.iler, rd.value.date, lsph));
      PushAppends(s, k, DeriveRow(rd.value.iler, rd.value.date, lsph));
      s := s';
      k := k + 1;
    }
    return Ok(s);
  }

  /** The whole per-file computation: split the file's lines into rows without the
      header, then run the loop. */
  method ProcessFile(lines: seq<string>, tokenize: string -> seq<string>,
                     toReal: string -> Option<real>, lsph: real -> real)
    returns (r: Result<Series, RowError>)
    requires |lines| >= 1
    ensures r.Ok? <==> forall i :: 1 <= i < |lines| ==> ReadRow(i - 1, tokenize(lines[i]), toReal).Ok?
    ensures r.Err? ==>
      && r.error.row < |lines| - 1
      && ReadRow(r.error.row, tokenize(lines[r.error.row + 1]), toReal) == Err(r.error)
      && forall i :: 1 <= i <= r.error.row ==> ReadRow(i - 1, tokenize(lines[i]), toReal).Ok?
    ensures r.Ok? ==> Aligned(r.value, |lines| - 1)
    ensures r.Ok? ==> forall i :: 1 <= i < |lines| ==>
      At(r.value, |lines| - 1, i - 1) == DeriveSample(RowSample(i - 1, tokenize(lines[i]), toReal), lsph)
  {
    var cells := Csv.ParseCsv(lines, tokenize);
    assert forall i :: 1 <= i < |lines| ==> tokenize(lines[i]) == cells[i - 1];
    r := ProcessRows(cells, toReal, lsph);
  }

  /** Index-wise facts about series built from samples: the three time axes agree,
      the currents follow the fixed ratios, and the product and luminosity are real
      values where the gate is open and the sentinel exactly where it is closed. */
  lemma SeriesEntries(s: Series, samples: seq<Sample>, lsph: real -> real, i: nat)
    requires Aligned(s, |samples|)
    requires forall j :: 0 <= j < |samples| ==> At(s, |samples|, j) == DeriveSample(samples[j], lsph)
    requires i < |samples|
    ensures s.vsler[i] == s.vsher[i] == s.vscol[i] == samples[i].sec
    ensures s.viler[i] == samples[i].iler
    ensures s.viher[i] == s.viler[i] * 1.83 / 2.58
    ensures s.vbler[i] == s.viler[i] / 2346.0 * 1000.0
    ensures s.vbher[i] == s.viher[i] / 2346.0 * 1000.0
    ensures samples[i].collides ==>
      && s.vbpro[i] == s.vbler[i] * s.vbher[i]
      && s.vlumi[i] == s.vbpro[i] * lsph(s.vbpro[i]) * 2346.0 / 1.0e35
    ensures !samples[i].collides ==> s.vlumi[i] == -100.0
    ensures s.vbpro[i] == -100.0 <==> !samples[i].collides
  {
    assert At(s, |samples|, i) == DeriveSample(samples[i], lsph);
    DeriveCurrents(samples[i], lsph);
    DeriveProducts(samples[i], lsph);
    SentinelMeansGateClosed(samples[i], lsph);
  }

  /** Later rows sit later on the time axis exactly when they are later days. */
  lemma SeriesTimeOrder(s: Series, readings: seq<Reading>, lsph: real -> real, i: nat, j: nat)
    requires Aligned(s, |readings|)
    requires forall k :: 0 <= k < |readings| ==> ValidDate(readings[k].date)
    requires forall k :: 0 <= k < |readings| ==>
      At(s, |readings|, k) == DeriveRow(readings[k].iler, readings[k].date, lsph)
    requires i < |readings| && j < |readings|
    ensures s.vsler[i] < s.vsler[j] <==> Before(readings[i].date, readings[j].date)
  {
    assert At(s, |readings|, i).sler == s.vsler[i];
    assert At(s, |readings|, j).sler == s.vsler[j];
    TimeAxis.AxisOrder(readings[i].date, readings[j].date);
  }

  /** A one-field row such as `1.2345` is rejected as malformed, whatever the converter. */
  lemma OneFieldRowRejected(toReal: string -> Option<real>)
    ensures Csv.SplitOnComma("1.2345") == ["1.2345"]
    ensures ReadRow(0, Csv.SplitOnComma("1.2345"), toReal) == Err(MalformedRow(0, 1))
  {
    Csv.PiecesAfterField("1.2345", "");
  }
}
