/** Assessment result reports: the per-instrument report of a learner in an
    activity, computed from the request results, and the activity report
    that takes the worst level of its instrument rows. */
module ReportResults {
  import opened Wrappers
  import opened Collections

  /** Result codes of a request result. */
  function ResultCodeName(c: int): string
  {
    match c
    case 0 => "Pending"
    case 1 => "Ok"
    case 2 => "Warning"
    case 3 => "Alert"
    case _ => "Unknown"
  }

  /** Alert levels of a report. */
  function ReportLevelName(l: int): string
  {
    match l
    case 0 => "Pending"
    case 1 => "No Information"
    case 2 => "Ok"
    case 3 => "Warning"
    case 4 => "Alert"
    case _ => "Unknown"
  }

  /** A result code moved onto the report alert scale: Pending stays, every
      other code skips the "No Information" level. */
  function ShiftCode(c: int): (l: int)
    ensures 0 <= c <= 3 ==> ReportLevelName(l) == ResultCodeName(c)
    ensures 0 <= c <= 3 ==> 0 <= l <= 4 && l != 1
  {
    if c > 0 then c + 1 else c
  }

  /** Python's round() on a float: to the nearest integer, halves to even. */
  function Round(x: real): (r: int)
    ensures x - 1.0 / 2.0 <= r as real <= x + 1.0 / 2.0
    ensures x == x.Floor as real ==> r == x.Floor
    ensures (x - 1.0 / 2.0 < r as real < x + 1.0 / 2.0) || r % 2 == 0
  {
    var f := x.Floor;
    var d := x - f as real;
    if d < 1.0 / 2.0 then f
    else if d > 1.0 / 2.0 then f + 1
    else if f % 2 == 0 then f
    else f + 1
  }

  lemma RoundMonotone(x: real, y: real)
    requires x <= y
    ensures Round(x) <= Round(y)
  {
    if x.Floor < y.Floor {
    } else {
      assert x.Floor == y.Floor;
    }
  }

  /** A request result of a learner for one instrument in one activity. */
  datatype ResultRow = ResultRow(status: int, code: int, result: real)

  function Processed(rows: seq<ResultRow>): (r: seq<ResultRow>)
    ensures |r| <= |rows|
    ensures forall k :: 0 <= k < |r| ==> r[k].status == 1 && r[k] in rows
    ensures forall k :: 0 <= k < |rows| && rows[k].status == 1 ==> rows[k] in r
  {
    if rows == [] then []
    else (if rows[0].status == 1 then [rows[0]] else []) + Processed(rows[1..])
  }

  function Codes(rows: seq<ResultRow>): (r: seq<int>)
    ensures |r| == |rows| && forall k :: 0 <= k < |rows| ==> r[k] == rows[k].code
  {
    if rows == [] then [] else [rows[0].code] + Codes(rows[1..])
  }

  function Sum(xs: seq<real>): real
  {
    if xs == [] then 0.0 else xs[0] + Sum(xs[1..])
  }

  function Results(rows: seq<ResultRow>): (r: seq<real>)
    ensures |r| == |rows| && forall k :: 0 <= k < |rows| ==> r[k] == rows[k].result
  {
    if rows == [] then [] else [rows[0].result] + Results(rows[1..])
  }

  lemma {:induction false} SumBounds(xs: seq<real>, lo: real, hi: real)
    requires forall k :: 0 <= k < |xs| ==> lo <= xs[k] <= hi
    ensures |xs| as real * lo <= Sum(xs) <= |xs| as real * hi
  {
    if xs != [] {
      SumBounds(xs[1..], lo, hi);
    }
  }

  lemma RatioAtMostOne(a: real, b: real)
    requires 0.0 < b && 0.0 <= a <= b
    ensures 0.0 <= a / b <= 1.0
  {
    assert a / b * b == a;
  }

  /** round(processed / total * 100): the share of processed results, as a
      percentage. */
  function Confidence(processed: nat, total: nat): (r: int)
    requires 0 < total && processed <= total
    ensures 0 <= r <= 100
    ensures processed == total ==> r == 100
  {
    var ratio := processed as real / total as real;
    RatioAtMostOne(processed as real, total as real);
    RoundMonotone(0.0, ratio * 100.0);
    RoundMonotone(ratio * 100.0, 100.0);
    assert processed == total ==> ratio * 100.0 == 100.0 by {
      if processed == total {
        var t := total as real;
        assert t != 0.0;
        assert ratio == t / t;
        assert t / t * t == t;
        assert (t / t - 1.0) * t == 0.0;
      }
    }
    Round(ratio * 100.0)
  }

  /** The mean result of the processed results, as a percentage. */
  function MeanPercent(processed: seq<ResultRow>): (r: real)
    requires |processed| > 0
    ensures (forall k :: 0 <= k < |processed| ==> 0.0 <= processed[k].result <= 1.0) ==> 0.0 <= r <= 100.0
  {
    var xs := Results(processed);
    var n := |processed| as real;
    assert (forall k :: 0 <= k < |processed| ==> 0.0 <= processed[k].result <= 1.0) ==>
             0.0 <= Sum(xs) / n <= 1.0 by {
      if forall k :: 0 <= k < |processed| ==> 0.0 <= processed[k].result <= 1.0 {
        SumBounds(xs, 0.0, 1.0);
        assert 1.0 * n == n;
        RatioAtMostOne(Sum(xs), n);
      }
    }
    Sum(xs) / n * 100.0
  }

  /** The flags of an instrument saying which report levels it informs. */
  datatype InstrumentKind = InstrumentKind(identity: bool, originality: bool, authorship: bool, integrity: bool)

  datatype InstrumentReport = InstrumentReport(
    enrolment: int, confidence: int, result: int,
    identityLevel: int, contentLevel: int, integrityLevel: int)

  /** The row created for an instrument seen for the first time: zero
      percentages and every level at its default, Pending. */
  const NewInstrumentReport := InstrumentReport(0, 0, 0, 0, 0, 0)

  /** The level of a report column the instrument informs (`applies`): the
      worst processed code on the report scale; otherwise No Information. */
  function Level(applies: bool, maxCode: int): (l: int)
    ensures 0 <= maxCode <= 3 ==>
              ReportLevelName(l) == if applies then ResultCodeName(maxCode) else "No Information"
  {
    if applies then ShiftCode(maxCode) else 1
  }

  /** update_learner_activity_instrument_report as written: for an
      instrument that informs neither originality nor authorship, the
      content level is left as it was. */
  function UpdateInstrumentReportAsWritten(existing: Option<InstrumentReport>, kind: InstrumentKind,
                                           rows: seq<ResultRow>, enrolments: seq<real>): (r: InstrumentReport)
    requires |Processed(rows)| > 0 && |enrolments| > 0
    ensures !(kind.originality || kind.authorship) ==>
              r.contentLevel == existing.UnwrapOr(NewInstrumentReport).contentLevel
  {
    var base := existing.UnwrapOr(NewInstrumentReport);
    var code := SeqMax(Codes(Processed(rows)));
    var contentLevel := if kind.originality || kind.authorship then ShiftCode(code) else base.contentLevel;
    UpdatedReport(kind, rows, enrolments, contentLevel)
  }

  /** update_learner_activity_instrument_report with the content level set
      to No Information when the instrument does not inform it, like the
      identity and integrity levels. */
  function UpdateInstrumentReport(existing: Option<InstrumentReport>, kind: InstrumentKind,
                                  rows: seq<ResultRow>, enrolments: seq<real>): (r: InstrumentReport)
    requires |Processed(rows)| > 0 && |enrolments| > 0
    ensures var p := Processed(rows);
            var code := SeqMax(Codes(p));
            r.identityLevel == Level(kind.identity, code) &&
            r.contentLevel == Level(kind.originality || kind.authorship, code) &&
            r.integrityLevel == Level(kind.integrity, code) &&
            (forall k :: 0 <= k < |p| ==> p[k].code <= code) &&
            (exists k :: 0 <= k < |p| && p[k].code == code) &&
            0 <= r.confidence <= 100 &&
            (|p| == |rows| ==> r.confidence == 100) &&
            MeanPercent(p) - 1.0 / 2.0 <= r.result as real <= MeanPercent(p) + 1.0 / 2.0 &&
            (forall k :: 0 <= k < |enrolments| ==> r.enrolment <= Round(enrolments[k] * 100.0)) &&
            (exists k :: 0 <= k < |enrolments| && r.enrolment == Round(enrolments[k] * 100.0))
  {
    var code := SeqMax(Codes(Processed(rows)));
    UpdatedReport(kind, rows, enrolments, Level(kind.originality || kind.authorship, code))
  }

  /** The fields both versions compute the same way. */
  function UpdatedReport(kind: InstrumentKind, rows: seq<ResultRow>, enrolments: seq<real>, contentLevel: int)
    : (r: InstrumentReport)
    requires |Processed(rows)| > 0 && |enrolments| > 0
    ensures var p := Processed(rows);
            0 <= r.confidence <= 100 &&
            (|p| == |rows| ==> r.confidence == 100) &&
            MeanPercent(p) - 1.0 / 2.0 <= r.result as real <= MeanPercent(p) + 1.0 / 2.0 &&
            (forall k :: 0 <= k < |enrolments| ==> r.enrolment <= Round(enrolments[k] * 100.0)) &&
            (exists k :: 0 <= k < |enrolments| && r.enrolment == Round(enrolments[k] * 100.0))
  {
    var p := Processed(rows);
    var code := SeqMax(Codes(p));
    InstrumentReport(
      LowestEnrolment(enrolments),
      Confidence(|p|, |rows|),
      MeanResult(p),
      Level(kind.identity, code),
      contentLevel,
      Level(kind.integrity, code))
  }

  /** The enrolment percentage of the report: the rounded lowest
      enrolment among the providers used. */
  function LowestEnrolment(enrolments: seq<real>): (e: int)
    requires |enrolments| > 0
    ensures forall k :: 0 <= k < |enrolments| ==> e <= Round(enrolments[k] * 100.0)
    ensures exists k :: 0 <= k < |enrolments| && e == Round(enrolments[k] * 100.0)
  {
    Round(MinPercent(enrolments) * 100.0)
  }

  /** The result percentage of the report: the mean result, rounded. */
  function MeanResult(p: seq<ResultRow>): (r: int)
    requires |p| > 0
    ensures MeanPercent(p) - 1.0 / 2.0 <= r as real <= MeanPercent(p) + 1.0 / 2.0
  {
    Round(MeanPercent(p))
  }

  /** The lowest enrolment percentage among the providers used. */
  function MinPercent(xs: seq<real>): (m: real)
    requires |xs| > 0
    ensures (exists k :: 0 <= k < |xs| && m == xs[k]) && forall k :: 0 <= k < |xs| ==> m <= xs[k]
    ensures forall k :: 0 <= k < |xs| ==> Round(m * 100.0) <= Round(xs[k] * 100.0)
  {
    var m := if |xs| == 1 then xs[0]
             else var rest := MinPercent(xs[1..]); if xs[0] <= rest then xs[0] else rest;
    assert forall k :: 0 <= k < |xs| ==> m <= xs[k] by {
      forall k | 0 <= k < |xs| ensures m <= xs[k] {
        if k > 0 { assert xs[k] == xs[1..][k - 1]; }
      }
    }
    forall k | 0 <= k < |xs| ensures Round(m * 100.0) <= Round(xs[k] * 100.0) {
      RoundMonotone(m * 100.0, xs[k] * 100.0);
    }
    assert exists k :: 0 <= k < |xs| && m == xs[k] by {
      if |xs| > 1 && m != xs[0] {
        var j :| 0 <= j < |xs[1..]| && m == xs[1..][j];
        assert m == xs[j + 1];
      }
    }
    m
  }

  /** For an identity-only instrument seen for the first time the content
      level, as written, stays at Pending although the instrument has
      nothing to say about content; the corrected update reports No
      Information. */
  lemma ContentLevelStaysPending()
    ensures var kind := InstrumentKind(true, false, false, false);
            var rows := [ResultRow(1, 1, 0.9)];
            ReportLevelName(UpdateInstrumentReportAsWritten(None, kind, rows, [0.8]).contentLevel) == "Pending" &&
            ReportLevelName(UpdateInstrumentReport(None, kind, rows, [0.8]).contentLevel) == "No Information"
  {
    var rows := [ResultRow(1, 1, 0.9)];
    assert Processed(rows) == rows by {
      assert Processed(rows[1..]) == [];
    }
  }

  /** The activity report of a learner: its levels and the time it was
      last written. */
  datatype ActivityReport = ActivityReport(identityLevel: int, contentLevel: int, integrityLevel: int, updatedAt: int)

  /** An instrument row with the time it was last written. */
  datatype Row = Row(report: InstrumentReport, updatedAt: int)

  function UpdatedTimes(rows: seq<Row>): (r: seq<int>)
    ensures |r| == |rows| && forall k :: 0 <= k < |rows| ==> r[k] == rows[k].updatedAt
  {
    if rows == [] then [] else [rows[0].updatedAt] + UpdatedTimes(rows[1..])
  }

  function IdentityLevels(rows: seq<Row>): (r: seq<int>)
    ensures |r| == |rows| && forall k :: 0 <= k < |rows| ==> r[k] == rows[k].report.identityLevel
  {
    if rows == [] then [] else [rows[0].report.identityLevel] + IdentityLevels(rows[1..])
  }

  function ContentLevels(rows: seq<Row>): (r: seq<int>)
    ensures |r| == |rows| && forall k :: 0 <= k < |rows| ==> r[k] == rows[k].report.contentLevel
  {
    if rows == [] then [] else [rows[0].report.contentLevel] + ContentLevels(rows[1..])
  }

  function IntegrityLevels(rows: seq<Row>): (r: seq<int>)
    ensures |r| == |rows| && forall k :: 0 <= k < |rows| ==> r[k] == rows[k].report.integrityLevel
  {
    if rows == [] then [] else [rows[0].report.integrityLevel] + IntegrityLevels(rows[1..])
  }

  /** The TypeError raised when a date is compared with None. */
  const NoRowsError := "'>' not supported between instances of 'datetime.datetime' and 'NoneType'"

  /** update_learner_activity_report: refused when there is no report, or
      when the report is newer than every instrument row; otherwise each
      level becomes the worst level among the instrument rows, and saving
      stamps the report with the time of the save, `now`. Without rows the
      Max aggregate is None, and comparing the report's date with it raises
      TypeError. */
  function UpdateActivityReport(report: Option<ActivityReport>, rows: seq<Row>, now: int): (r: Result<ActivityReport>)
    ensures report.None? ==> r == Err("Report does not exists")
    ensures report.Some? ==>
              (r.Err? <==> forall k :: 0 <= k < |rows| ==> rows[k].updatedAt < report.value.updatedAt)
    ensures report.Some? && rows == [] ==> r == Err(NoRowsError)
    ensures r.Err? && report.Some? && rows != [] ==> r.error == "No new results"
    ensures r.Ok? ==>
              report.Some? && r.value.updatedAt == now &&
              (forall k :: 0 <= k < |rows| ==>
                 rows[k].report.identityLevel <= r.value.identityLevel &&
                 rows[k].report.contentLevel <= r.value.contentLevel &&
                 rows[k].report.integrityLevel <= r.value.integrityLevel) &&
              (exists k :: 0 <= k < |rows| && rows[k].report.identityLevel == r.value.identityLevel) &&
              (exists k :: 0 <= k < |rows| && rows[k].report.contentLevel == r.value.contentLevel) &&
              (exists k :: 0 <= k < |rows| && rows[k].report.integrityLevel == r.value.integrityLevel)
  {
    if report.None? then Err("Report does not exists")
    else if rows == [] then Err(NoRowsError)
    else
      var newest := SeqMax(UpdatedTimes(rows));
      if report.value.updatedAt > newest then Err("No new results")
      else
        Ok(report.value.(
          identityLevel := SeqMax(IdentityLevels(rows)),
          contentLevel := SeqMax(ContentLevels(rows)),
          integrityLevel := SeqMax(IntegrityLevels(rows)),
          updatedAt := now))
  }

  /** Once saved, a report is refused with No new results by the next run
      over the same rows when every row was written before the save. */
  lemma SecondUpdateRefused(report: Option<ActivityReport>, rows: seq<Row>, now: int, later: int)
    requires forall k :: 0 <= k < |rows| ==> rows[k].updatedAt < now
    requires UpdateActivityReport(report, rows, now).Ok?
    ensures UpdateActivityReport(Some(UpdateActivityReport(report, rows, now).value), rows, later) == Err("No new results")
  {
  }
}
