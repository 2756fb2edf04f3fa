/**
 * The proctoring report page: the trust score computed from the stored alert
 * list, its colour, and the timeline table (or the "no malpractices" message).
 * Reading the stored list from browser storage is an input here.
 */
module ProctorReport {
  import Wrappers

  /** One stored alert, `{ time, issue }`. */
  datatype Alert = Alert(time: string, issue: string)

  /** One row of the timeline table. */
  datatype Row = Row(time: string, violation: string, severity: string)

  /** The timeline section: the message for an empty list, otherwise the table. */
  datatype TimelineView = NoMalpractices | Table(rows: seq<Row>)

  datatype ScoreColor = Green | Red

  const HighSeverity := "High"
  const NoMalpracticesText := "No malpractices detected during the session."

  /** `JSON.parse(localStorage.getItem('proctorReport') || "[]")`: a missing key reads as no alerts. */
  function LoadAlerts(stored: Wrappers.Option<seq<Alert>>): (alerts: seq<Alert>)
    ensures stored.None? ==> alerts == []
    ensures stored.Some? ==> alerts == stored.value
  {
    if stored.Some? then stored.value else []
  }

  /** `Math.max(0, 100 - report.length * 10)`. */
  function Score(alertCount: nat): (score: int)
    ensures 0 <= score <= 100
    ensures alertCount <= 10 ==> score == 100 - 10 * alertCount
    ensures alertCount >= 10 ==> score == 0
  {
    if 100 - alertCount * 10 > 0 then 100 - alertCount * 10 else 0
  }

  /** The score is shown green when it is above 80. */
  function Color(score: int): (c: ScoreColor)
    ensures c == Green <==> score > 80
    ensures c == Red <==> score <= 80
  {
    if score > 80 then Green else Red
  }

  /** The score never goes up as alerts accumulate. */
  lemma ScoreAntitone(m: nat, n: nat)
    requires m <= n
    ensures Score(n) <= Score(m)
  {
  }

  /** Green exactly when at most one alert was recorded. */
  lemma GreenIffAtMostOneAlert(alertCount: nat)
    ensures Color(Score(alertCount)) == Green <==> alertCount <= 1
  {
  }

  /** Figures the page produces: no alerts 100, five alerts 50, three alerts 70, twenty alerts 0. */
  lemma ScoreExamples()
    ensures Score(0) == 100 && Score(3) == 70 && Score(5) == 50 && Score(20) == 0
  {
  }

  /** `report.map(...)`: one row per alert, in stored order, every one of severity "High". */
  function Rows(alerts: seq<Alert>): (rows: seq<Row>)
    ensures |rows| == |alerts|
    ensures forall i :: 0 <= i < |alerts| ==>
      rows[i] == Row(alerts[i].time, alerts[i].issue, HighSeverity)
  {
    if alerts == [] then [] else [Row(alerts[0].time, alerts[0].issue, HighSeverity)] + Rows(alerts[1..])
  }

  /** The timeline section: the message for an empty list, the table otherwise. */
  function Timeline(alerts: seq<Alert>): (view: TimelineView)
    ensures view.NoMalpractices? <==> alerts == []
    ensures view.Table? ==> view.rows == Rows(alerts) && |view.rows| == |alerts| > 0
    ensures view.Table? ==> forall i :: 0 <= i < |alerts| ==>
      view.rows[i].time == alerts[i].time && view.rows[i].violation == alerts[i].issue
    ensures view.Table? ==> forall r :: r in view.rows ==> r.severity == HighSeverity
  {
    if |alerts| == 0 then NoMalpractices else Table(Rows(alerts))
  }

  /** Appending an alert appends one row and lowers the score by 10 until it reaches 0. */
  lemma {:induction false} AppendAlert(alerts: seq<Alert>, a: Alert)
    ensures Rows(alerts + [a]) == Rows(alerts) + [Row(a.time, a.issue, HighSeverity)]
    ensures Score(|alerts + [a]|) == if |alerts| < 10 then Score(|alerts|) - 10 else 0
  {
    var r := Rows(alerts + [a]);
    assert |r| == |alerts| + 1;
    assert forall i :: 0 <= i < |alerts| ==> r[i] == Rows(alerts)[i];
  }
}
