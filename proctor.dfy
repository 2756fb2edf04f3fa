/**
 * The proctoring endpoints: `initial-check`, which accepts a calibration
 * snapshot when exactly one face is visible, and `monitor`, which lists the
 * issues it finds in a snapshot and reports them as one alert.
 *
 * Image decoding, the Haar-cascade face detector and the YOLO person-and-phone
 * model are foreign code: their results are inputs here.
 */
module Proctor {
  import opened Wrappers
  import opened Text

  /** What the face detector reports for a decoded frame: a face count, or an exception. */
  datatype Detection = Faces(count: nat) | DetectorRaised(message: string)

  /** An uploaded image: undecodable (`imdecode` gave `None`), or decoded, with what the detector found. */
  datatype Frame = Undecodable | Decoded(detection: Detection)

  /** The JSON body `{"status": ..., "detail": ...}` of `initial-check`. */
  datatype CheckResponse = CheckResponse(status: string, detail: string)

  /**
   * What `process_frame_for_proctoring(frame)` produced: an exception, or a
   * result dictionary with its `status` entry, the truthiness of its
   * `phone_detected` entry and its `person_count` entry (0 when absent).
   */
  datatype YoloOutcome =
    | YoloRaised(message: string)
    | YoloResult(status: Option<string>, phoneDetected: bool, personCount: int)

  /**
   * The reply of `monitor`: `{"status": "error"}`, `{"status": "ok"}`,
   * `{"status": "alert", "issue": ...}`, or an exception of the face detector,
   * which the endpoint does not catch.
   */
  datatype MonitorResponse = MonitorError | MonitorOk | MonitorAlert(issue: string) | Unhandled(message: string)

  const NoFace := "No face visible (Standard)"
  const MultipleFaces := "Multiple faces detected (Standard)"
  const PhoneDetected := "Mobile Phone Detected!"
  const MultiplePeople := "Multiple People Detected!"
  const IssueSeparator := ", "

  /**
   * `initial_check`: exactly one face is `ok`; none or several faces `fail`
   * with the reason; an undecodable image or a detector exception is `error`.
   */
  function InitialCheck(frame: Frame): (r: CheckResponse)
    ensures r.status == "ok" <==> frame == Decoded(Faces(1))
    ensures r.status == "ok" ==> r.detail == "Face Centered"
    ensures r.status == "fail" <==> frame.Decoded? && frame.detection.Faces? && frame.detection.count != 1
    ensures r.status == "error" <==> frame.Undecodable? || frame.detection.DetectorRaised?
    ensures frame.Undecodable? ==> r.detail == "Invalid image format"
    ensures frame == Decoded(Faces(0)) ==> r.detail == "No face detected"
    ensures frame.Decoded? && frame.detection.Faces? && frame.detection.count > 1 ==>
      r.detail == "Multiple faces detected"
    ensures frame.Decoded? && frame.detection.DetectorRaised? ==> r.detail == frame.detection.message
  {
    match frame
    case Undecodable => CheckResponse("error", "Invalid image format")
    case Decoded(DetectorRaised(msg)) => CheckResponse("error", msg)
    case Decoded(Faces(n)) =>
      if n == 0 then CheckResponse("fail", "No face detected")
      else if n > 1 then CheckResponse("fail", "Multiple faces detected")
      else CheckResponse("ok", "Face Centered")
  }

  /** The face-count issue `monitor` appends: at most one, and never both. */
  function FaceIssues(faces: nat): (issues: seq<string>)
    ensures |issues| <= 1
    ensures issues == [NoFace] <==> faces == 0
    ensures issues == [MultipleFaces] <==> faces > 1
    ensures issues == [] <==> faces == 1
  {
    if faces == 0 then [NoFace] else if faces > 1 then [MultipleFaces] else []
  }

  /** YOLO flags count only when the model is loaded and its result has status "success". */
  predicate YoloSucceeded(yoloAvailable: bool, yolo: YoloOutcome) {
    yoloAvailable && yolo.YoloResult? && yolo.status == Some("success")
  }

  /** The YOLO issues `monitor` appends: the phone before the extra people. */
  function YoloIssues(yoloAvailable: bool, yolo: YoloOutcome): (issues: seq<string>)
    ensures PhoneDetected in issues <==> YoloSucceeded(yoloAvailable, yolo) && yolo.phoneDetected
    ensures MultiplePeople in issues <==> YoloSucceeded(yoloAvailable, yolo) && yolo.personCount > 1
    ensures issues == [] || issues == [PhoneDetected] || issues == [MultiplePeople]
         || issues == [PhoneDetected, MultiplePeople]
  {
    if !YoloSucceeded(yoloAvailable, yolo) then []
    else (if yolo.phoneDetected then [PhoneDetected] else [])
         + (if yolo.personCount > 1 then [MultiplePeople] else [])
  }

  /**
   * `monitor`: builds the issue list (face count first, then the YOLO flags)
   * and answers with an alert naming them all, joined by ", ", or with ok when
   * there is none. A YOLO exception is swallowed; a detector exception is not.
   */
  method Monitor(frame: Frame, yoloAvailable: bool, yolo: YoloOutcome) returns (r: MonitorResponse)
    ensures frame.Undecodable? ==> r == MonitorError
    ensures frame.Decoded? && frame.detection.DetectorRaised? ==> r == Unhandled(frame.detection.message)
    ensures frame.Decoded? && frame.detection.Faces? ==>
      var issues := FaceIssues(frame.detection.count) + YoloIssues(yoloAvailable, yolo);
      r == if issues == [] then MonitorOk else MonitorAlert(Join(issues, IssueSeparator))
    ensures r.MonitorAlert? ==> r.issue != ""
  {
    if frame.Undecodable? {
      return MonitorError;
    }
    if frame.detection.DetectorRaised? {
      return Unhandled(frame.detection.message);
    }
    var faces := frame.detection.count;
    var issues: seq<string> := [];
    if faces == 0 {
      issues := issues + [NoFace];
    } else if faces > 1 {
      issues := issues + [MultipleFaces];
    }
    if yoloAvailable && yolo.YoloResult? {
      if yolo.status == Some("success") {
        if yolo.phoneDetected {
          issues := issues + [PhoneDetected];
        }
        if yolo.personCount > 1 {
          issues := issues + [MultiplePeople];
        }
      }
    }
    assert issues == FaceIssues(faces) + YoloIssues(yoloAvailable, yolo);
    if issues != [] {
      assert issues[0] != "";
      r := MonitorAlert(Join(issues, IssueSeparator));
    } else {
      r := MonitorOk;
    }
  }

  /** The alert text is an alert exactly when something was found, whatever YOLO did. */
  lemma MonitorAlertIff(faces: nat, yoloAvailable: bool, yolo: YoloOutcome)
    ensures var issues := FaceIssues(faces) + YoloIssues(yoloAvailable, yolo);
      issues == [] <==> faces == 1 && !(YoloSucceeded(yoloAvailable, yolo) && (yolo.phoneDetected || yolo.personCount > 1))
  {
  }

  /** A YOLO exception still lets the face-count issue through, alone. */
  lemma YoloFailureKeepsFaceIssue(faces: nat, yoloAvailable: bool, message: string)
    ensures FaceIssues(faces) + YoloIssues(yoloAvailable, YoloRaised(message)) == FaceIssues(faces)
  {
  }

  /** The alert text begins with the face-count issue when there is one, and ends with the last issue found. */
  lemma {:induction false} AlertTextOrder(faces: nat, yoloAvailable: bool, yolo: YoloOutcome)
    requires faces != 1 || YoloIssues(yoloAvailable, yolo) != []
    ensures var issues := FaceIssues(faces) + YoloIssues(yoloAvailable, yolo);
      && (faces != 1 ==> IsPrefix(FaceIssues(faces)[0], Join(issues, IssueSeparator)))
      && IsSuffix(issues[|issues| - 1], Join(issues, IssueSeparator))
  {
    var issues := FaceIssues(faces) + YoloIssues(yoloAvailable, yolo);
    JoinEndsWithLast(issues, IssueSeparator);
  }
}
