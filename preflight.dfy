/**
 * The device preflight check of the interview page: five status entries
 * (`internet`, `microphone`, `screen`, `camera`, `aiCheck`) updated by four
 * probes that `runTests` runs in strict order, plus the `currentStep` counter
 * and the scheduled navigation to `/interview`.
 *
 * The browser calls a probe waits on (`fetch`, `getUserMedia`,
 * `getDisplayMedia`, the canvas snapshot and the calibration request) are
 * replaced by their outcomes, passed in as parameters.
 */
module Preflight {
  import Wrappers
  import opened Text

  datatype StepId = Internet | Microphone | Screen | Camera | AiCheck

  /** `loading` in the page is `Loading` here. */
  datatype Status = Pending | Loading | Success | Warning | Fail

  datatype StepState = StepState(status: Status, msg: string)

  const LatencyLimitMs: nat := 2000
  const Waiting := StepState(Pending, "Waiting...")
  const WaitingForCamera := StepState(Pending, "Waiting for camera...")
  const AiFailDefault := "Face not visible or centered"
  const Verifying := StepState(Loading, "Verifying face position...")

  /** A status that lets the sequence go on: a warning is a pass with a caveat. */
  predicate Passes(s: Status) {
    s == Success || s == Warning
  }

  /** What the latency ping produced: a reply after `latencyMs`, or a rejected fetch. */
  datatype PingOutcome = Reached(latencyMs: nat) | FetchFailed

  datatype Media = Mic | ScreenShare

  /** The camera request: denied, or granted while the preview element is or is not mounted. */
  datatype CameraOutcome = CameraDenied | CameraGranted(previewMounted: bool)

  /**
   * The calibration request: a parsed JSON reply with its `status` and `detail`
   * fields (absent fields are `None`), or a request or parse error.
   * `NoSnapshot` is a video without a size: the canvas is 0 by 0, `toBlob`
   * hands `null` to the callback, `formData.append` throws outside the
   * callback's `try`, and the probe's promise never settles.
   */
  datatype AiOutcome =
    | AiReplied(status: Wrappers.Option<string>, detail: Wrappers.Option<string>)
    | AiUnreachable
    | NoSnapshot

  /** A probe's final status entry and the value it returns. */
  datatype Verdict = Verdict(state: StepState, passed: bool)

  /** The two entries the camera probe writes and the value it returns. */
  datatype CameraVerdict = CameraVerdict(camera: StepState, aiCheck: StepState, passed: bool)

  /** `checkInternet`: under the latency limit is a success, over it a warning, no reply a failure. */
  function InternetVerdict(ping: PingOutcome): (v: Verdict)
    ensures v.passed <==> Passes(v.state.status)
    ensures v.state.status == Success <==> ping.Reached? && ping.latencyMs < LatencyLimitMs
    ensures v.state.status == Warning <==> ping.Reached? && ping.latencyMs >= LatencyLimitMs
    ensures v.state.status == Fail <==> ping.FetchFailed?
  {
    match ping
    case Reached(ms) =>
      if ms < LatencyLimitMs then Verdict(StepState(Success, "Stable (" + NatToString(ms) + "ms)"), true)
      else Verdict(StepState(Warning, "Slow (" + NatToString(ms) + "ms)"), true)
    case FetchFailed => Verdict(StepState(Fail, "No connection to server"), false)
  }

  /** `checkMicrophone` and `checkScreen`: a granted stream is a success, a rejected request a failure. */
  function MediaVerdict(media: Media, granted: bool): (v: Verdict)
    ensures v.passed == granted
    ensures v.state.status == (if granted then Success else Fail)
  {
    match media
    case Mic =>
      if granted then Verdict(StepState(Success, "Input detected"), true)
      else Verdict(StepState(Fail, "Access denied or not found"), false)
    case ScreenShare =>
      if granted then Verdict(StepState(Success, "Screen sharing works"), true)
      else Verdict(StepState(Fail, "Screen share cancelled/failed"), false)
  }

  /** JavaScript truthiness of an optional string field. */
  predicate Truthy(s: Wrappers.Option<string>) {
    s.Some? && s.value != ""
  }

  /**
   * The calibration reply: `status === 'ok'` passes, any other reply fails with
   * its `detail` (or the default text when that is falsy), and an unreachable
   * backend is a warning that still passes. Without a snapshot the entry is
   * left at "Verifying face position..." and the probe never passes.
   */
  function AiVerdict(ai: AiOutcome): (v: Verdict)
    ensures v.passed <==> Passes(v.state.status)
    ensures v.state.status == Success <==> ai.AiReplied? && ai.status == Wrappers.Some("ok")
    ensures v.state.status == Fail <==> ai.AiReplied? && ai.status != Wrappers.Some("ok")
    ensures v.state.status == Warning <==> ai.AiUnreachable?
    ensures v.state.status == Loading <==> ai.NoSnapshot?
    ensures ai.NoSnapshot? ==> v.state == Verifying
    ensures v.state.status == Fail ==>
      v.state.msg == (if Truthy(ai.detail) then ai.detail.value else AiFailDefault)
  {
    match ai
    case AiReplied(status, detail) =>
      if status == Wrappers.Some("ok") then Verdict(StepState(Success, "Face detected & centered"), true)
      else Verdict(StepState(Fail, if Truthy(detail) then detail.value else AiFailDefault), false)
    case AiUnreachable => Verdict(StepState(Warning, "AI Backend offline (Bypassed)"), true)
    case NoSnapshot => Verdict(Verifying, false)
  }

  /**
   * `checkCameraAndFace`: a denied camera fails and leaves `aiCheck` waiting; a
   * granted camera without a mounted preview returns false with the camera
   * still loading; otherwise the camera succeeds and the calibration decides.
   */
  function CameraAndFaceVerdict(cam: CameraOutcome, ai: AiOutcome): (v: CameraVerdict)
    ensures v.passed <==> cam == CameraGranted(true) && AiVerdict(ai).passed
    ensures v.passed ==> Passes(v.camera.status) && Passes(v.aiCheck.status)
    ensures cam.CameraDenied? ==> v.camera.status == Fail && v.aiCheck.status == Pending
    ensures cam == CameraGranted(false) ==> v.camera.status == Loading && v.aiCheck.status == Pending
    ensures cam == CameraGranted(true) ==> v.camera.status == Success && v.aiCheck == AiVerdict(ai).state
  {
    match cam
    case CameraDenied => CameraVerdict(StepState(Fail, "Camera failed"), WaitingForCamera, false)
    case CameraGranted(mounted) =>
      if !mounted then CameraVerdict(StepState(Loading, "Accessing camera..."), WaitingForCamera, false)
      else
        var a := AiVerdict(ai);
        CameraVerdict(StepState(Success, "Camera working"), a.state, a.passed)
  }

  /**
   * How many probes of `runTests` pass before the first one that returns false
   * (4 when all pass): probe k+1 runs only if the first k passed.
   */
  function PassedPrefix(ping: PingOutcome, micGranted: bool, screenGranted: bool,
                        cam: CameraOutcome, ai: AiOutcome): (k: nat)
    ensures k <= 4
    ensures k >= 1 <==> InternetVerdict(ping).passed
    ensures k >= 2 <==> InternetVerdict(ping).passed && micGranted
    ensures k >= 3 <==> InternetVerdict(ping).passed && micGranted && screenGranted
    ensures k == 4 <==> InternetVerdict(ping).passed && micGranted && screenGranted
                        && CameraAndFaceVerdict(cam, ai).passed
  {
    if !InternetVerdict(ping).passed then 0
    else if !micGranted then 1
    else if !screenGranted then 2
    else if !CameraAndFaceVerdict(cam, ai).passed then 3
    else 4
  }

  /** One track of a media stream; `stop()` ends it. */
  class Track {
    var live: bool

    constructor ()
      ensures live
    {
      live := true;
    }

    method Stop()
      modifies this
      ensures !live
    {
      live := false;
    }
  }

  /** The tracks of a granted stream, none for a rejected request. */
  function TracksOf(stream: Wrappers.Option<seq<Track>>): set<Track> {
    if stream.Some? then set t | t in stream.value else {}
  }

  /** `stream.getTracks().forEach(t => t.stop())`. */
  method StopAll(tracks: seq<Track>)
    modifies set t | t in tracks
    ensures forall t :: t in tracks ==> !t.live
  {
    var i := 0;
    while i < |tracks|
      invariant 0 <= i <= |tracks|
      invariant forall j :: 0 <= j < i ==> !tracks[j].live
    {
      tracks[i].Stop();
      i := i + 1;
    }
  }

  /** The order in which the page lists (and the probes fill) the five entries. */
  const Order: seq<StepId> := [Internet, Microphone, Screen, Camera, AiCheck]

  class SystemCheck {
    var steps: map<StepId, StepState>
    var currentStep: nat
    var navigationScheduled: bool

    ghost predicate Valid()
      reads this
    {
      Internet in steps && Microphone in steps && Screen in steps && Camera in steps && AiCheck in steps
    }

    ghost predicate AllPending()
      reads this
      requires Valid()
    {
      && steps[Internet].status == Pending && steps[Microphone].status == Pending
      && steps[Screen].status == Pending && steps[Camera].status == Pending
      && steps[AiCheck].status == Pending
    }

    /** The statuses in display order. */
    ghost function Statuses(): (s: seq<Status>)
      reads this
      requires Valid()
      ensures |s| == 5
    {
      [steps[Internet].status, steps[Microphone].status, steps[Screen].status,
       steps[Camera].status, steps[AiCheck].status]
    }

    constructor ()
      ensures Valid() && AllPending()
      ensures steps == InitialSteps
      ensures currentStep == 0 && !navigationScheduled
    {
      steps := InitialSteps;
      currentStep := 0;
      navigationScheduled := false;
    }

    method CheckInternet(ping: PingOutcome) returns (passed: bool)
      requires Valid()
      modifies this`steps
      ensures Valid()
      ensures steps == old(steps)[Internet := InternetVerdict(ping).state]
      ensures passed == InternetVerdict(ping).passed
    {
      steps := steps[Internet := StepState(Loading, "Checking connectivity...")];
      var v := InternetVerdict(ping);
      steps := steps[Internet := v.state];
      passed := v.passed;
    }

    /** Acquire a stream (`None` when the request is rejected), stop all its tracks, report. */
    method CheckMedia(media: Media, stream: Wrappers.Option<seq<Track>>) returns (passed: bool)
      requires Valid()
      modifies this`steps, TracksOf(stream)
      ensures Valid()
      ensures steps == old(steps)[StepOf(media) := MediaVerdict(media, stream.Some?).state]
      ensures passed == stream.Some?
      ensures forall t :: t in TracksOf(stream) ==> !t.live
    {
      var loading := if media == Mic then "Requesting access..." else "Please share your entire screen...";
      steps := steps[StepOf(media) := StepState(Loading, loading)];
      if stream.Some? {
        StopAll(stream.value);
      }
      var v := MediaVerdict(media, stream.Some?);
      steps := steps[StepOf(media) := v.state];
      passed := v.passed;
    }

    method CheckCameraAndFace(cam: CameraOutcome, ai: AiOutcome) returns (passed: bool)
      requires Valid()
      modifies this`steps
      ensures Valid()
      ensures var v := CameraAndFaceVerdict(cam, ai);
        steps == old(steps)[Camera := v.camera][AiCheck := v.aiCheck] && passed == v.passed
    {
      steps := steps[Camera := StepState(Loading, "Accessing camera...")][AiCheck := WaitingForCamera];
      if cam.CameraDenied? {
        steps := steps[Camera := StepState(Fail, "Camera failed")];
        return false;
      }
      if !cam.previewMounted {
        return false;
      }
      steps := steps[Camera := StepState(Success, "Camera working")][AiCheck := Verifying];
      var a := AiVerdict(ai);
      steps := steps[AiCheck := a.state];
      passed := a.passed;
    }

    /** The probes `runTests` runs once the connectivity probe has passed. */
    method RunAfterInternet(ping: PingOutcome, mic: Wrappers.Option<seq<Track>>, screen: Wrappers.Option<seq<Track>>,
                            cam: CameraOutcome, ai: AiOutcome) returns (allPassed: bool)
      requires Valid() && InternetVerdict(ping).passed
      modifies this`steps, this`currentStep, this`navigationScheduled, TracksOf(mic), TracksOf(screen)
      ensures Valid()
      ensures var k := PassedPrefix(ping, mic.Some?, screen.Some?, cam, ai);
        && steps[Internet] == old(steps[Internet])
        && steps[Microphone] == MediaVerdict(Mic, mic.Some?).state
        && steps[Screen] == (if k >= 2 then MediaVerdict(ScreenShare, screen.Some?).state else old(steps[Screen]))
        && steps[Camera] == (if k >= 3 then CameraAndFaceVerdict(cam, ai).camera else old(steps[Camera]))
        && steps[AiCheck] == (if k >= 3 then CameraAndFaceVerdict(cam, ai).aiCheck else old(steps[AiCheck]))
        && currentStep == (if k >= 3 then 3 else k)
        && navigationScheduled == (old(navigationScheduled) || k == 4)
        && allPassed == (k == 4)
      ensures var k := PassedPrefix(ping, mic.Some?, screen.Some?, cam, ai);
        && (forall t :: t in TracksOf(mic) ==> !t.live)
        && (k >= 2 ==> forall t :: t in TracksOf(screen) ==> !t.live)
        && (k < 2 ==> forall t :: t in TracksOf(screen) - TracksOf(mic) ==> t.live == old(t.live))
    {
      allPassed := false;
      currentStep := 1;
      var ok := CheckMedia(Mic, mic);
      if ok {
        currentStep := 2;
        ok := CheckMedia(ScreenShare, screen);
        if ok {
          currentStep := 3;
          ok := CheckCameraAndFace(cam, ai);
          if ok {
            navigationScheduled := true;
            allPassed := true;
          }
        }
      }
    }

    /**
     * `runTests`: each probe runs only when the previous one returned true,
     * `currentStep` records the last of the first three probes that passed,
     * and navigation is scheduled only when all four pass. Entries of probes
     * that did not run, and the tracks of streams they would have acquired,
     * are left untouched.
     */
    method RunTests(ping: PingOutcome, mic: Wrappers.Option<seq<Track>>, screen: Wrappers.Option<seq<Track>>,
                    cam: CameraOutcome, ai: AiOutcome) returns (allPassed: bool)
      requires Valid()
      modifies this`steps, this`currentStep, this`navigationScheduled, TracksOf(mic), TracksOf(screen)
      ensures Valid()
      ensures var k := PassedPrefix(ping, mic.Some?, screen.Some?, cam, ai);
        && steps[Internet] == InternetVerdict(ping).state
        && steps[Microphone] == (if k >= 1 then MediaVerdict(Mic, mic.Some?).state else old(steps[Microphone]))
        && steps[Screen] == (if k >= 2 then MediaVerdict(ScreenShare, screen.Some?).state else old(steps[Screen]))
        && steps[Camera] == (if k >= 3 then CameraAndFaceVerdict(cam, ai).camera else old(steps[Camera]))
        && steps[AiCheck] == (if k >= 3 then CameraAndFaceVerdict(cam, ai).aiCheck else old(steps[AiCheck]))
        && currentStep == (if k == 0 then old(currentStep) else if k >= 3 then 3 else k)
        && navigationScheduled == (old(navigationScheduled) || k == 4)
        && allPassed == (k == 4)
      ensures var k := PassedPrefix(ping, mic.Some?, screen.Some?, cam, ai);
        && (k >= 1 ==> forall t :: t in TracksOf(mic) ==> !t.live)
        && (k >= 2 ==> forall t :: t in TracksOf(screen) ==> !t.live)
        && (k < 1 ==> forall t :: t in TracksOf(mic) - TracksOf(screen) ==> t.live == old(t.live))
        && (k < 2 ==> forall t :: t in TracksOf(screen) - TracksOf(mic) ==> t.live == old(t.live))
      ensures old(AllPending()) ==>
        SettledAt(Statuses(), StopIndex(PassedPrefix(ping, mic.Some?, screen.Some?, cam, ai), cam))
    {
      allPassed := false;
      var ok := CheckInternet(ping);
      if ok {
        allPassed := RunAfterInternet(ping, mic, screen, cam, ai);
      }
      if old(AllPending()) {
        SettledAfterRun(Statuses(), ping, mic.Some?, screen.Some?, cam, ai);
      }
    }
  }

  /** Every entry `Waiting...`, as the page's initial state has them. */
  const InitialSteps: map<StepId, StepState> :=
    map[Internet := Waiting, Microphone := Waiting, Screen := Waiting, Camera := Waiting, AiCheck := Waiting]

  function StepOf(media: Media): StepId {
    if media == Mic then Microphone else Screen
  }

  /**
   * The shape a run leaves behind: every entry before position `j` passed, the
   * entry at `j` (if any) is a failure or a stuck `Loading`, and every entry
   * after it is still pending.
   */
  ghost predicate SettledAt(s: seq<Status>, j: nat)
    requires |s| == 5
  {
    && j <= 5
    && (forall i :: 0 <= i < j ==> Passes(s[i]))
    && (j < 5 ==> s[j] == Fail || s[j] == Loading)
    && (forall i :: j < i < 5 ==> s[i] == Pending)
  }

  /** The statuses a run from all-pending entries leaves are settled at `StopIndex`. */
  lemma SettledAfterRun(s: seq<Status>, ping: PingOutcome, micGranted: bool, screenGranted: bool,
                        cam: CameraOutcome, ai: AiOutcome)
    requires |s| == 5
    requires var k := PassedPrefix(ping, micGranted, screenGranted, cam, ai);
      && s[0] == InternetVerdict(ping).state.status
      && s[1] == (if k >= 1 then MediaVerdict(Mic, micGranted).state.status else Pending)
      && s[2] == (if k >= 2 then MediaVerdict(ScreenShare, screenGranted).state.status else Pending)
      && s[3] == (if k >= 3 then CameraAndFaceVerdict(cam, ai).camera.status else Pending)
      && s[4] == (if k >= 3 then CameraAndFaceVerdict(cam, ai).aiCheck.status else Pending)
    ensures SettledAt(s, StopIndex(PassedPrefix(ping, micGranted, screenGranted, cam, ai), cam))
  {
  }

  /**
   * Where a run that started from all-pending entries stops: the number of
   * probes passed, except that the camera probe fails on `aiCheck` (position 4)
   * when the camera itself worked.
   */
  function StopIndex(k: nat, cam: CameraOutcome): nat {
    if k == 4 then 5 else if k == 3 && cam == CameraGranted(true) then 4 else k
  }
}
