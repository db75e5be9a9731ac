/** The `App` component's state and the events that change it: the camera
    toggle, the tab buttons, the capture-and-detect step and the effect that
    runs when the camera flag changes. */
module TrafficApp {
  import opened Wrappers
  import opened Records
  import opened History

  /** The three tabs of the navigation bar. */
  datatype Tab = Detection | AboutUs | AboutProject

  /** The string the component stores in `activeTab` for each tab. */
  function TabKey(t: Tab): string {
    match t
    case Detection => "detection"
    case AboutUs => "about-us"
    case AboutProject => "about-project"
  }

  /** The panel `renderContent` shows for a stored key; None is the
      `default` branch, which renders nothing. */
  function PanelFor(key: string): (r: Option<Tab>)
    ensures forall t :: r == Some(t) <==> key == TabKey(t)
  {
    if key == "detection" then Some(Detection)
    else if key == "about-us" then Some(AboutUs)
    else if key == "about-project" then Some(AboutProject)
    else None
  }

  /** How the POST to the inference service ended: it threw, or it
      answered with a body that may or may not hold a `detection` object. */
  datatype Outcome = Threw | Responded(detection: Option<BackendDetection>)

  /** Whether a capture sends a request: only with a webcam handle and a
      non-empty screenshot (`getScreenshot` may give null or ""). */
  predicate Sends(hasWebcam: bool, screenshot: Option<string>) {
    hasWebcam && screenshot.Some? && screenshot.value != []
  }

  /** The detection list after one `captureAndDetect` run that started from `prev`. */
  function CaptureStep(prev: seq<Record>, hasWebcam: bool, screenshot: Option<string>,
                       outcome: Outcome, now: int): (next: seq<Record>)
    ensures !Sends(hasWebcam, screenshot) ==> next == prev
    ensures outcome.Threw? || outcome.detection.None? ==> next == prev
    ensures Sends(hasWebcam, screenshot) && outcome.Responded? && outcome.detection.Some? ==>
              |next| == Min(|prev| + 1, Capacity)
              && next[0] == ProcessBackendResponse(outcome.detection.value, now)
              && forall i :: 1 <= i < |next| ==> next[i] == prev[i - 1]
    ensures |prev| <= Capacity ==> |next| <= Capacity
  {
    if Sends(hasWebcam, screenshot) && outcome.Responded? && outcome.detection.Some? then
      PushRecent(prev, ProcessBackendResponse(outcome.detection.value, now))
    else prev
  }

  /** The component's state: the three `useState` fields. */
  class App {
    var activeTab: Tab
    var isCameraActive: bool
    var detections: seq<Record>

    /** The list never holds more than five records. */
    ghost predicate Valid()
      reads this
    {
      |detections| <= Capacity
    }

    /** The initial state: the detection tab, the camera off, no records. */
    constructor ()
      ensures Valid()
      ensures activeTab == Detection && !isCameraActive && detections == []
    {
      activeTab := Detection;
      isCameraActive := false;
      detections := [];
    }

    /** `toggleCamera`: flips the camera flag and nothing else. */
    method ToggleCamera()
      requires Valid()
      modifies this`isCameraActive
      ensures Valid()
      ensures isCameraActive == !old(isCameraActive)
      ensures activeTab == old(activeTab) && detections == old(detections)
    {
      isCameraActive := !isCameraActive;
    }

    /** A tab button: sets the active tab and nothing else. */
    method SelectTab(t: Tab)
      requires Valid()
      modifies this`activeTab
      ensures Valid()
      ensures activeTab == t
      ensures isCameraActive == old(isCameraActive) && detections == old(detections)
    {
      activeTab := t;
    }

    /** A response arrived. With a `detection` object, its record goes in
        front and the list keeps the five newest; without one, nothing changes. */
    method OnResponse(detection: Option<BackendDetection>, now: int)
      requires Valid()
      modifies this`detections
      ensures Valid()
      ensures detection.None? ==> detections == old(detections)
      ensures detection.Some? ==>
                detections == PushRecent(old(detections), ProcessBackendResponse(detection.value, now))
      ensures activeTab == old(activeTab) && isCameraActive == old(isCameraActive)
    {
      if detection.Some? {
        var record := ProcessBackendResponse(detection.value, now);
        detections := PushRecent(detections, record);
      }
    }

    /** The request threw: the state is left alone (the console log is not modelled). */
    method OnNetworkError()
      requires Valid()
      ensures Valid()
      ensures unchanged(this)
    {
    }

    /** `captureAndDetect`: take a screenshot, send it, and fold the outcome
        into the list. Returns whether a request was sent. */
    method CaptureAndDetect(hasWebcam: bool, screenshot: Option<string>, outcome: Outcome, now: int)
      returns (sent: bool)
      requires Valid()
      modifies this`detections
      ensures Valid()
      ensures sent == Sends(hasWebcam, screenshot)
      ensures detections == CaptureStep(old(detections), hasWebcam, screenshot, outcome, now)
      ensures activeTab == old(activeTab) && isCameraActive == old(isCameraActive)
    {
      sent := false;
      if hasWebcam {
        if screenshot.Some? && screenshot.value != [] {
          sent := true;
          match outcome
          case Threw => OnNetworkError();
          case Responded(detection) => OnResponse(detection, now);
        }
      }
    }

    /** The effect that runs when the camera flag changes: with the camera
        off the list is emptied; with it on the capture timer is started,
        which leaves the state as it is. */
    method CameraEffect()
      requires Valid()
      modifies this`detections
      ensures Valid()
      ensures !isCameraActive ==> detections == []
      ensures isCameraActive ==> detections == old(detections)
      ensures activeTab == old(activeTab) && isCameraActive == old(isCameraActive)
    {
      if !isCameraActive {
        detections := [];
      }
    }
  }

  /** A session that starts the camera, records a stop sign, then stops the
      camera: the record is shown while the camera runs and gone afterwards. */
  method StartDetectStop(now: int) {
    var app := new App();
    app.ToggleCamera();
    app.CameraEffect();
    var sent := app.CaptureAndDetect(true, Some("data:image/jpeg;base64,"),
                                     Responded(Some(BackendDetection(Some(StopSign), 98))), now);
    assert sent;
    StopSignExample(now);
    assert app.detections == [Record(now, StopSign, "98%", JustNow, StopColor)];
    app.SelectTab(AboutUs);
    assert |app.detections| == 1;
    app.ToggleCamera();
    app.CameraEffect();
    assert !app.isCameraActive && app.detections == [];
  }

  /** `captureAndDetect` does not consult the camera flag once its request is
      out: a response that resolves after the camera was stopped and the list
      emptied is still put in front, so the list is non-empty with the camera off. */
  method LateResponseAfterStop(now: int) {
    var app := new App();
    app.ToggleCamera();
    app.CameraEffect();
    app.ToggleCamera();
    app.CameraEffect();
    assert app.detections == [];
    app.OnResponse(Some(BackendDetection(Some("Speed Limit"), 90)), now);
    assert !app.isCameraActive && |app.detections| == 1;
  }
}
