# Traffic sign detection UI — a Dafny model of the `App` component's logic

The repository is one React component, `App` (src/App.jsx), that shows a
camera view, posts a screenshot to an inference service every two seconds
and lists the labels it gets back. Under the markup sits a small amount of
logic, and this project models and proves that logic:

- **Record construction** (`processBackendResponse`), module `Records`. The
  record's label falls back to "Unknown Object". Its colour class is red
  exactly for "Stop Sign". Its time text is "Just now". Its confidence text
  is the score as a whole percentage followed by `%`. A parser for that
  text is the partner of the formatter, and a round-trip lemma links them.
- **The detection list**, module `History`. `[newDetection, ...prev].slice(0, 5)`
  becomes `PushRecent`. It is proved to keep the five newest records,
  newest first, across any run of responses.
- **The component state**, module `TrafficApp`. Class `App` holds the three
  `useState` fields `activeTab`, `isCameraActive` and `detections`. Its
  methods are the events: `ToggleCamera`, `SelectTab`, `OnResponse`,
  `OnNetworkError`, `CaptureAndDetect`, and `CameraEffect` (the effect that
  empties the list when the camera flag is off). `Valid()` (at most five
  records) is kept by every method. `CaptureStep` is the pure function that
  `CaptureAndDetect` is proved against.
- **Role titles** on the "About Us" tab, module `Team`.

Inputs that come from outside the component are parameters:
- the clock reading `Date.now()` is `now`;
- whether `webcamRef.current` is set is `hasWebcam`;
- the screenshot is `Option<string>` (None for null);
- the POST's result is an `Outcome`: it threw, or it answered with or
  without a `detection` object.

Two client methods, `StartDetectStop` and `LateResponseAfterStop`, show
what callers can conclude from the contracts. The second one shows that a
response that resolves after the camera was stopped is still added to the
list: `captureAndDetect` does not check the camera flag once its request is
out.

## Model

| member | source | states |
|---|---|---|
| Records.ProcessBackendResponse | src/App.jsx:14-23 | id is `now`; label non-empty, equal to the given label when that is non-empty and "Unknown Object" otherwise; colour is the red class iff the label is "Stop Sign", otherwise the green class; time is "Just now"; the confidence text is PercentText of the score and parses back to the score percentage |
| Records.DecimalText | src/App.jsx:19 | the `toFixed(0)` digits of a whole number: non-empty, all decimal digits, and a leading '0' exactly for zero |
| Records.DecimalCanonical | src/App.jsx:19 | a digit string without a leading zero (other than "0") that reads as n is the decimal text of n, so the text is unique |
| Records.PercentText | src/App.jsx:19 | the confidence text ends in '%', starts with '-' exactly for a negative percentage, and holds the decimal text of the magnitude in between |
| Records.DecimalRoundTrip | src/App.jsx:19 | parsing the digit text of `n` gives back `n` |
| Records.PercentRoundTrip | src/App.jsx:19 | parsing the confidence text of any integer percentage, negative ones included, gives back that percentage |
| Records.StopSignExample | src/App.jsx:14-23 | a "Stop Sign" detection at 98 gives the record ("Stop Sign", "98%", "Just now", red) |
| History.Take | src/App.jsx:45 | `slice(0, n)` is the prefix of length min(n, length) |
| History.PushRecent | src/App.jsx:44-47 | after a push the list has min(old length + 1, 5) entries; entry 0 is the new record and entries 1.. are the previous entries in their old order |
| History.PushAllKeepsNewest | src/App.jsx:44-47 | from a list of at most 5, any run of pushes leaves the first 5 of (arrivals newest first, then the old list) |
| History.NewestFirst | src/App.jsx:45 | from an empty list, position i holds the record that arrived i responses before the last, and the length is min(arrivals, 5) |
| Team.RoleTitle | src/App.jsx:215-221 | "AI Engineer" iff member <= 3, "Frontend Developer" iff member = 4, "Reporter" iff member > 4 |
| Team.Roles | src/App.jsx:211-221 | one title per listed member, in order |
| Team.FiveMemberTeam | src/App.jsx:211-221 | members 1..5 get three AI Engineers, a Frontend Developer and a Reporter |
| TrafficApp.PanelFor | src/App.jsx:78-326 | the `renderContent` switch picks tab t exactly for the key of t; any other key selects nothing |
| TrafficApp.CaptureStep | src/App.jsx:26-54 | list unchanged without a webcam handle or screenshot, when the request throws, or when the answer has no `detection`; otherwise the new record is in front and the previous entries follow, at most 5 in all |
| TrafficApp.App.constructor | src/App.jsx:7-9 | initial state: tab "detection", camera off, empty list |
| TrafficApp.App.ToggleCamera | src/App.jsx:71-73 | negates the camera flag; tab and list unchanged |
| TrafficApp.App.SelectTab | src/App.jsx:344-350 | sets the active tab; camera flag and list unchanged |
| TrafficApp.App.OnResponse | src/App.jsx:41-47 | with a `detection`, the list becomes PushRecent of the old list and the built record; without one, the list is unchanged; other fields unchanged |
| TrafficApp.App.OnNetworkError | src/App.jsx:49-51 | the caught error changes no state |
| TrafficApp.App.CaptureAndDetect | src/App.jsx:26-54 | a request is sent iff there is a webcam handle and a non-empty screenshot; the new list is CaptureStep of the old one; tab and camera flag unchanged |
| TrafficApp.App.CameraEffect | src/App.jsx:57-68 | with the camera off the list is empty afterwards; with it on the list is unchanged; tab and camera flag unchanged |

## Left out

- JSX rendering, Tailwind classes, inline styles and animations (src/App.jsx:75-393): presentation only. The only part of the rendering that is modelled is which panel `renderContent` selects.
- The `console.error` log of a failed request (src/App.jsx:50): console output. `OnNetworkError` models only that the failure leaves the state unchanged.
- The axios POST and the `react-webcam` screenshot: network and device I/O through libraries outside the component. They enter only as the `hasWebcam`, `screenshot` and `Outcome` parameters.
- The 2000 ms `setInterval`, its cleanup, and overlapping in-flight requests: timer and async concurrency. Each `captureAndDetect` run is one atomic step, and the effect's "camera on" branch changes no modelled state.
- The score as a float and `(score * 100).toFixed(0)`: floating-point rounding. The model takes the already-rounded integer percentage; `NaN` (no score) and exponent notation for huge values do not arise. Neither do "-0" or leading zeros, because `PercentText` puts '-' only before a negative number and `DecimalText` starts with '0' only for zero.
- Labels that are not strings: JavaScript's `label || "Unknown Object"` also replaces `0`, `false` and `null`. The model's label is an optional string, where None covers every missing value.
- `Date.now()` as the record id: a wall-clock read, passed in as `now`.
- The static "About Project" text and accuracy bars (src/App.jsx:244-323): fixed content with no logic.
- `activeTab` holds a string in the source. The model holds a `Tab` value, and `TabKey`/`PanelFor` relate the two.
