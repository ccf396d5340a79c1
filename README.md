# Emergency-signal core of the IoT emergency detection system

This project models, in Dafny, the decision core of the emergency detection
system `SistemaEmergenciaIoT`. A camera loop hands the core hand and body
landmarks for each frame. The core turns them into one of a few emergency
statuses:

- **Hand gesture classifier** (`HandGesture`): 21 hand landmarks become a
  five-bit finger-extension vector (thumb, index, middle, ring, pinky). That
  vector is matched exactly against a four-row table: SOCORRO 0.95, ESTOU_BEM
  0.90, PRECISO_AJUDA 0.85, PARE 0.88. Any other vector is INDEFINIDO 0.3, and
  an empty list is NONE 0.0. The finger loop is a method, proved against the
  specification function `FingerVector`.
- **Posture classifier** (`Posture`): PESSOA_CAIDA 0.92 when the nose is
  vertically within a quarter of the frame height of the hips' midpoint,
  POSTURA_NORMAL 0.80 otherwise, POSE_NAO_DETECTADA 0.0 for an empty list.
- **Temporal stabilizer** (`Stabilizer`, and `EmergencySystem.Stabilize`): a
  history of at most five observations. A label is promoted only when two of
  the last three labels agree and the largest of the last three confidences
  exceeds 0.7.
- **Session** (`Session`): the class `EmergencySystem` holds the source's
  fields `status_atual`, `confianca`, `ultima_deteccao` and
  `historico_gestos`. Its frame step runs, in order: idle decay, on a frame
  with no hands and no pose once more than 3 seconds have passed since the
  last detection above 0.7 (frames whose candidate stays at or below 0.7 do
  not restart that timeout); the best hand, chosen by a strict running
  maximum; the fall override above 0.8; and the 0.7 gate in front of the
  stabilizer. Each member of the class is proved against a pure function:
  the constructor against `Initial`, `Stabilize` against `Enqueue` (the new
  history) and `Decide` (the returned status), `ProcessFrame` against
  `Next`, and `Reset` against `ResetState`. The lemmas about `Next` give
  the session invariant: the displayed status is always idle at 0.0 or an
  alert with confidence in (0.7, 0.95]. So it always has a colour and a
  banner message.

Coordinates and confidences are Dafny `real`s. The frame height is a `nat`.
The clock reading of each frame is a parameter. The frame step has two
clock calls: one for idle decay (line 260) and one to record a detection
(line 303). The call on line 260 sits behind a short-circuit `and` and runs
only on a frame with no hands and no pose. The call on line 303 runs only on
a frame whose candidate exceeds 0.7, which needs a hand or a pose. So at most
one of them runs per frame, and one `now` per frame is exact
(`Session.DecayAndGateExclusive`).

Behaviours worth noting:
- The reset key (lines 323-326) does not refresh `ultima_deteccao`; only
  status, confidence and history change.
- The promoted confidence is the largest of the last three confidences. It
  can belong to the outvoted label (`Stabilizer.ConfidenceMayComeFromMinority`).
- The majority tie-break (`max(set(...), key=count)`) has no effect on the
  outcome (`Stabilizer.TieBreakIrrelevant`). So `Majority` is written as a
  deterministic function.

## Model

| member | source | states |
|---|---|---|
| `Signals.DisplayTables` | GsArduino/sistema_emergencia_iot.py:47-64 | exactly the five alert labels and MONITORANDO have a colour and a message |
| `HandGesture.ComputeFingers` | GsArduino/sistema_emergencia_iot.py:89-106 | the finger loop builds exactly the five-bit extension vector |
| `HandGesture.FingerBits` | GsArduino/sistema_emergencia_iot.py:78-106 | the thumb bit is 1 iff landmark 4's x > landmark 3's x; bit f is 1 iff tip 4f+4 is above pip 4f+2 (smaller y) |
| `HandGesture.ClassifyHandLandmarks` | GsArduino/sistema_emergencia_iot.py:72-118 | running the loop and then the table gives the classifier's result for every input |
| `HandGesture.GestureTable` | GsArduino/sistema_emergencia_iot.py:74-118 | each of the four vectors gives its label and confidence, and only that vector does; every other vector gives (INDEFINIDO, 0.3); an empty list gives (NONE, 0.0) |
| `HandGesture.OnlyKeyPointsMatter` | GsArduino/sistema_emergencia_iot.py:78-106 | two hands that agree on thumb tip/IP x and the four tip/pip y values are classified alike |
| `HandGesture.PromotableGestures` | GsArduino/sistema_emergencia_iot.py:108-118 | the confidence lies in [0, 0.95]; it exceeds 0.7 iff the label is one of the four gestures; it is positive iff the list is non-empty |
| `Posture.PostureOutcomes` | GsArduino/sistema_emergencia_iot.py:122-143 | an empty list gives (POSE_NAO_DETECTADA, 0.0) and only it does; any other list gives (PESSOA_CAIDA, 0.92) or (POSTURA_NORMAL, 0.80) |
| `Posture.PixelTestIsNormalizedTest` | GsArduino/sistema_emergencia_iot.py:135-140 | for a positive height, `abs(nose_y - hip_y) < 0.25 h` in pixels iff the normalized gap is below 0.25 |
| `Posture.FallenIffCloseNormalized` | GsArduino/sistema_emergencia_iot.py:135-143 | for a positive height the result is PESSOA_CAIDA iff the nose-to-hip-midpoint normalized gap is below 0.25, whatever the height |
| `Posture.ZeroHeightNeverFallen` | GsArduino/sistema_emergencia_iot.py:125-143 | a frame of height zero always gives POSTURA_NORMAL |
| `Posture.OnlyNoseAndHipsMatter` | GsArduino/sistema_emergencia_iot.py:128-141 | only the nose and the two hips decide the result; the shoulders never do |
| `Posture.FallenAt720` | GsArduino/sistema_emergencia_iot.py:140-141 | a 720-pixel frame with a normalized gap of 0.1 gives (PESSOA_CAIDA, 0.92) |
| `Stabilizer.EnqueueShape` | GsArduino/sistema_emergencia_iot.py:206-209 | the new entry is last; the entries before it are the old history, or the old history minus its oldest entry once full; the length stays at most 5 |
| `Stabilizer.EnqueueSuffix` | GsArduino/sistema_emergencia_iot.py:206-209 | enqueueing extends each suffix of up to four entries by the new entry |
| `Stabilizer.MajorityIsTwoOfThree` | GsArduino/sistema_emergencia_iot.py:212-216 | the majority names l iff l occurs at least twice among the three labels; it is empty iff no label does |
| `Stabilizer.TieBreakIrrelevant` | GsArduino/sistema_emergencia_iot.py:215-216 | whichever maximal-count label the source's `max` picks, the "count >= 2" test gives the same outcome as the deterministic majority |
| `Stabilizer.AnyPickDecides` | GsArduino/sistema_emergencia_iot.py:211-219 | the source's whole decision, with any maximal-count label that `max` may pick, equals `Decide` |
| `Stabilizer.DecideOutcome` | GsArduino/sistema_emergencia_iot.py:211-219 | fewer than 3 entries keep the current status; a promotion shows a label from the last three with one of their confidences, above 0.7; otherwise the current status stays |
| `Stabilizer.PromotionRule` | GsArduino/sistema_emergencia_iot.py:211-219 | (l, max of the last three confidences) when l occurs at least twice and that max exceeds 0.7; the current status when no label occurs twice or the max is at most 0.7 |
| `Stabilizer.ThreeIdenticalPromote` | GsArduino/sistema_emergencia_iot.py:204-219 | three identical inputs with confidence above 0.7 are shown as they are, after any history |
| `Stabilizer.FourthIdenticalKeeps` | GsArduino/sistema_emergencia_iot.py:204-219 | a fourth identical input leaves the shown status unchanged |
| `Stabilizer.FlickerRejected` | GsArduino/sistema_emergencia_iot.py:212-217 | after A, A, B the result is A or the current status, never B; after A, B, A above 0.7 it is A |
| `Stabilizer.ConfidenceMayComeFromMinority` | GsArduino/sistema_emergencia_iot.py:213-217 | PRECISO_AJUDA 0.85, PRECISO_AJUDA 0.85, SOCORRO 0.95 shows PRECISO_AJUDA at 0.95 |
| `Session.SelectHand` | GsArduino/sistema_emergencia_iot.py:265-280 | the running-maximum loop over the hands computes the hand candidate |
| `Session.BestIsMaximum` | GsArduino/sistema_emergencia_iot.py:265-280 | the candidate's confidence is at least every hand's and never negative; a zero candidate is ("MONITORANDO", 0.0) |
| `Session.BestIsFirst` | GsArduino/sistema_emergencia_iot.py:268-280 | a positive candidate is the first hand that attains the maximum (strict `>` keeps the earliest) |
| `Session.GatedCandidateIsAlert` | GsArduino/sistema_emergencia_iot.py:277-299 | a candidate above 0.7 is an alert label with confidence at most 0.95 |
| `Session.FallOverridesHands` | GsArduino/sistema_emergencia_iot.py:291-296 | a fallen posture replaces the hand candidate, however confident; otherwise the hand candidate stands |
| `Session.EnqueueKeepsAlerts` | GsArduino/sistema_emergencia_iot.py:206-209 | enqueueing an alert keeps the history within 5 entries, all alerts |
| `Session.DecideKeepsDisplay` | GsArduino/sistema_emergencia_iot.py:211-219 | over a history of alerts, the displayed status stays idle or an alert above 0.7 |
| `Session.NextPreservesInv` | GsArduino/sistema_emergencia_iot.py:257-303 | every frame keeps the session invariant (bounded history of alerts; status idle at 0.0 or an alert in (0.7, 0.95]) |
| `Session.InitialAndResetKeepInv` | GsArduino/sistema_emergencia_iot.py:323-326 | start-up and reset satisfy the invariant; reset gives MONITORANDO and an empty history |
| `Session.StatusIsDisplayable` | GsArduino/sistema_emergencia_iot.py:157-182 | under the invariant the status always has a colour and a banner message, so the display's lookups never fail |
| `Session.IdleDecay` | GsArduino/sistema_emergencia_iot.py:257-262 | a frame without hands or pose decays to (MONITORANDO, 0.0) iff more than 3 s have passed, and otherwise changes nothing; history and detection time stay |
| `Session.Gating` | GsArduino/sistema_emergencia_iot.py:298-303 | on a frame whose candidate exceeds 0.7 the time becomes `now`, the candidate is the newest history entry and the status is the stabilizer's decision over the new history; on any other frame the state is the idle-decayed one, and a frame with a hand or pose but no candidate above 0.7 changes nothing |
| `Session.DecayAndGateExclusive` | GsArduino/sistema_emergencia_iot.py:257-303 | a frame with no hands and no pose has candidate ("MONITORANDO", 0.0), so idle decay and the 0.7 gate never act in the same frame |
| `Session.ThreeFramesPromote` | GsArduino/sistema_emergencia_iot.py:298-303 | three frames with the same gated candidate display that candidate, from any state |
| `Session.SocorroScenario` | GsArduino/sistema_emergencia_iot.py:265-303 | three frames with one "four fingers" hand and no body display (SOCORRO, 0.95) |
| `Session.EmergencySystem.constructor` | GsArduino/sistema_emergencia_iot.py:41-67 | a new session is MONITORANDO at 0.0 with an empty history, last detected at start-up |
| `Session.EmergencySystem.Stabilize` | GsArduino/sistema_emergencia_iot.py:204-219 | the history becomes its bounded enqueue with the new entry, and the returned status is the promotion decision over it |
| `Session.EmergencySystem.ProcessFrame` | GsArduino/sistema_emergencia_iot.py:257-303 | the new state is `Next` of the old state and the frame; the invariant is kept |
| `Session.EmergencySystem.Reset` | GsArduino/sistema_emergencia_iot.py:323-326 | status MONITORANDO, confidence 0.0, empty history; detection time unchanged |

## Left out

- Landmark detection (MediaPipe hands and pose), frame flipping and colour conversion: the landmarks are inputs. A non-empty hand list shorter than 21 points, or a pose list shorter than 25, would make the source raise IndexError. The model requires them long enough instead.
- All drawing: the HUD, landmark overlays, the blinking banner (which uses sine) and the window display. The colour and message tables are kept as constants, because `Session.StatusIsDisplayable` shows every reachable status has an entry in both.
- Camera capture, screenshots, video recording, the quit key and `main`: these are I/O.
- The wall clock: the start-up reading and one reading per frame are parameters; of the frame's two `time.time()` calls (lines 260 and 303) at most one runs, so one reading is exact.
- `contador_frames`: it is incremented but never read.
- The shoulder average in the posture classifier: it is computed but never used (`Posture.OnlyNoseAndHipsMatter` shows it cannot matter). The frame width is also unused.
- Floating point: coordinates and confidences are exact reals. Comparisons that sit on a rounding boundary in IEEE doubles may come out differently.
- Landmark depth (z) and visibility take no part in any decision.
