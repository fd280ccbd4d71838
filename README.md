# Barcode scenario state machine and audio-event policy

This project models the two stateful pieces of a mixed-reality tool-selection
training scene, and proves properties of them.

- **The barcode `Indicator`.** It receives each recognised barcode label with
  its four corners. It decides whether to admit the label. The single-shot
  labels, "Mocap" (the reference object) and "Standard Wrench" (the correct
  tool), fire once, except that "Mocap" re-arms after the wrench. It then runs
  one of four branches: first Mocap, second Mocap, correct answer, and the two
  wrong answers ("Brake-fan gauge", "Torque Wrench"). These branches change
  the displayed text, the visibility of the two scene props (`eventOne`,
  `reassemblyOne`), the shared barcode-tracking switch and the instruction
  panel.
- **The `SimulationManager`.** It builds the event-to-clips table at start-up
  and plays audio. Its policy is that every event plays at most once per
  session, except `WrongAnswerFx`. It adds clips, resets its session state and
  owns the barcode-tracking switch.

## Layout

- `wrappers.dfy`, module `Wrappers`: `Option`, which stands for a reference
  that may be null.
- `simulation.dfy`, module `Simulation`: the events, clip entries, the
  abstract manager state `AudioState` and its invariant `Consistent`. It also
  holds the transition functions `Started`, `AfterPlay`, `AfterAddClip` and
  `AfterReset`, and class `SimulationManager`. The constructor is proved to
  leave `Abs()` equal to `Started` of its argument. `PlayAudioForEvent`,
  `Trigger`, `AddAudioClip` and `ResetState` are proved to turn `Abs()` into
  the corresponding function of the old state. `EnableTracking` and
  `DisableTracking` state the new flag, under a frame that allows only that
  field to change.
- `barcodes.dfy`, module `Barcodes`: the admission rule (`Rearmed`,
  `Admitted`), the branches (`Dispatch`), one detection (`Scan`), the two
  resets, and class `Indicator`.
  - `Indicator` holds the source's detection set and its two flags. The
    props, text, outline and poses become abstract values. It holds an
    explicit reference to the `SimulationManager` whose tracking flag it
    flips.
  - `Snapshot()` is the indicator's fields plus that flag.
  - The calls into the instruction panel are appended in order to the log
    `ui`.
- `barcode_properties.dfy`, `simulation_properties.dfy`: lemmas about single
  steps, whole runs of detections or play requests, and concrete scenarios.

## Quirks of the code that the model keeps

- **Suppression.** A suppressed single-shot detection returns before the
  outline and text are updated (Indicator.cs:64-67), so it does not redraw
  the outline. In the model a suppressed detection changes nothing
  (`Barcodes.Scan`).
- **Re-arming.** The re-arm of "Mocap" holds for every later Mocap, not just
  the next one. "Mocap" is removed at line 61 and re-added at line 71, so
  every Mocap after the wrench is admitted. After Mocap, wrench, Mocap,
  "Mocap" is back in the set (`BarcodeProperties.MocapWrenchMocap`).
- **Wrench before Mocap.** No check orders the two single-shot labels, so the
  flag pair (no Mocap, wrench) is reachable
  (`BarcodeProperties.WrenchBeforeMocap`).
- **Fewer than four corners.** The code indexes `corners[0..3]` after
  admission. With fewer corners a single-shot detection is recorded in the set, and the
  call then fails before any flag or text changes. The model returns
  `completed == false` in that case. For a first "Mocap" or a first
  "Standard Wrench", the set and the flags then disagree. Any other
  detection without corners keeps them in step
  (`BarcodeProperties.MissingCornersBreakInvariant`).
- **Null clips.** A null clip can only enter through `AddAudioClip`. Choosing
  such an entry fails at SimulationManager.cs:95-97, before line 102 records
  the event. The model's `NullClip` outcome records nothing.
- **No cancel-and-replace.** The 10-second re-enable after a wrong answer is
  a coroutine in SimulationUI.cs (lines 89, 98, 101-108). A later wrong
  answer starts another one without stopping the first: the `StopCoroutine`
  at line 107 is given a new enumerator. So no scheduling guarantee is
  modelled.

## Model

| member | source | states |
|---|---|---|
| `Simulation.Consistent` | Assets/Scripts/SimulationManager.cs:43-109 | the manager's invariant: every event is a key, each list holds only its own event's configured entries, WrongAnswerFx is never recorded, and only an event with clips is recorded; under it the play guard is plain membership in the played set |
| `Simulation.AlreadyPlayed` | Assets/Scripts/SimulationManager.cs:75-80 | the dedup guard never holds back WrongAnswerFx, and holds back no event that has not been recorded |
| `Simulation.HasClips` | Assets/Scripts/SimulationManager.cs:83 | the event is a key whose list has an entry to draw |
| `Simulation.PickInRange` | Assets/Scripts/SimulationManager.cs:85-87 | the random draw over [0, count): whenever the event has clips, the drawn index selects one of its entries; with no clips any index will do |
| `Simulation.RequestedEvent` | Assets/Scripts/SimulationManager.cs:121-164 | the fixed event of each wrapper; the wrapper can be recovered from its event, so no two wrappers request the same event |
| `Simulation.AllEventsListed` | Assets/Scripts/SimulationManager.cs:16-27 | every `SimulationEvent` value appears in the enumeration order used by Start |
| `Simulation.ClipsFor` | Assets/Scripts/SimulationManager.cs:61-67 | the filtered list holds exactly the entries of the given event whose clip is not null, and is no longer than the input |
| `Simulation.BuildEventToClips` | Assets/Scripts/SimulationManager.cs:53-67 | the two Start loops give a table with a key for every event, and each key's list is the null-filtered entries of that event in configured order |
| `Simulation.TableFor` | Assets/Scripts/SimulationManager.cs:53-67 | the table value built by Start has every event as a key, mapped to its filtered entries |
| `Simulation.Started` | Assets/Scripts/SimulationManager.cs:43-70 | after Start the invariant holds, nothing has been played, and tracking is on (the start text enables it) |
| `Simulation.AfterPlay` | Assets/Scripts/SimulationManager.cs:72-109 | an already-played event other than WrongAnswerFx, or an event with no clips, changes nothing; a play uses an index in [0, count), appends that entry to the log and records the event unless it is WrongAnswerFx; nothing else changes; the invariant is kept |
| `Simulation.AfterAddClip` | Assets/Scripts/SimulationManager.cs:181-192 | the new entry, null clip included, is appended to the configured list and to its event's list; every other key's list, the played set, tracking and the log are unchanged; the invariant is kept |
| `Simulation.AfterReset` | Assets/Scripts/SimulationManager.cs:166-178 | tracking ends enabled and the played set empty; the table, the configured list and the log are kept |
| `Simulation.SimulationManager.constructor` | Assets/Scripts/SimulationManager.cs:43-70 | the object's state equals `Started` of the configured entries |
| `Simulation.SimulationManager.PlayAudioForEvent` | Assets/Scripts/SimulationManager.cs:72-109 | the randomly chosen index is in range, and the new state and outcome are those of `AfterPlay` for that index |
| `Simulation.SimulationManager.DisableTracking` | Assets/Scripts/SimulationManager.cs:111-114 | the tracking flag becomes false and nothing else changes |
| `Simulation.SimulationManager.EnableTracking` | Assets/Scripts/SimulationManager.cs:116-119 | the tracking flag becomes true and nothing else changes |
| `Simulation.SimulationManager.Trigger` | Assets/Scripts/SimulationManager.cs:121-164 | each wrapper is one play request for its fixed event |
| `Simulation.SimulationManager.ResetState` | Assets/Scripts/SimulationManager.cs:166-178 | the new state is `AfterReset` of the old one |
| `Simulation.SimulationManager.AddAudioClip` | Assets/Scripts/SimulationManager.cs:181-192 | the new state is `AfterAddClip` of the old one, and the invariant is kept; the volume defaults to 1 |
| `SimulationProperties.ClipsForConcat` | Assets/Scripts/SimulationManager.cs:61-67 | the start-up filter preserves order: the filter of a concatenation is the concatenation of the filters |
| `SimulationProperties.RequestsAreOneToOne` | Assets/Scripts/SimulationManager.cs:121-164 | the wrappers and the events are in one-to-one correspondence (e.g. `TriggerCorrectAnswer` requests `SelectStandardWrench`, `WrongAnswerSound` requests `WrongAnswerFx`) |
| `SimulationProperties.PlayAll` | Assets/Scripts/SimulationManager.cs:72-109 | successive play requests leave the table, the configured list and tracking unchanged, and only extend the log |
| `SimulationProperties.PlayOnce` | Assets/Scripts/SimulationManager.cs:95-103 | one request adds a playback of an event exactly when it plays that event |
| `SimulationProperties.AtMostOncePerSession` | Assets/Scripts/SimulationManager.cs:75-103 | over any run of requests, an event other than WrongAnswerFx is played at most once since the session began, exactly once if it is now recorded, and never again once recorded |
| `SimulationProperties.WrongAnswerFxAlwaysReplays` | Assets/Scripts/SimulationManager.cs:75-103 | any run of requests for WrongAnswerFx plays once per request and never records the event. Each request may draw a different index, provided each drawn entry has a clip |
| `SimulationProperties.PlayableAfterAddingClip` | Assets/Scripts/SimulationManager.cs:83-108 | a request for an event with no clips changes nothing, so the event plays once a clip is added |
| `SimulationProperties.AddedNullClipIsKept` | Assets/Scripts/SimulationManager.cs:181-192 | unlike Start, adding a null clip keeps it, so the table differs from what Start would build from the same list |
| `SimulationProperties.ResetIsIdempotent` | Assets/Scripts/SimulationManager.cs:166-178 | a reset applied twice equals a reset applied once, and makes every event playable again |
| `Barcodes.Valid` | Assets/DisplayCapture/Barcode/Indicator.cs:55-191 | the indicator's invariant: each single-shot label is in the set exactly when its flag is set, and nothing else is; under it the set is empty exactly when neither flag is set, and full exactly when both are |
| `Barcodes.IsSingleDetection` | Assets/DisplayCapture/Barcode/Indicator.cs:57 | exactly "Mocap" and "Standard Wrench" are single-shot, so neither wrong answer is |
| `Barcodes.CornersPresent` | Assets/DisplayCapture/Barcode/Indicator.cs:74-81 | the outline code can read corners 0 to 3; otherwise it reads past the end |
| `Barcodes.Rearmed` | Assets/DisplayCapture/Barcode/Indicator.cs:59-62 | the re-arm only ever removes "Mocap"; after the wrench a Mocap detection never finds itself in the set, and every other detection sees the set unchanged |
| `Barcodes.Admitted` | Assets/DisplayCapture/Barcode/Indicator.cs:57-67 | non-single-shot labels are always admitted; "Standard Wrench" only while absent from the set; "Mocap" while absent or at any time after the wrench |
| `Barcodes.HideEventOneIfScanned` | Assets/DisplayCapture/Barcode/Indicator.cs:149-156 | the reference prop is hidden once Mocap has been scanned and otherwise left as it is; it is never shown (also lines 171-174 and 185-188) |
| `Barcodes.Dispatch` | Assets/DisplayCapture/Barcode/Indicator.cs:94-190 | the branches leave the set and the outline alone and only extend the panel log. A flag is set only by its own label. Tracking is only ever switched off, and the wrong answers leave it alone. Only the Mocap branches show a prop, and any other label runs no branch |
| `Barcodes.Scan` | Assets/DisplayCapture/Barcode/Indicator.cs:55-190 | a suppressed detection changes nothing; the set gains exactly the admitted single-shot label (the re-arm removal is always undone); with missing corners only the set changes (the outline object's move at line 75 is not modelled); an admitted complete detection redraws the outline; the invariant is kept by every complete detection |
| `Barcodes.DetectionsCleared` | Assets/DisplayCapture/Barcode/Indicator.cs:204-210 | the set is empty, both flags are false, the invariant holds and nothing else changes |
| `Barcodes.SimulationReset` | Assets/DisplayCapture/Barcode/Indicator.cs:212-231 | detections are cleared, both props hidden, the text empty and the outline cleared; poses, tracking and panel log are kept |
| `Barcodes.Indicator.constructor` | Assets/DisplayCapture/Barcode/Indicator.cs:35-51 | both props are hidden, the set is empty, both flags are false and the invariant holds |
| `Barcodes.Indicator.Set` | Assets/DisplayCapture/Barcode/Indicator.cs:55-191 | the new indicator state and tracking flag are `Scan` of the old; the call fails only when an admitted detection lacks corners; the manager changes in nothing but its tracking flag |
| `Barcodes.Indicator.Branch` | Assets/DisplayCapture/Barcode/Indicator.cs:94-190 | the branch chosen by the label changes the state as `Dispatch` says |
| `Barcodes.Indicator.FirstMocap` | Assets/DisplayCapture/Barcode/Indicator.cs:97-124 | the first-Mocap branch: the tool-select panel switches tracking on and `DisableTracking` runs last |
| `Barcodes.Indicator.SecondMocap` | Assets/DisplayCapture/Barcode/Indicator.cs:125-139 | the second-Mocap branch |
| `Barcodes.Indicator.CorrectAnswer` | Assets/DisplayCapture/Barcode/Indicator.cs:141-162 | the Standard Wrench branch |
| `Barcodes.Indicator.WrongAnswer` | Assets/DisplayCapture/Barcode/Indicator.cs:163-190 | the two wrong-answer branches, which differ only in the panel call |
| `Barcodes.Indicator.ResetDetections` | Assets/DisplayCapture/Barcode/Indicator.cs:204-210 | the new state is `DetectionsCleared` of the old one |
| `Barcodes.Indicator.ResetSimulation` | Assets/DisplayCapture/Barcode/Indicator.cs:212-231 | the new state is `SimulationReset` of the old one |
| `BarcodeProperties.AdmissionRule` | Assets/DisplayCapture/Barcode/Indicator.cs:57-72 | under the invariant, a detection is suppressed exactly when it is a repeated Standard Wrench, or a Mocap after Mocap but before the wrench |
| `BarcodeProperties.RepeatedSingleShotIgnored` | Assets/DisplayCapture/Barcode/Indicator.cs:64-67 | such a detection leaves the whole state unchanged: set, flags, props, text, outline, tracking and panel |
| `BarcodeProperties.FirstMocapEffect` | Assets/DisplayCapture/Barcode/Indicator.cs:97-124 | the first admitted Mocap sets its flag, shows "Object Detected!". It shows `eventOne`, hides `reassemblyOne`, captures the marker pose, and leaves tracking off after the panel calls |
| `BarcodeProperties.MocapAfterWrench` | Assets/DisplayCapture/Barcode/Indicator.cs:59-139 | once the wrench is scanned, every Mocap is admitted and stays in the set; after Mocap it shows "Second Mocap Detected!". It shows `reassemblyOne` at the captured pose and disables tracking, with both flags unchanged |
| `BarcodeProperties.StandardWrenchEffect` | Assets/DisplayCapture/Barcode/Indicator.cs:141-162 | an admitted Standard Wrench sets its flag, shows "Correct Answer" and disables tracking; it hides `eventOne` only if Mocap was scanned |
| `BarcodeProperties.WrongAnswerEffect` | Assets/DisplayCapture/Barcode/Indicator.cs:163-190 | wrong answers are always admitted and change neither the set, the flags nor tracking. They show "Wrong Answer" and hide `reassemblyOne`; they hide `eventOne` only if Mocap was scanned |
| `BarcodeProperties.OtherLabelEffect` | Assets/DisplayCapture/Barcode/Indicator.cs:92-190 | any other label becomes the text and changes nothing else but the outline |
| `BarcodeProperties.MissingCornersBreakInvariant` | Assets/DisplayCapture/Barcode/Indicator.cs:57-74 | a detection with fewer than four corners breaks the invariant exactly when it is a first Mocap or a first Standard Wrench: that label is recorded in the set without its flag |
| `BarcodeProperties.RunKeepsInvariant` | Assets/DisplayCapture/Barcode/Indicator.cs:55-191 | after any run of complete detections, set membership matches the two flags and the set holds only the two single-shot labels |
| `BarcodeProperties.SuppressedRepeats` | Assets/DisplayCapture/Barcode/Indicator.cs:64-67 | any number of repeats of a suppressed label leave the state exactly as it was |
| `BarcodeProperties.WrongAnswersNeverDeduplicated` | Assets/DisplayCapture/Barcode/Indicator.cs:163-190 | N wrong answers of one kind append N full wrong-answer panel sequences and leave the set, the flags and tracking unchanged |
| `BarcodeProperties.MocapRepeatsAfterWrench` | Assets/DisplayCapture/Barcode/Indicator.cs:59-139 | after Mocap and the wrench, each of N further Mocaps runs the second-Mocap branch |
| `BarcodeProperties.ResetsAreIdempotent` | Assets/DisplayCapture/Barcode/Indicator.cs:204-231 | both resets applied twice equal the same reset applied once |
| `BarcodeProperties.ResetForgetsRun` | Assets/DisplayCapture/Barcode/Indicator.cs:212-231 | a reset after any run gives the same detections, props, text and outline as a reset before it |
| `BarcodeProperties.MocapThenWrench` | Assets/DisplayCapture/Barcode/Indicator.cs:97-162 | after reset, then Mocap, then the wrench: both flags are set, both labels are in the set, `eventOne` is hidden and tracking is off |
| `BarcodeProperties.MocapWrenchMocap` | Assets/DisplayCapture/Barcode/Indicator.cs:59-162 | after reset, Mocap, wrench, Mocap: the third scan is admitted and shows `reassemblyOne` at the reference prop's pose. "Mocap" stays in the set, and the panel calls come in source order |
| `BarcodeProperties.WrenchBeforeMocap` | Assets/DisplayCapture/Barcode/Indicator.cs:141-162 | a wrench first after reset reaches the flag pair (no Mocap, wrench) with `eventOne` still hidden |
| `BarcodeProperties.MocapThenTwoWrongAnswers` | Assets/DisplayCapture/Barcode/Indicator.cs:97-176 | after reset, Mocap, then two brake-fan gauges: two full wrong-answer effects, and the set holds only "Mocap" |

## Left out

- Outline geometry (Indicator.cs:74-91) is left out because it is floating-point work. This covers the top-centre position, the normal and `LookRotation` orientation, and the corner offsets by the line width written into `offsetPositions`. The outline is recorded as the corners it was drawn around. With two or three corners the source still moves the outline object to the top centre (line 75) before failing at line 77; the model leaves `outline` unchanged in that case.
- Unity object machinery is abstracted away:
  - `SetActive` becomes two booleans.
  - Transforms become `Pose` values.
  - The unused `EnsurePositionAfterActivation` coroutine, the never-created `spawnedWrenchObject`, `wrenchObjectToSpawn` and `Debug.Log*` are dropped.
  - Every inspector reference (props, marker, text mesh, line renderer, audio source) is assumed assigned. Their null checks are not modelled.
- `FixedPositionHandler.UpdatePosition` (Indicator.cs:111-114, SimulationUI.cs:78) is not modelled. `FixedPositionHandler` is not part of this model. As a result the reference prop's pose is the constant `Indicator.eventOnePose`. The source reads `eventOne.transform` afresh at each first Mocap (Indicator.cs:107), after the handler may have moved it.
- `SimulationUI` is not part of this model, apart from two effects:
  - Its calls from the indicator are recorded as an ordered `UICommand` log.
  - The tracking effects of `TriggerToolSelectUI` (SimulationUI.cs:79) and of the start text shown by Start (SimulationUI.cs:72) are modelled.
  - Its 5 s and 10 s coroutines, instruction strings and buttons are not modelled.
- Barcodes.Indicator.Set: does not replay the audio that the panel calls request (`TriggerCorrectAnswerUI` requests `CorrectAnswerFx` and `SelectStandardWrench`; the wrong-answer calls request `WrongAnswerFx` and a selection sound), because those requests are made inside `SimulationUI`. The same requests can be issued as `SimulationManager.Trigger` calls. As a result, the model also says nothing about this case: a null clip added through `AddAudioClip` and then drawn inside `TriggerCorrectAnswerUI`, `TriggerWrongAnswerUI` or `TriggerTWrenchAnswer` throws at SimulationManager.cs:97. That aborts the rest of `Set`'s branch; for example `hasScannedWrench` is then never set (Indicator.cs:161), and the rest of Indicator.cs:168-175 or 182-189 does not run.
- Audio playback is abstracted away:
  - `PlayOneShot` becomes an appended `Playback` entry.
  - `isPlaying`, `Stop` and the volume's effect are left out.
  - `Random.Range` becomes a nondeterministic choice of an index in [0, count).
- The static `Instance` singletons become an explicit manager reference held by the indicator.
- The barcode reader's own behaviour is out of scope. Only its `enabled` flag is modelled, as `trackingEnabled`.
- Calls before Start (a null table or set) are left out: the constructor is Start.
