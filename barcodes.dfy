/**
 * The barcode indicator: it admits or suppresses each recognised barcode label,
 * then runs one of four label-specific branches that change the displayed
 * text, the visibility of two scene props, the shared tracking switch and
 * the instruction panel.
 *
 * The indicator's state, together with the tracking switch it shares with
 * the simulation manager, is the value `Detector`. `Scan`, `DetectionsCleared`
 * and `SimulationReset` say what each operation does to it, and class
 * `Indicator` implements them step by step and is proved against them.
 * Calls into the instruction panel are recorded in order as `UICommand`s.
 */
module Barcodes {
  import opened Simulation

  const Mocap := "Mocap"
  const StandardWrench := "Standard Wrench"
  const BrakeFanGauge := "Brake-fan gauge"
  const TorqueWrench := "Torque Wrench"

  const ObjectDetectedText := "Object Detected!"
  const SecondMocapText := "Second Mocap Detected!"
  const CorrectAnswerText := "Correct Answer"
  const WrongAnswerText := "Wrong Answer"

  datatype Vec3 = Vec3(x: real, y: real, z: real)
  datatype Quaternion = Quaternion(x: real, y: real, z: real, w: real)
  datatype Pose = Pose(position: Vec3, rotation: Quaternion)

  /** The drawn outline: cleared, or drawn around the corners of the last admitted detection. */
  datatype Outline = Cleared | Traced(corners: seq<Vec3>)

  /** The instruction-panel calls the indicator makes, in the order it makes them. */
  datatype UICommand =
    | TriggerToolSelectUI
    | TurnOffViewFinder
    | TurnOffPanelView
    | TurnOnPanelView
    | TriggerCorrectAnswerUI
    | TriggerWrongAnswerUI
    | TriggerTWrenchAnswer

  datatype Detector = Detector(
    singleDetectionBarcodes: set<string>,
    hasScannedMocap: bool,
    hasScannedWrench: bool,
    eventOneActive: bool,
    reassemblyOneActive: bool,
    text: string,
    outline: Outline,
    markerPose: Pose,        // the reassembly position marker
    reassemblyPose: Pose,    // where the reassembly prop stands
    trackingEnabled: bool,   // the shared barcode reader switch
    ui: seq<UICommand>)

  /**
   * The invariant at call boundaries: each single-shot label is in the set
   * exactly when its flag is set, and nothing else is ever in the set.
   */
  predicate Valid(d: Detector): (r: bool)
    // under the invariant the set is empty exactly when neither label has been scanned
    ensures r ==> (d.singleDetectionBarcodes == {} <==> !d.hasScannedMocap && !d.hasScannedWrench)
    ensures r ==> (d.hasScannedMocap && d.hasScannedWrench <==> d.singleDetectionBarcodes == {Mocap, StandardWrench})
  {
    && (Mocap in d.singleDetectionBarcodes <==> d.hasScannedMocap)
    && (StandardWrench in d.singleDetectionBarcodes <==> d.hasScannedWrench)
    && d.singleDetectionBarcodes <= {Mocap, StandardWrench}
  }

  /** The labels that fire once: the reference object and the correct tool, never a wrong answer. */
  predicate IsSingleDetection(code: string): (r: bool)
    ensures r ==> code != BrakeFanGauge && code != TorqueWrench
    ensures r <==> code in {Mocap, StandardWrench}
  {
    code == Mocap || code == StandardWrench
  }

  /** The set after the re-arm step: "Mocap" is taken out once the wrench has been scanned. */
  function Rearmed(d: Detector, code: string): (r: set<string>)
    // at most "Mocap" is taken out, and nothing is added
    ensures r <= d.singleDetectionBarcodes && d.singleDetectionBarcodes - r <= {Mocap}
    // once the wrench has been scanned, a "Mocap" detection never finds itself in the set
    ensures code == Mocap && d.hasScannedWrench ==> Mocap !in r
    // any other detection, or a "Mocap" before the wrench, sees the set as it is
    ensures code != Mocap || !d.hasScannedWrench ==> r == d.singleDetectionBarcodes
  {
    if code == Mocap && d.hasScannedWrench && Mocap in d.singleDetectionBarcodes
    then d.singleDetectionBarcodes - {Mocap}
    else d.singleDetectionBarcodes
  }

  /** A detection goes past the dedup guard unless it is single-shot and (still) in the set. */
  predicate Admitted(d: Detector, code: string): (r: bool)
    // labels that are not single-shot are always admitted
    ensures !IsSingleDetection(code) ==> r
    // "Standard Wrench" is admitted only while it is not in the set
    ensures code == StandardWrench ==> (r <==> StandardWrench !in d.singleDetectionBarcodes)
    // "Mocap" is admitted while it is not in the set, or at any time after the wrench
    ensures code == Mocap ==> (r <==> Mocap !in d.singleDetectionBarcodes || d.hasScannedWrench)
  {
    !(IsSingleDetection(code) && code in Rearmed(d, code))
  }

  /** The outline code reads four corners; with fewer it fails after admission. */
  predicate CornersPresent(corners: seq<Vec3>): (r: bool)
    // the outline code can read corners 0 to 3 exactly when index 3 exists
    ensures r <==> 3 < |corners|
  {
    |corners| >= 4
  }

  /** Hides the reference prop only when the reference has been scanned. */
  function HideEventOneIfScanned(d: Detector): (r: bool)
    // never shows the prop; hides it once the reference is scanned, else leaves it as it is
    ensures r ==> d.eventOneActive
    ensures d.hasScannedMocap ==> !r
    ensures !d.hasScannedMocap ==> r == d.eventOneActive
  {
    if d.hasScannedMocap then false else d.eventOneActive
  }

  /** The label-specific branches, run once the outline and text have been updated. */
  function Dispatch(d: Detector, code: string, eventOnePose: Pose): (r: Detector)
    // the branches never touch the set or the outline, and only extend the panel log
    ensures r.singleDetectionBarcodes == d.singleDetectionBarcodes && r.outline == d.outline
    ensures d.ui <= r.ui
    // a flag is only ever set, and only by its own label
    ensures r.hasScannedMocap == (d.hasScannedMocap || code == Mocap)
    ensures r.hasScannedWrench == (d.hasScannedWrench || code == StandardWrench)
    // the branches only switch tracking off, and the wrong answers leave it alone
    ensures r.trackingEnabled ==> d.trackingEnabled
    ensures code == BrakeFanGauge || code == TorqueWrench ==> r.trackingEnabled == d.trackingEnabled
    // a prop is never shown except by the Mocap branches
    ensures r.eventOneActive && !d.eventOneActive ==> code == Mocap
    ensures r.reassemblyOneActive && !d.reassemblyOneActive ==> code == Mocap && d.hasScannedWrench
    // any other label runs no branch
    ensures code != Mocap && code != StandardWrench && code != BrakeFanGauge && code != TorqueWrench ==> r == d
  {
    if code == Mocap then
      if !d.hasScannedMocap then
        // the tool-select panel switches tracking on; DisableTracking runs last
        d.(text := ObjectDetectedText,
           ui := d.ui + [TriggerToolSelectUI, TurnOffViewFinder, TurnOffPanelView],
           eventOneActive := true,
           markerPose := eventOnePose,
           reassemblyOneActive := false,
           trackingEnabled := false,
           hasScannedMocap := true)
      else if d.hasScannedWrench then
        d.(text := SecondMocapText,
           ui := d.ui + [TurnOffViewFinder],
           reassemblyOneActive := true,
           reassemblyPose := d.markerPose,
           trackingEnabled := false)
      else d
    else if code == StandardWrench then
      d.(text := CorrectAnswerText,
         ui := d.ui + [TriggerCorrectAnswerUI, TurnOffViewFinder, TurnOnPanelView],
         eventOneActive := HideEventOneIfScanned(d),
         trackingEnabled := false,
         hasScannedWrench := true)
    else if code == BrakeFanGauge then
      d.(text := WrongAnswerText,
         ui := d.ui + [TriggerWrongAnswerUI, TurnOffViewFinder, TurnOnPanelView],
         eventOneActive := HideEventOneIfScanned(d),
         reassemblyOneActive := false)
    else if code == TorqueWrench then
      d.(text := WrongAnswerText,
         ui := d.ui + [TriggerTWrenchAnswer, TurnOffViewFinder, TurnOnPanelView],
         eventOneActive := HideEventOneIfScanned(d),
         reassemblyOneActive := false)
    else d
  }

  /**
   * One detection of `code` with the given corners. `eventOnePose` is where
   * the reference prop stands in the scene.
   */
  function Scan(d: Detector, code: string, corners: seq<Vec3>, eventOnePose: Pose): (r: Detector)
    // a suppressed detection changes nothing at all, not even the outline or the text
    ensures !Admitted(d, code) ==> r == d
    // the re-arm removal is always undone: the set gains exactly the admitted single-shot label
    ensures r.singleDetectionBarcodes ==
              if Admitted(d, code) && IsSingleDetection(code)
              then d.singleDetectionBarcodes + {code} else d.singleDetectionBarcodes
    // with missing corners, admission happens and then nothing else does
    ensures Admitted(d, code) && !CornersPresent(corners) ==>
              r == d.(singleDetectionBarcodes := r.singleDetectionBarcodes)
    // an admitted detection redraws the outline around its corners
    ensures Admitted(d, code) && CornersPresent(corners) ==> r.outline == Traced(corners)
    // the invariant holds after every detection that completes
    ensures Valid(d) && CornersPresent(corners) ==> Valid(r)
  {
    var rearmed := Rearmed(d, code);
    if IsSingleDetection(code) && code in rearmed then
      d.(singleDetectionBarcodes := rearmed)
    else
      var admitted := d.(singleDetectionBarcodes :=
                           if IsSingleDetection(code) then rearmed + {code} else rearmed);
      if !CornersPresent(corners) then admitted
      else Dispatch(admitted.(outline := Traced(corners), text := code), code, eventOnePose)
  }

  /** Forget every detection. */
  function DetectionsCleared(d: Detector): (r: Detector)
    ensures Valid(r)
    ensures r.singleDetectionBarcodes == {} && !r.hasScannedMocap && !r.hasScannedWrench
    ensures r.(singleDetectionBarcodes := d.singleDetectionBarcodes,
               hasScannedMocap := d.hasScannedMocap,
               hasScannedWrench := d.hasScannedWrench) == d
  {
    d.(singleDetectionBarcodes := {}, hasScannedMocap := false, hasScannedWrench := false)
  }

  /** Forget every detection, hide both props, clear the text and the outline. */
  function SimulationReset(d: Detector): (r: Detector)
    ensures Valid(r)
    ensures r.singleDetectionBarcodes == {} && !r.hasScannedMocap && !r.hasScannedWrench
    ensures !r.eventOneActive && !r.reassemblyOneActive && r.text == "" && r.outline == Cleared
    ensures r.markerPose == d.markerPose && r.reassemblyPose == d.reassemblyPose
    ensures r.trackingEnabled == d.trackingEnabled && r.ui == d.ui
  {
    DetectionsCleared(d).(eventOneActive := false, reassemblyOneActive := false, text := "", outline := Cleared)
  }

  class Indicator {
    const manager: SimulationManager
    const eventOnePose: Pose

    var singleDetectionBarcodes: set<string>
    var hasScannedMocap: bool
    var hasScannedWrench: bool
    var eventOneActive: bool
    var reassemblyOneActive: bool
    var text: string
    var outline: Outline
    var markerPose: Pose
    var reassemblyPose: Pose
    var ui: seq<UICommand>

    function Snapshot(): Detector
      reads this, manager
    {
      Detector(singleDetectionBarcodes, hasScannedMocap, hasScannedWrench,
               eventOneActive, reassemblyOneActive, text, outline,
               markerPose, reassemblyPose, manager.trackingEnabled, ui)
    }

    /**
     * Start: both props hidden and no detection recorded. The text, the
     * outline and the two poses keep what the scene gave them.
     */
    constructor (manager: SimulationManager, text: string, outline: Outline,
                 eventOnePose: Pose, markerPose: Pose, reassemblyPose: Pose)
      ensures this.manager == manager && this.eventOnePose == eventOnePose
      ensures Valid(Snapshot())
      ensures Snapshot() == Detector({}, false, false, false, false, text, outline,
                                     markerPose, reassemblyPose, manager.trackingEnabled, [])
    {
      this.manager := manager;
      this.eventOnePose := eventOnePose;
      eventOneActive := false;
      reassemblyOneActive := false;
      singleDetectionBarcodes := {};
      hasScannedMocap := false;
      hasScannedWrench := false;
      this.text := text;
      this.outline := outline;
      this.markerPose := markerPose;
      this.reassemblyPose := reassemblyPose;
      ui := [];
    }

    /**
     * Handles one detection. `completed` is false when the outline code ran
     * out of corners after the detection had been admitted.
     */
    method Set(code: string, corners: seq<Vec3>) returns (completed: bool)
      modifies this, manager`trackingEnabled
      ensures completed <==> !(Admitted(old(Snapshot()), code) && !CornersPresent(corners))
      ensures Snapshot() == Scan(old(Snapshot()), code, corners, eventOnePose)
      ensures manager.Abs() == old(manager.Abs()).(trackingEnabled := manager.trackingEnabled)
    {
      var isSingleDetection := code == Mocap || code == StandardWrench;

      if code == Mocap && hasScannedWrench && Mocap in singleDetectionBarcodes {
        singleDetectionBarcodes := singleDetectionBarcodes - {Mocap};
      }

      if isSingleDetection && code in singleDetectionBarcodes {
        return true;
      }

      if isSingleDetection {
        singleDetectionBarcodes := singleDetectionBarcodes + {code};
      }

      if |corners| < 4 {
        return false;
      }
      outline := Traced(corners);
      text := code;
      completed := true;
      Branch(code);
    }

    /** The label-specific branches of Set. */
    method Branch(code: string)
      modifies this, manager`trackingEnabled
      ensures Snapshot() == Dispatch(old(Snapshot()), code, eventOnePose)
    {
      if code == Mocap {
        if !hasScannedMocap {
          FirstMocap();
        } else if hasScannedWrench {
          SecondMocap();
        }
      } else if code == StandardWrench {
        CorrectAnswer();
      } else if code == BrakeFanGauge {
        WrongAnswer(TriggerWrongAnswerUI);
      } else if code == TorqueWrench {
        WrongAnswer(TriggerTWrenchAnswer);
      }
    }

    method FirstMocap()
      requires !hasScannedMocap
      modifies this, manager`trackingEnabled
      ensures Snapshot() == Dispatch(old(Snapshot()), Mocap, eventOnePose)
    {
      text := ObjectDetectedText;
      ui := ui + [TriggerToolSelectUI];
      manager.EnableTracking();
      ui := ui + [TurnOffViewFinder];
      ui := ui + [TurnOffPanelView];
      eventOneActive := true;
      markerPose := eventOnePose;
      reassemblyOneActive := false;
      manager.DisableTracking();
      hasScannedMocap := true;
    }

    method SecondMocap()
      requires hasScannedMocap && hasScannedWrench
      modifies this, manager`trackingEnabled
      ensures Snapshot() == Dispatch(old(Snapshot()), Mocap, eventOnePose)
    {
      text := SecondMocapText;
      ui := ui + [TurnOffViewFinder];
      reassemblyOneActive := true;
      reassemblyPose := markerPose;
      manager.DisableTracking();
    }

    method CorrectAnswer()
      modifies this, manager`trackingEnabled
      ensures Snapshot() == Dispatch(old(Snapshot()), StandardWrench, eventOnePose)
    {
      text := CorrectAnswerText;
      ui := ui + [TriggerCorrectAnswerUI];
      ui := ui + [TurnOffViewFinder];
      ui := ui + [TurnOnPanelView];
      if hasScannedMocap {
        eventOneActive := false;
      }
      manager.DisableTracking();
      hasScannedWrench := true;
    }

    /** The two wrong-answer branches, which differ only in the panel call. */
    method WrongAnswer(panelCall: UICommand)
      requires panelCall == TriggerWrongAnswerUI || panelCall == TriggerTWrenchAnswer
      modifies this
      ensures Snapshot() ==
                Dispatch(old(Snapshot()), if panelCall == TriggerWrongAnswerUI then BrakeFanGauge else TorqueWrench, eventOnePose)
    {
      text := WrongAnswerText;
      ui := ui + [panelCall];
      ui := ui + [TurnOffViewFinder];
      ui := ui + [TurnOnPanelView];
      if hasScannedMocap {
        eventOneActive := false;
      }
      reassemblyOneActive := false;
    }

    method ResetDetections()
      modifies this
      ensures Snapshot() == DetectionsCleared(old(Snapshot()))
    {
      singleDetectionBarcodes := {};
      hasScannedMocap := false;
      hasScannedWrench := false;
    }

    method ResetSimulation()
      modifies this
      ensures Snapshot() == SimulationReset(old(Snapshot()))
    {
      ResetDetections();
      eventOneActive := false;
      reassemblyOneActive := false;
      text := "";
      outline := Cleared;
    }
  }
}
