/**
 * Properties of the indicator's admission policy and branches, for single
 * detections and for whole runs of detections.
 */
module BarcodeProperties {
  import opened Barcodes

  datatype Detection = Detection(code: string, corners: seq<Vec3>)

  /** The detections handled in order, as successive calls of Set. */
  function Run(d: Detector, ds: seq<Detection>, eventOnePose: Pose): Detector
    decreases |ds|
  {
    if ds == [] then d
    else Run(Scan(d, ds[0].code, ds[0].corners, eventOnePose), ds[1..], eventOnePose)
  }

  predicate AllComplete(ds: seq<Detection>)
  {
    forall i :: 0 <= i < |ds| ==> CornersPresent(ds[i].corners)
  }

  predicate AllOf(ds: seq<Detection>, code: string)
  {
    forall i :: 0 <= i < |ds| ==> ds[i].code == code
  }

  /** `block` written `n` times in a row. */
  function Repeated(block: seq<UICommand>, n: nat): seq<UICommand>
  {
    if n == 0 then [] else block + Repeated(block, n - 1)
  }

  // ----- Admission ----------------------------------------------------------

  /**
   * Under the invariant, a detection is suppressed exactly when it is a
   * second "Standard Wrench", or a "Mocap" after Mocap but before the wrench.
   */
  lemma AdmissionRule(d: Detector, code: string)
    requires Valid(d)
    ensures Admitted(d, code) <==>
              !(code == StandardWrench && d.hasScannedWrench) &&
              !(code == Mocap && d.hasScannedMocap && !d.hasScannedWrench)
  {
  }

  /** A repeated single-shot label changes nothing: no set member, flag, prop, text or outline. */
  lemma RepeatedSingleShotIgnored(d: Detector, code: string, corners: seq<Vec3>, p: Pose)
    requires Valid(d)
    requires (code == StandardWrench && d.hasScannedWrench) ||
             (code == Mocap && d.hasScannedMocap && !d.hasScannedWrench)
    ensures Scan(d, code, corners, p) == d
  {
  }

  // ----- The four branches ---------------------------------------------------

  lemma FirstMocapEffect(d: Detector, corners: seq<Vec3>, p: Pose)
    requires Valid(d) && !d.hasScannedMocap && CornersPresent(corners)
    ensures var r := Scan(d, Mocap, corners, p);
      && r.hasScannedMocap && r.hasScannedWrench == d.hasScannedWrench
      && r.singleDetectionBarcodes == d.singleDetectionBarcodes + {Mocap}
      && r.text == ObjectDetectedText
      && r.eventOneActive && !r.reassemblyOneActive
      && !r.trackingEnabled
      && r.markerPose == p
      && r.ui == d.ui + [TriggerToolSelectUI, TurnOffViewFinder, TurnOffPanelView]
  {
  }

  /**
   * Once the wrench has been scanned, every "Mocap" is admitted and stays in
   * the set; after Mocap, it takes the second-Mocap branch every time.
   */
  lemma MocapAfterWrench(d: Detector, corners: seq<Vec3>, p: Pose)
    requires Valid(d) && d.hasScannedWrench && CornersPresent(corners)
    ensures Admitted(d, Mocap)
    ensures Mocap in Scan(d, Mocap, corners, p).singleDetectionBarcodes
    ensures d.hasScannedMocap ==>
      var r := Scan(d, Mocap, corners, p);
      && r.singleDetectionBarcodes == d.singleDetectionBarcodes
      && r.hasScannedMocap && r.hasScannedWrench
      && r.text == SecondMocapText
      && r.reassemblyOneActive && r.reassemblyPose == d.markerPose
      && r.eventOneActive == d.eventOneActive
      && !r.trackingEnabled
      && r.ui == d.ui + [TurnOffViewFinder]
  {
  }

  lemma StandardWrenchEffect(d: Detector, corners: seq<Vec3>, p: Pose)
    requires Valid(d) && !d.hasScannedWrench && CornersPresent(corners)
    ensures var r := Scan(d, StandardWrench, corners, p);
      && r.hasScannedWrench && r.hasScannedMocap == d.hasScannedMocap
      && r.singleDetectionBarcodes == d.singleDetectionBarcodes + {StandardWrench}
      && r.text == CorrectAnswerText
      && !r.trackingEnabled
      && r.eventOneActive == (if d.hasScannedMocap then false else d.eventOneActive)
      && r.reassemblyOneActive == d.reassemblyOneActive
      && r.ui == d.ui + [TriggerCorrectAnswerUI, TurnOffViewFinder, TurnOnPanelView]
  {
  }

  /** The panel call each wrong answer makes. */
  function WrongAnswerCall(code: string): UICommand
  {
    if code == BrakeFanGauge then TriggerWrongAnswerUI else TriggerTWrenchAnswer
  }

  /** Wrong answers are admitted every time and never touch the set, the flags or tracking. */
  lemma WrongAnswerEffect(d: Detector, code: string, corners: seq<Vec3>, p: Pose)
    requires code == BrakeFanGauge || code == TorqueWrench
    requires CornersPresent(corners)
    ensures Admitted(d, code)
    ensures var r := Scan(d, code, corners, p);
      && r.singleDetectionBarcodes == d.singleDetectionBarcodes
      && r.hasScannedMocap == d.hasScannedMocap && r.hasScannedWrench == d.hasScannedWrench
      && r.text == WrongAnswerText
      && !r.reassemblyOneActive
      && r.eventOneActive == (if d.hasScannedMocap then false else d.eventOneActive)
      && r.trackingEnabled == d.trackingEnabled
      && r.ui == d.ui + [WrongAnswerCall(code), TurnOffViewFinder, TurnOnPanelView]
  {
  }

  /** Any other label shows itself as the text and changes nothing else but the outline. */
  lemma OtherLabelEffect(d: Detector, code: string, corners: seq<Vec3>, p: Pose)
    requires code != Mocap && code != StandardWrench && code != BrakeFanGauge && code != TorqueWrench
    requires CornersPresent(corners)
    ensures Scan(d, code, corners, p) == d.(text := code, outline := Traced(corners))
  {
  }

  /**
   * A first "Mocap" or a first "Standard Wrench" without four corners is
   * recorded in the set but its flag is not set, so the invariant is lost;
   * any other detection without corners keeps it.
   */
  lemma MissingCornersBreakInvariant(d: Detector, code: string, corners: seq<Vec3>, p: Pose)
    requires Valid(d) && !CornersPresent(corners)
    ensures !Valid(Scan(d, code, corners, p)) <==>
              (code == Mocap && !d.hasScannedMocap) ||
              (code == StandardWrench && !d.hasScannedWrench)
  {
  }

  // ----- Runs -----------------------------------------------------------------

  lemma {:induction false} RunKeepsInvariant(d: Detector, ds: seq<Detection>, p: Pose)
    requires Valid(d) && AllComplete(ds)
    ensures Valid(Run(d, ds, p))
    decreases |ds|
  {
    if ds != [] {
      RunKeepsInvariant(Scan(d, ds[0].code, ds[0].corners, p), ds[1..], p);
    }
  }

  /** Any number of repeats of a suppressed label leave the state exactly as it was. */
  lemma {:induction false} SuppressedRepeats(d: Detector, code: string, ds: seq<Detection>, p: Pose)
    requires !Admitted(d, code) && AllOf(ds, code)
    ensures Run(d, ds, p) == d
    decreases |ds|
  {
    if ds != [] {
      SuppressedRepeats(d, code, ds[1..], p);
    }
  }

  /** N wrong answers of one kind produce N full wrong-answer effects and leave the set alone. */
  lemma {:induction false} WrongAnswersNeverDeduplicated(d: Detector, code: string, ds: seq<Detection>, p: Pose)
    requires code == BrakeFanGauge || code == TorqueWrench
    requires AllOf(ds, code) && AllComplete(ds)
    ensures var r := Run(d, ds, p);
      && r.singleDetectionBarcodes == d.singleDetectionBarcodes
      && r.hasScannedMocap == d.hasScannedMocap && r.hasScannedWrench == d.hasScannedWrench
      && r.trackingEnabled == d.trackingEnabled
      && r.ui == d.ui + Repeated([WrongAnswerCall(code), TurnOffViewFinder, TurnOnPanelView], |ds|)
      && (ds != [] ==> r.text == WrongAnswerText && !r.reassemblyOneActive)
    decreases |ds|
  {
    if ds != [] {
      var block := [WrongAnswerCall(code), TurnOffViewFinder, TurnOnPanelView];
      var d1 := Scan(d, ds[0].code, ds[0].corners, p);
      WrongAnswerEffect(d, code, ds[0].corners, p);
      WrongAnswersNeverDeduplicated(d1, code, ds[1..], p);
      assert d1.ui + Repeated(block, |ds| - 1) == d.ui + Repeated(block, |ds|);
      if ds[1..] == [] {
        assert Run(d, ds, p) == d1;
      }
    }
  }

  /** After Mocap and the wrench, every further "Mocap" re-runs the second-Mocap branch. */
  lemma {:induction false} MocapRepeatsAfterWrench(d: Detector, ds: seq<Detection>, p: Pose)
    requires Valid(d) && d.hasScannedMocap && d.hasScannedWrench
    requires AllOf(ds, Mocap) && AllComplete(ds)
    ensures var r := Run(d, ds, p);
      && r.singleDetectionBarcodes == d.singleDetectionBarcodes
      && r.hasScannedMocap && r.hasScannedWrench
      && r.ui == d.ui + Repeated([TurnOffViewFinder], |ds|)
      && (ds != [] ==>
            r.text == SecondMocapText && r.reassemblyOneActive &&
            r.reassemblyPose == d.markerPose && !r.trackingEnabled)
    decreases |ds|
  {
    if ds != [] {
      var d1 := Scan(d, ds[0].code, ds[0].corners, p);
      MocapAfterWrench(d, ds[0].corners, p);
      MocapRepeatsAfterWrench(d1, ds[1..], p);
      assert d1.ui + Repeated([TurnOffViewFinder], |ds| - 1) == d.ui + Repeated([TurnOffViewFinder], |ds|);
      if ds[1..] == [] {
        assert Run(d, ds, p) == d1;
      }
    }
  }

  // ----- Resets ---------------------------------------------------------------

  lemma ResetsAreIdempotent(d: Detector)
    ensures DetectionsCleared(DetectionsCleared(d)) == DetectionsCleared(d)
    ensures SimulationReset(SimulationReset(d)) == SimulationReset(d)
  {
  }

  /**
   * A reset after any run gives the same detection state, props, text and
   * outline as a reset before it; only the poses, the tracking switch and
   * the panel calls keep their history. This follows from the reset alone:
   * `SimulationReset` overwrites every field compared here, so the run could
   * be any run at all.
   */
  lemma {:induction false} ResetForgetsRun(d: Detector, ds: seq<Detection>, p: Pose)
    ensures var r := SimulationReset(Run(d, ds, p));
      r == SimulationReset(d).(markerPose := r.markerPose, reassemblyPose := r.reassemblyPose,
                               trackingEnabled := r.trackingEnabled, ui := r.ui)
  {
  }

  // ----- Scenarios from a reset state ------------------------------------------

  /** A frame's corners; their values do not matter to the state machine. */
  const Quad: seq<Vec3> := [Vec3(0.0, 1.0, 0.0), Vec3(1.0, 1.0, 0.0), Vec3(1.0, 0.0, 0.0), Vec3(0.0, 0.0, 0.0)]

  /** Handling one detection and then the rest. */
  lemma RunStep(d: Detector, x: Detection, rest: seq<Detection>, p: Pose)
    ensures Run(d, [x] + rest, p) == Run(Scan(d, x.code, x.corners, p), rest, p)
  {
  }

  /** Mocap, then the standard wrench: the reference prop is hidden and tracking is off. */
  lemma MocapThenWrench(d: Detector, p: Pose)
    ensures var r := Run(SimulationReset(d), [Detection(Mocap, Quad), Detection(StandardWrench, Quad)], p);
      && r.hasScannedMocap && r.hasScannedWrench
      && r.singleDetectionBarcodes == {Mocap, StandardWrench}
      && !r.eventOneActive && !r.reassemblyOneActive
      && r.text == CorrectAnswerText && !r.trackingEnabled
  {
    var d0 := SimulationReset(d);
    var d1 := Scan(d0, Mocap, Quad, p);
    FirstMocapEffect(d0, Quad, p);
    StandardWrenchEffect(d1, Quad, p);
    RunStep(d0, Detection(Mocap, Quad), [Detection(StandardWrench, Quad)], p);
    RunStep(d1, Detection(StandardWrench, Quad), [], p);
  }

  /**
   * Mocap, wrench, Mocap: the third detection is admitted, shows the
   * reassembly prop where the reference prop stood, and "Mocap" ends up
   * back in the set.
   */
  lemma MocapWrenchMocap(d: Detector, p: Pose)
    ensures var r := Run(SimulationReset(d), [Detection(Mocap, Quad), Detection(StandardWrench, Quad), Detection(Mocap, Quad)], p);
      && r.singleDetectionBarcodes == {Mocap, StandardWrench}
      && r.text == SecondMocapText
      && r.reassemblyOneActive && r.reassemblyPose == p
      && !r.eventOneActive && !r.trackingEnabled
      && r.ui == d.ui + [TriggerToolSelectUI, TurnOffViewFinder, TurnOffPanelView,
                        TriggerCorrectAnswerUI, TurnOffViewFinder, TurnOnPanelView,
                        TurnOffViewFinder]
  {
    var d0 := SimulationReset(d);
    var d1 := Scan(d0, Mocap, Quad, p);
    var d2 := Scan(d1, StandardWrench, Quad, p);
    FirstMocapEffect(d0, Quad, p);
    StandardWrenchEffect(d1, Quad, p);
    MocapAfterWrench(d2, Quad, p);
    RunStep(d0, Detection(Mocap, Quad), [Detection(StandardWrench, Quad), Detection(Mocap, Quad)], p);
    RunStep(d1, Detection(StandardWrench, Quad), [Detection(Mocap, Quad)], p);
    RunStep(d2, Detection(Mocap, Quad), [], p);
  }

  /** The wrench before Mocap is handled: the flags reach (no Mocap, wrench) and the prop stays hidden. */
  lemma WrenchBeforeMocap(d: Detector, p: Pose)
    ensures var r := Run(SimulationReset(d), [Detection(StandardWrench, Quad)], p);
      && !r.hasScannedMocap && r.hasScannedWrench
      && !r.eventOneActive && r.text == CorrectAnswerText
  {
    var d0 := SimulationReset(d);
    StandardWrenchEffect(d0, Quad, p);
    RunStep(d0, Detection(StandardWrench, Quad), [], p);
  }

  /** Mocap, then the same wrong answer twice: two full effects, the set holds only "Mocap". */
  lemma MocapThenTwoWrongAnswers(d: Detector, p: Pose)
    ensures var r := Run(SimulationReset(d), [Detection(Mocap, Quad), Detection(BrakeFanGauge, Quad), Detection(BrakeFanGauge, Quad)], p);
      && r.singleDetectionBarcodes == {Mocap}
      && r.hasScannedMocap && !r.hasScannedWrench
      && !r.eventOneActive && r.text == WrongAnswerText
      && r.ui == d.ui + [TriggerToolSelectUI, TurnOffViewFinder, TurnOffPanelView,
                        TriggerWrongAnswerUI, TurnOffViewFinder, TurnOnPanelView,
                        TriggerWrongAnswerUI, TurnOffViewFinder, TurnOnPanelView]
  {
    var d0 := SimulationReset(d);
    var d1 := Scan(d0, Mocap, Quad, p);
    var d2 := Scan(d1, BrakeFanGauge, Quad, p);
    FirstMocapEffect(d0, Quad, p);
    WrongAnswerEffect(d1, BrakeFanGauge, Quad, p);
    WrongAnswerEffect(d2, BrakeFanGauge, Quad, p);
    RunStep(d0, Detection(Mocap, Quad), [Detection(BrakeFanGauge, Quad), Detection(BrakeFanGauge, Quad)], p);
    RunStep(d1, Detection(BrakeFanGauge, Quad), [Detection(BrakeFanGauge, Quad)], p);
    RunStep(d2, Detection(BrakeFanGauge, Quad), [], p);
  }
}
