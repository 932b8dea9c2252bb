/** The guided tour of js/tour.js: a step counter over the TOUR_STEPS table,
  * the button and progress state derived from it, the overlay that follows
  * the tour, and the camera requests each step makes of the scene. */
module Tour {
  import opened Common
  import opened Registry
  import opened Scene

  /** The text of a "Next" button: "Next" or, on the last step, "Finish". */
  datatype NextLabel = Next | Finish

  /** What `goToCurrentStep` asks of the scene at a step: nothing (no step
    * there, or a name the scene does not know), the overview camera, or
    * selecting and focusing a body. */
  datatype StepAction = Stay | Overview | Visit(body: BodyKey)

  /** The index of the last tour step. */
  function LastStep(): int
  {
    |TourTargets| - 1
  }

  /** `nextStep`'s counter: one on below the last step, the same at or after it. */
  function NextStepOf(step: int): int
  {
    if step < LastStep() then step + 1 else step
  }

  /** `previousStep`'s counter: one back above step 0, the same at or before it. */
  function PreviousStepOf(step: int): int
  {
    if step > 0 then step - 1 else step
  }

  /** The value of `progress` in `updateDisplay`: max(0, (step + 1) / length · 100). */
  function Progress(step: int): real
  {
    Max(0.0, (step + 1) as real / |TourTargets| as real * 100.0)
  }

  /** The "Next" label `updateButtons` leaves: "Next" below the last step,
    * "Finish" on it, and the label it had (`prior`) before the tour starts. */
  function LabelAt(step: int, prior: NextLabel): NextLabel
  {
    if 0 <= step < LastStep() then Next
    else if step == LastStep() then Finish
    else prior
  }

  /** The "Next" label of the overlay at a step. */
  function OverlayLabel(step: int): NextLabel
  {
    if step == LastStep() then Finish else Next
  }

  /** `goToCurrentStep`'s request at a step. */
  function ActionAt(step: int): StepAction
  {
    if 0 <= step < |TourTargets| then
      match TourTargets[step]
      case None => Overview
      case Some(t) => if ParseBody(t).Some? then Visit(ParseBody(t).value) else Stay
    else Stay
  }

  /** `nextStep` applied `n` times from `step`. */
  function Advance(step: int, n: nat): int
    decreases n
  {
    if n == 0 then step else Advance(NextStepOf(step), n - 1)
  }

  /** The counter never leaves -1..last under `nextStep` or `previousStep`;
    * `nextStep` stays put exactly on the last step and `previousStep`
    * exactly at step 0 or before. */
  lemma StepsStayInRange(step: int)
    requires -1 <= step <= LastStep()
    ensures -1 <= NextStepOf(step) <= LastStep() && -1 <= PreviousStepOf(step) <= LastStep()
    ensures NextStepOf(step) == step <==> step == LastStep()
    ensures PreviousStepOf(step) == step <==> step <= 0
  {
  }

  /** Back after forward, and forward after back, return to the same step. */
  lemma StepsUndo(step: int)
    ensures 0 <= step < LastStep() ==> PreviousStepOf(NextStepOf(step)) == step
    ensures 0 < step <= LastStep() ==> NextStepOf(PreviousStepOf(step)) == step
  {
  }

  /** Progress: 0 before the tour, 100 on the last step, never below 0 nor,
    * within the table, above 100, and non-decreasing in the step. */
  lemma ProgressBounds(s: int, t: int)
    ensures Progress(-1) == 0.0 && Progress(LastStep()) == 100.0
    ensures s <= LastStep() ==> 0.0 <= Progress(s) <= 100.0
    ensures s <= t ==> Progress(s) <= Progress(t)
  {
    assert |TourTargets| == 10;
  }

  /** Within the tour the "Next" button reads "Finish" exactly on the last
    * step; before the tour starts, `updateButtons` leaves the label alone. */
  lemma LabelMeaning(step: int, prior: NextLabel)
    ensures 0 <= step <= LastStep() ==> (LabelAt(step, prior) == Finish <==> step == LastStep())
    ensures step < 0 ==> LabelAt(step, prior) == prior
    ensures 0 <= step <= LastStep() ==> LabelAt(step, prior) == OverlayLabel(step)
  {
  }

  /** Step 0 is the overview, every later step visits the Sun or a built
    * planet, and a counter outside the table asks for nothing. */
  lemma ActionsOfTheTour(step: int)
    ensures ActionAt(0) == Overview
    ensures 0 < step <= LastStep() ==>
              ActionAt(step).Visit? &&
              (ActionAt(step).body == Sun || ActionAt(step).body in BuiltPlanets)
    ensures (step < 0 || step > LastStep()) ==> ActionAt(step) == Stay
  {
    TourTargetsResolve();
    if 0 < step <= LastStep() {
      assert TourTargets[step].Some? && Resolvable(TourTargets[step].value);
    }
  }

  /** Pressing "Next" `n` times from step `s` of the tour reaches step
    * s + n, or the last step if that is nearer. */
  lemma {:induction false} AdvanceReaches(s: int, n: nat)
    requires -1 <= s <= LastStep()
    ensures Advance(s, n) == if s + n < LastStep() then s + n else LastStep()
    decreases n
  {
    if n > 0 {
      AdvanceReaches(NextStepOf(s), n - 1);
    }
  }

  class TourController {
    const system: SolarSystem
    var currentStep: int
    var isActive: bool

    // the buttons of the tour modal
    var prevDisabled: bool
    var nextDisabled: bool
    var startShown: bool
    var nextLabel: NextLabel

    // the progress bar and counter of the tour modal
    var progress: real
    var progressCount: int

    // the tour overlay: whether it exists, whether it shows, and its contents
    var overlayBuilt: bool
    var overlayShown: bool
    var overlayStep: int
    var overlayPrevDisabled: bool
    var overlayNext: NextLabel

    /** The counter stays within -1..last, and only a built overlay shows. */
    ghost predicate Valid()
      reads this
    {
      -1 <= currentStep <= LastStep() && (overlayShown ==> overlayBuilt)
    }

    /** The scene did what `action` asks and nothing else that a tour step
      * can touch. */
    twostate predicate Performed(action: StepAction)
      reads system
    {
      match action
      case Stay =>
        system.selectedPlanet == old(system.selectedPlanet) &&
        system.focusedPlanet == old(system.focusedPlanet) &&
        system.surfaceViewActive == old(system.surfaceViewActive) &&
        system.camera == old(system.camera) && system.controlsTarget == old(system.controlsTarget) &&
        system.cameraMoves == old(system.cameraMoves)
      case Overview =>
        system.selectedPlanet == old(system.selectedPlanet) &&
        system.focusedPlanet.None? &&
        system.surfaceViewActive == old(system.surfaceViewActive) &&
        system.camera == old(system.camera) && system.controlsTarget == old(system.controlsTarget) &&
        system.cameraMoves == old(system.cameraMoves) + [CameraMove(HomeCamera, Origin)]
      case Visit(k) =>
        system.BodiesValid() &&
        system.selectedPlanet == Some(k) && system.focusedPlanet == Some(k) &&
        !system.surfaceViewActive &&
        system.camera == old(system.camera) && system.controlsTarget == old(system.controlsTarget) &&
        system.cameraMoves == old(system.cameraMoves) +
          [CameraMove(Add(system.PositionOf(k), FocusOffset(BodySize(k))), system.PositionOf(k))]
    }

    /** `new TourController(solarSystem, uiController)`: before the tour, with
      * no overlay yet. */
    constructor(system: SolarSystem)
      ensures Valid()
      ensures this.system == system && currentStep == -1 && !isActive
      ensures !overlayBuilt && !overlayShown
    {
      this.system := system;
      currentStep, isActive := -1, false;
      overlayBuilt, overlayShown := false, false;
    }

    /** `updateButtons`. */
    method UpdateButtons()
      modifies this`prevDisabled, this`nextDisabled, this`startShown, this`nextLabel
      ensures prevDisabled == (currentStep <= 0) && nextDisabled == (currentStep < 0)
      ensures startShown == (currentStep < 0)
      ensures nextLabel == LabelAt(currentStep, old(nextLabel))
    {
      prevDisabled := currentStep <= 0;
      nextDisabled := currentStep < 0;
      startShown := currentStep < 0;
      if 0 <= currentStep < |TourTargets| - 1 {
        nextLabel := Next;
      } else if currentStep == |TourTargets| - 1 {
        nextLabel := Finish;
      }
    }

    /** `updateDisplay`: the progress bar and the "n / length" counter. */
    method UpdateDisplay()
      modifies this`progress, this`progressCount
      ensures progress == Progress(currentStep)
      ensures progressCount == if currentStep + 1 < 0 then 0 else currentStep + 1
    {
      progress := Max(0.0, (currentStep + 1) as real / |TourTargets| as real * 100.0);
      progressCount := if currentStep + 1 < 0 then 0 else currentStep + 1;
    }

    /** `reset`: back before the tour, with the modal showing the welcome
      * state. */
    method Reset()
      requires Valid()
      modifies this`currentStep, this`isActive, this`progress, this`progressCount
      modifies this`prevDisabled, this`nextDisabled, this`startShown, this`nextLabel
      ensures Valid()
      ensures currentStep == -1 && !isActive
      ensures prevDisabled && nextDisabled && startShown && nextLabel == old(nextLabel)
      ensures progress == 0.0 && progressCount == 0
    {
      currentStep, isActive := -1, false;
      UpdateDisplay();
      UpdateButtons();
      ProgressBounds(-1, -1);
    }

    /** `updateOverlay`: a built overlay shows the step number, disables
      * "Previous" on step 0 and reads "Finish" on the last step; with no
      * overlay or no step there, nothing changes. */
    method UpdateOverlay()
      modifies this`overlayStep, this`overlayPrevDisabled, this`overlayNext
      ensures overlayBuilt && 0 <= currentStep < |TourTargets| ==>
                overlayStep == currentStep + 1 && overlayPrevDisabled == (currentStep == 0) &&
                overlayNext == OverlayLabel(currentStep)
      ensures !(overlayBuilt && 0 <= currentStep < |TourTargets|) ==>
                overlayStep == old(overlayStep) && overlayPrevDisabled == old(overlayPrevDisabled) &&
                overlayNext == old(overlayNext)
    {
      if overlayBuilt && 0 <= currentStep < |TourTargets| {
        overlayStep := currentStep + 1;
        overlayPrevDisabled := currentStep == 0;
        overlayNext := if currentStep == |TourTargets| - 1 then Finish else Next;
      }
    }

    /** `showTourOverlay`: the overlay is built if it is missing, shown, and
      * brought up to date. */
    method ShowTourOverlay()
      modifies this`overlayBuilt, this`overlayShown, this`overlayStep, this`overlayPrevDisabled, this`overlayNext
      ensures overlayBuilt && overlayShown
      ensures 0 <= currentStep < |TourTargets| ==>
                overlayStep == currentStep + 1 && overlayPrevDisabled == (currentStep == 0) &&
                overlayNext == OverlayLabel(currentStep)
    {
      overlayBuilt, overlayShown := true, true;
      UpdateOverlay();
    }

    /** `hideTourOverlay`: an existing overlay stops showing. */
    method HideTourOverlay()
      requires overlayShown ==> overlayBuilt
      modifies this`overlayShown
      ensures !overlayShown
    {
      if overlayBuilt {
        overlayShown := false;
      }
    }

    /** `goToCurrentStep`: the scene does what the current step asks. */
    method GoToCurrentStep()
      requires system.BodiesValid() && system.SurfaceValid()
      modifies system`selectedPlanet, system`focusedPlanet, system`surfaceViewActive
      modifies system`camera, system`controlsTarget, system`cameraMoves
      ensures system.SurfaceValid()
      ensures Performed(ActionAt(currentStep))
    {
      if 0 <= currentStep < |TourTargets| {
        match TourTargets[currentStep] {
          case None =>
            system.ResetCamera();
          case Some(t) =>
            system.SelectPlanet(t);
            system.FocusOnPlanet(t, false);
        }
      }
    }

    /** `startTour`: the tour becomes active at step 0, whose overview resets
      * the camera, and the overlay shows step 1 with "Previous" disabled. */
    method StartTour()
      requires Valid() && system.BodiesValid() && system.SurfaceValid()
      modifies this`isActive, this`currentStep
      modifies this`overlayBuilt, this`overlayShown, this`overlayStep, this`overlayPrevDisabled, this`overlayNext
      modifies system`selectedPlanet, system`focusedPlanet, system`surfaceViewActive
      modifies system`camera, system`controlsTarget, system`cameraMoves
      ensures Valid() && system.SurfaceValid()
      ensures isActive && currentStep == 0
      ensures Performed(Overview)
      ensures overlayBuilt && overlayShown && overlayStep == 1 && overlayPrevDisabled && overlayNext == Next
    {
      isActive, currentStep := true, 0;
      ActionsOfTheTour(0);
      GoToCurrentStep();
      ShowTourOverlay();
    }

    /** `endTour`: the tour stops, the overlay hides and the camera heads home. */
    method EndTour()
      requires Valid()
      modifies this`isActive, this`overlayShown, system`focusedPlanet, system`cameraMoves
      ensures Valid()
      ensures !isActive && !overlayShown
      ensures Performed(Overview)
    {
      isActive := false;
      HideTourOverlay();
      system.ResetCamera();
    }

    /** `nextStep`: below the last step the counter moves on, the scene goes
      * there and the overlay follows; on the last step the tour ends and the
      * counter stays on it. */
    method NextStep()
      requires Valid() && system.BodiesValid() && system.SurfaceValid()
      modifies this`isActive, this`currentStep
      modifies this`overlayShown, this`overlayStep, this`overlayPrevDisabled, this`overlayNext
      modifies system`selectedPlanet, system`focusedPlanet, system`surfaceViewActive
      modifies system`camera, system`controlsTarget, system`cameraMoves
      ensures Valid() && system.SurfaceValid()
      ensures currentStep == NextStepOf(old(currentStep))
      ensures old(currentStep) < LastStep() ==>
                isActive == old(isActive) && overlayShown == old(overlayShown) &&
                Performed(ActionAt(currentStep)) &&
                (overlayBuilt ==> overlayStep == currentStep + 1 && overlayNext == OverlayLabel(currentStep) &&
                                  overlayPrevDisabled == (currentStep == 0))
      ensures old(currentStep) == LastStep() ==> !isActive && !overlayShown && Performed(Overview)
    {
      if currentStep < |TourTargets| - 1 {
        currentStep := currentStep + 1;
        GoToCurrentStep();
        UpdateOverlay();
      } else {
        EndTour();
      }
    }

    /** `previousStep`: above step 0 the counter moves back, the scene goes
      * there and the overlay follows; at step 0 or before nothing changes. */
    method PreviousStep()
      requires Valid() && system.BodiesValid() && system.SurfaceValid()
      modifies this`currentStep, this`overlayStep, this`overlayPrevDisabled, this`overlayNext
      modifies system`selectedPlanet, system`focusedPlanet, system`surfaceViewActive
      modifies system`camera, system`controlsTarget, system`cameraMoves
      ensures Valid() && system.SurfaceValid()
      ensures currentStep == PreviousStepOf(old(currentStep))
      ensures old(currentStep) > 0 ==>
                Performed(ActionAt(currentStep)) &&
                (overlayBuilt ==> overlayStep == currentStep + 1 && overlayNext == OverlayLabel(currentStep) &&
                                  overlayPrevDisabled == (currentStep == 0))
      ensures old(currentStep) <= 0 ==>
                Performed(Stay) && overlayStep == old(overlayStep) &&
                overlayPrevDisabled == old(overlayPrevDisabled) && overlayNext == old(overlayNext)
    {
      if currentStep > 0 {
        currentStep := currentStep - 1;
        GoToCurrentStep();
        UpdateOverlay();
      }
    }
  }
}
