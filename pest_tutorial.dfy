/**
 * The "How It Works" tutorial (app/pest-tutorial.tsx): a stepper over four
 * steps with Previous/Next buttons, a progress bar and a step counter. The
 * route pushes are recorded in a log instead of navigating.
 */
module PestTutorial {

  datatype TutorialStep = TutorialStep(id: nat, title: string)

  const TutorialSteps: seq<TutorialStep> := [
    TutorialStep(1, "Take Clear Photos"),
    TutorialStep(2, "AI Analysis"),
    TutorialStep(3, "Get Treatment Plans"),
    TutorialStep(4, "Track Your Results")
  ]

  const IdentificationRoute := "/pest-identification"

  /** The step after pressing Next: one further, except on the last step. */
  function NextStepOf(current: nat, count: nat): (r: nat)
    requires current < count
    ensures r < count
    ensures r == current <==> current == count - 1
    ensures r != current ==> r == current + 1
  {
    if current < count - 1 then current + 1 else current
  }

  /** Pressing Next on the last step leaves the tutorial for the identification screen. */
  predicate NextLeaves(current: nat, count: nat) {
    current == count - 1
  }

  /** The step after pressing Previous: one back, except on the first step. */
  function PrevStepOf(current: nat): (r: nat)
    ensures r <= current
    ensures r == current <==> current == 0
    ensures r != current ==> r == current - 1
  {
    if current > 0 then current - 1 else current
  }

  /** Previous undoes a Next that did not leave the tutorial. */
  lemma PrevUndoesNext(current: nat, count: nat)
    requires current < count && !NextLeaves(current, count)
    ensures PrevStepOf(NextStepOf(current, count)) == current
  {
  }

  /** Next undoes a Previous that moved. */
  lemma NextUndoesPrev(current: nat, count: nat)
    requires 0 < current < count
    ensures NextStepOf(PrevStepOf(current), count) == current
  {
  }

  /** The width of the progress bar, as a fraction of its track. */
  function ProgressFraction(current: nat, count: nat): (f: real)
    requires current < count
    ensures 0.0 < f <= 1.0
    ensures f == 1.0 <==> current == count - 1
  {
    (current + 1) as real / count as real
  }

  /** The progress fraction grows by one step's share with every Next that stays. */
  lemma ProgressGrows(current: nat, count: nat)
    requires current < count && !NextLeaves(current, count)
    ensures ProgressFraction(NextStepOf(current, count), count) ==
            ProgressFraction(current, count) + 1.0 / count as real
  {
  }

  /** The numbers of the "x of n" counter. */
  function Counter(current: nat, count: nat): (xn: (nat, nat))
    requires current < count
    ensures 1 <= xn.0 <= xn.1 && xn.1 == count
    ensures xn.0 == xn.1 <==> current == count - 1
  {
    (current + 1, count)
  }

  /** The label of the Next button. */
  function NextLabel(current: nat, count: nat): (caption: string)
    ensures caption == "Get Started" <==> current == count - 1
    ensures caption == "Get Started" || caption == "Next"
  {
    if current == count - 1 then "Get Started" else "Next"
  }

  /** The screen's state, updated in place by the buttons. */
  class Tutorial {
    var currentStep: nat
    var navigations: seq<string>

    ghost predicate Valid()
      reads this
    {
      currentStep < |TutorialSteps|
    }

    constructor ()
      ensures Valid() && currentStep == 0 && navigations == []
    {
      currentStep := 0;
      navigations := [];
    }

    /** `tutorialSteps[currentStep]`, the step on screen. */
    function Step(): (s: TutorialStep)
      requires Valid()
      reads this
      ensures s.id == currentStep + 1
    {
      TutorialSteps[currentStep]
    }

    /** `nextStep`. */
    method NextStep()
      requires Valid()
      modifies this
      ensures Valid()
      ensures currentStep == NextStepOf(old(currentStep), |TutorialSteps|)
      ensures navigations == old(navigations) +
                             (if NextLeaves(old(currentStep), |TutorialSteps|) then [IdentificationRoute] else [])
    {
      if currentStep < |TutorialSteps| - 1 {
        currentStep := currentStep + 1;
      } else {
        navigations := navigations + [IdentificationRoute];
      }
    }

    /** `prevStep`. */
    method PrevStep()
      requires Valid()
      modifies this
      ensures Valid()
      ensures currentStep == PrevStepOf(old(currentStep))
      ensures navigations == old(navigations)
    {
      if currentStep > 0 {
        currentStep := currentStep - 1;
      }
    }

    /** The header's Skip button. */
    method Skip()
      requires Valid()
      modifies this
      ensures Valid()
      ensures currentStep == old(currentStep)
      ensures navigations == old(navigations) + [IdentificationRoute]
    {
      navigations := navigations + [IdentificationRoute];
    }
  }

  /** Three presses of Next from the start reach the last step and change the label. */
  lemma WalkThrough()
    ensures NextStepOf(NextStepOf(NextStepOf(0, 4), 4), 4) == 3
    ensures NextLabel(3, 4) == "Get Started" && NextLabel(2, 4) == "Next"
    ensures ProgressFraction(0, 4) == 0.25 && ProgressFraction(3, 4) == 1.0
  {
  }
}
