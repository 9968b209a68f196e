/**
 * The step navigation bar of the interactive demo: for every step it derives
 * whether the step is completed, current and clickable from the current step
 * index, and it guards clicks so that only clickable steps are reported.
 */
module TutorialGuide {
  import opened Wrappers

  /** The three flags the guide computes for one step. */
  datatype StepStatus = StepStatus(isCompleted: bool, isCurrent: bool, isClickable: bool)

  /** What the step circle shows: a check mark, or the 1-based step number. */
  datatype Badge = CheckMark | Number(n: nat)

  function Status(index: nat, currentStep: nat): (s: StepStatus)
    ensures s.isCompleted <==> index < currentStep
    ensures s.isCurrent <==> index == currentStep
    ensures s.isClickable <==> index <= currentStep
  {
    StepStatus(index < currentStep, index == currentStep, index <= currentStep)
  }

  /** The flags of every step, in the order of the step list. */
  function Statuses(stepCount: nat, currentStep: nat): (r: seq<StepStatus>)
    ensures |r| == stepCount
    ensures forall i :: 0 <= i < stepCount ==> r[i] == Status(i, currentStep)
  {
    seq(stepCount, (i: nat) requires i < stepCount => Status(i, currentStep))
  }

  /** Clickable means completed or current, and never both. */
  lemma ClickableIsCompletedOrCurrent(index: nat, currentStep: nat)
    ensures Status(index, currentStep).isClickable
        <==> Status(index, currentStep).isCompleted || Status(index, currentStep).isCurrent
    ensures !(Status(index, currentStep).isCompleted && Status(index, currentStep).isCurrent)
  {
  }

  /** For an in-range current index exactly one step of the list is current. */
  lemma ExactlyOneCurrent(stepCount: nat, currentStep: nat)
    requires currentStep < stepCount
    ensures (set i | 0 <= i < stepCount && Statuses(stepCount, currentStep)[i].isCurrent) == {currentStep}
  {
    var s := Statuses(stepCount, currentStep);
    var cur := set i | 0 <= i < stepCount && s[i].isCurrent;
    assert currentStep in cur by { assert s[currentStep].isCurrent; }
    forall i | i in cur ensures i == currentStep {
      assert s[i] == Status(i, currentStep);
    }
  }

  /**
   * The click handler `isClickable && onStepClick(index)`: the index handed to
   * `onStepClick`, or None when the click is swallowed.
   */
  function Click(index: nat, currentStep: nat): (r: Option<nat>)
    ensures r.Some? <==> index <= currentStep
    ensures r.Some? ==> r.value == index
  {
    if Status(index, currentStep).isClickable then Some(index) else None
  }

  /** A click never asks to jump beyond the current step. */
  lemma ClickNeverSkipsAhead(index: nat, currentStep: nat)
    ensures Click(index, currentStep).Some? ==> Click(index, currentStep).value <= currentStep
  {
  }

  /** Completed steps show a check mark, all others their number `index + 1`. */
  function StepBadge(index: nat, currentStep: nat): (b: Badge)
    ensures b == CheckMark <==> index < currentStep
    ensures b.Number? ==> b.n == index + 1 && b.n > currentStep
  {
    if Status(index, currentStep).isCompleted then CheckMark else Number(index + 1)
  }
}
