/** The seven-step progress bar: which step is shown active, which
    completed, which may be clicked, and what a click does to the store. */
module Stepper {
  import opened CvSlice

  /** A step of the bar: its two-digit label and its title. */
  datatype Step = Step(number: string, title: string)

  const Steps: seq<Step> := [
    Step("01", "Personal Information"),
    Step("02", "Career Summary"),
    Step("03", "Skills & Experience"),
    Step("04", "Education & Certifications"),
    Step("05", "Contact Information"),
    Step("06", "AI Resume Generation"),
    Step("07", "Review & Download")
  ]

  /** How one step is drawn for the store's current step. */
  datatype StepView = StepView(stepNum: int, active: bool, completed: bool, clickable: bool)

  /** The bar for current step `current`: step `i + 1` is active when it is
      the current step, completed when it is before it, and clickable when it
      is at most one past it. */
  function StepViews(current: int): (views: seq<StepView>)
    ensures |views| == |Steps|
    ensures forall i :: 0 <= i < |views| ==> views[i].stepNum == i + 1
    ensures forall i :: 0 <= i < |views| ==>
      (views[i].active <==> i + 1 == current) &&
      (views[i].completed <==> i + 1 < current) &&
      (views[i].clickable <==> i + 1 <= current + 1)
  {
    seq(|Steps|, i requires 0 <= i < |Steps| => StepView(i + 1, i + 1 == current, i + 1 < current, i + 1 <= current + 1))
  }

  /** At most one step is active, exactly one when the current step is on
      the bar, and no step is both active and completed. */
  lemma OneActiveStep(current: int)
    ensures forall i, j :: 0 <= i < j < |StepViews(current)| ==> !(StepViews(current)[i].active && StepViews(current)[j].active)
    ensures (exists i :: 0 <= i < |StepViews(current)| && StepViews(current)[i].active) <==> 1 <= current <= |Steps|
    ensures forall i :: 0 <= i < |StepViews(current)| ==> !(StepViews(current)[i].active && StepViews(current)[i].completed)
  {
    if 1 <= current <= |Steps| {
      assert StepViews(current)[current - 1].active;
    }
  }

  /** The completed steps come first, then the active one, and every step
      that is completed or active is also clickable, as is the one after. */
  lemma StepsInOrder(current: int)
    ensures forall i, j :: 0 <= i < j < |StepViews(current)| && StepViews(current)[j].completed ==> StepViews(current)[i].completed
    ensures forall i :: 0 <= i < |StepViews(current)| && (StepViews(current)[i].completed || StepViews(current)[i].active) ==> StepViews(current)[i].clickable
    ensures forall i :: 0 <= i < |StepViews(current)| && i + 1 == current + 1 ==> StepViews(current)[i].clickable
  {
  }

  /** `progressWidth`: the share of the bar filled, as a percentage. */
  function ProgressWidth(current: int): (w: real)
    ensures 1 <= current <= |Steps| ==> 0.0 <= w <= 100.0
    ensures w == 0.0 <==> current == 1
    ensures w == 100.0 <==> current == |Steps|
    ensures current < |Steps| ==> w < 100.0
  {
    ((current - 1) as real / (|Steps| - 1) as real) * 100.0
  }

  /** A click on step `stepNum` of the bar (desktop or mobile alike): the
      store moves to that step only when it is clickable, so the bar never
      skips more than one step ahead. */
  method Click(store: CvStore, stepNum: int)
    requires 1 <= stepNum <= |Steps|
    requires store.Valid()
    modifies store
    ensures store.Valid()
    ensures stepNum <= old(store.currentStep) + 1 ==> store.State() == old(store.State()).(currentStep := stepNum)
    ensures stepNum > old(store.currentStep) + 1 ==> store.State() == old(store.State())
  {
    var current := store.currentStep;
    if StepViews(current)[stepNum - 1].clickable {
      store.SetCurrentStep(stepNum);
    }
  }
}
