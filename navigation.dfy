/**
 * The Back and Next buttons and the step label of
 * client/src/components/NavigationControls.tsx.
 */
module NavigationControls {
  import opened Wrappers
  import opened Text

  /** The page renders the controls with totalSteps={3}. */
  const TotalSteps: int := 3

  /** Back is disabled at or before the first step. */
  predicate BackDisabled(currentStep: int)
  {
    currentStep <= 1
  }

  /** Next is disabled at or after the last step. */
  predicate NextDisabled(currentStep: int, totalSteps: int)
  {
    currentStep >= totalSteps
  }

  /** The label "Step {currentStep} of {totalSteps}". */
  function StepLabel(currentStep: int, totalSteps: int): string
  {
    "Step " + IntText(currentStep) + " of " + IntText(totalSteps)
  }

  /** Back and Next are never disabled together on a three-step wizard. */
  lemma NeverBothDisabled(currentStep: int)
    ensures !(BackDisabled(currentStep) && NextDisabled(currentStep, TotalSteps))
  {
  }

  /** Within the wizard's steps, both buttons are enabled exactly on the middle step. */
  lemma BothEnabledOnMiddleStep(currentStep: int)
    requires 1 <= currentStep <= TotalSteps
    ensures !BackDisabled(currentStep) && !NextDisabled(currentStep, TotalSteps) <==> currentStep == 2
    ensures BackDisabled(currentStep) <==> currentStep == 1
    ensures NextDisabled(currentStep, TotalSteps) <==> currentStep == 3
  {
  }

  /**
   * The label shows both numbers verbatim: after "Step " the current step
   * reads back, and after the following " of " the total does.
   */
  lemma StepLabelReadsBack(currentStep: int, totalSteps: int)
    ensures var text := StepLabel(currentStep, totalSteps);
      var k := 5 + |IntText(currentStep)|;
      && k + 4 <= |text|
      && text[..5] == "Step "
      && ParseInt(text[5..]) == Some(currentStep)
      && text[k..k + 4] == " of "
      && ParseInt(text[k + 4..]) == Some(totalSteps)
  {
    var a := IntText(currentStep);
    var b := IntText(totalSteps);
    var text := StepLabel(currentStep, totalSteps);
    var k := 5 + |a|;
    assert text == "Step " + (a + (" of " + b));
    assert text[..5] == "Step ";
    assert text[5..] == a + (" of " + b);
    ParseIntText(currentStep, " of " + b);
    assert text[k..k + 4] == " of ";
    assert text[k + 4..] == b + [];
    ParseIntText(totalSteps, []);
  }
}
