/**
 * The three progress dots of client/src/components/ProgressTracker.tsx.
 */
module ProgressTracker {
  /** The steps the tracker maps over, in order. */
  const DotSteps: seq<int> := [1, 2, 3]

  /** One dot: its step, whether it is coloured in, and whether it is scaled up. */
  datatype Dot = Dot(step: int, filled: bool, enlarged: bool)

  /** The dot for `step` when the wizard is at `currentStep`. */
  function DotFor(step: int, currentStep: int): Dot
  {
    Dot(step, step <= currentStep && currentStep > 0, step == currentStep)
  }

  /** `[1, 2, 3].map(...)`: one dot per step, in order. */
  function DotsOf(steps: seq<int>, currentStep: int): (r: seq<Dot>)
    ensures |r| == |steps|
    ensures forall i :: 0 <= i < |steps| ==> r[i] == DotFor(steps[i], currentStep)
  {
    if steps == [] then [] else [DotFor(steps[0], currentStep)] + DotsOf(steps[1..], currentStep)
  }

  function Dots(currentStep: int): seq<Dot>
  {
    DotsOf(DotSteps, currentStep)
  }

  /** How many dots are coloured in. */
  function FilledCount(dots: seq<Dot>): nat
  {
    if dots == [] then 0 else (if dots[0].filled then 1 else 0) + FilledCount(dots[1..])
  }

  /** How many dots are scaled up. */
  function EnlargedCount(dots: seq<Dot>): nat
  {
    if dots == [] then 0 else (if dots[0].enlarged then 1 else 0) + EnlargedCount(dots[1..])
  }

  /** Always three dots, for steps 1, 2 and 3 in that order. */
  lemma ThreeDots(currentStep: int)
    ensures |Dots(currentStep)| == 3
    ensures Dots(currentStep)[0].step == 1 && Dots(currentStep)[1].step == 2 && Dots(currentStep)[2].step == 3
  {
  }

  /** Dot k is coloured in exactly when the wizard has started and has reached step k. */
  lemma DotFilledIff(currentStep: int, k: int)
    requires 1 <= k <= 3
    ensures Dots(currentStep)[k - 1].filled <==> 0 < currentStep && k <= currentStep
    ensures Dots(currentStep)[k - 1].enlarged <==> k == currentStep
  {
  }

  /** No dot is filled before the wizard starts; after that, min(currentStep, 3) are. */
  lemma FilledDots(currentStep: int)
    ensures FilledCount(Dots(currentStep)) == if currentStep <= 0 then 0 else if currentStep < 3 then currentStep else 3
  {
    var d := Dots(currentStep);
    assert d == [DotFor(1, currentStep), DotFor(2, currentStep), DotFor(3, currentStep)];
    assert d[1..][1..][1..] == [];
    assert FilledCount(d[1..][1..]) == (if d[2].filled then 1 else 0);
    assert FilledCount(d[1..]) == (if d[1].filled then 1 else 0) + FilledCount(d[1..][1..]);
  }

  /** Exactly one dot is enlarged on steps 1 to 3, and none on any other step. */
  lemma EnlargedDots(currentStep: int)
    ensures EnlargedCount(Dots(currentStep)) == if 1 <= currentStep <= 3 then 1 else 0
  {
    var d := Dots(currentStep);
    assert d == [DotFor(1, currentStep), DotFor(2, currentStep), DotFor(3, currentStep)];
    assert d[1..][1..][1..] == [];
    assert EnlargedCount(d[1..][1..]) == (if d[2].enlarged then 1 else 0);
    assert EnlargedCount(d[1..]) == (if d[1].enlarged then 1 else 0) + EnlargedCount(d[1..][1..]);
  }
}
