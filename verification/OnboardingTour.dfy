/**
  The first-run tour: a fixed list of steps, a current step that the
  Previous and Next buttons move within the list, a row of progress dots, a
  "k / n" counter, and a finish button that takes Next's place on the last
  step.  Closing (the X button or the finish button) is recorded as a count
  of `onClose` calls.
 */
module OnboardingTour {

  /** The text of one step; its icon and body content are not modelled. */
  datatype TourStep = TourStep(title: string, description: string)

  const TourSteps: seq<TourStep> := [
    TourStep("歡迎使用 TeaWise", "您的專屬茶品品飲筆記應用，讓每一次品茶都成為美好回憶"),
    TourStep("智慧品飲記錄", "一鍵記錄茶品資訊、沖泡參數和品飲感受"),
    TourStep("茶品收藏管理", "建立您的專屬茶品資料庫，輕鬆管理收藏"),
    TourStep("茶友圈交流", "與志同道合的茶友分享品飲心得")
  ]

  // ------------------------------------------------------------ stepping

  /** The step after `nextStep` in a tour of `count` steps. */
  function NextStep(step: int, count: int): int
  {
    if step < count - 1 then step + 1 else step
  }

  /** The step after `prevStep`. */
  function PrevStep(step: int): int
  {
    if step > 0 then step - 1 else step
  }

  /** The Previous button is disabled on the first step. */
  predicate PrevDisabled(step: int)
  {
    step == 0
  }

  /** The finish button replaces Next on the last step. */
  predicate ShowsFinish(step: int, count: int)
  {
    step == count - 1
  }

  /** Previous is disabled exactly where it would not move the tour, and moves it one step back elsewhere. */
  lemma PrevDisabledIffNoMove(step: int, count: int)
    requires 0 <= step < count
    ensures PrevStep(step) == step <==> PrevDisabled(step)
    ensures !PrevDisabled(step) ==> PrevStep(step) == step - 1
  {
  }

  /** Next gives way to the finish button exactly where it would not move the tour, and moves it one step on elsewhere. */
  lemma FinishIffNextNoMove(step: int, count: int)
    requires 0 <= step < count
    ensures NextStep(step, count) == step <==> ShowsFinish(step, count)
    ensures !ShowsFinish(step, count) ==> NextStep(step, count) == step + 1
  {
  }

  /** Next then Previous returns to the step it started from, except on the last step. */
  lemma NextThenPrev(step: int, count: int)
    requires 0 <= step < count - 1
    ensures PrevStep(NextStep(step, count)) == step
  {
  }

  /** Previous then Next returns to the step it started from, except on the first step. */
  lemma PrevThenNext(step: int, count: int)
    requires 0 < step < count
    ensures NextStep(PrevStep(step), count) == step
  {
  }

  /** A button press. */
  datatype Move = Forward | Back

  /** The step reached after a sequence of presses. */
  function Run(step: int, count: int, moves: seq<Move>): int
    decreases |moves|
  {
    if moves == [] then step
    else Run(if moves[0] == Forward then NextStep(step, count) else PrevStep(step), count, moves[1..])
  }

  /** No sequence of presses leaves the tour's steps. */
  lemma {:induction false} RunStaysInRange(step: int, count: int, moves: seq<Move>)
    requires 0 <= step < count
    ensures 0 <= Run(step, count, moves) < count
    decreases |moves|
  {
    if moves != [] {
      RunStaysInRange(if moves[0] == Forward then NextStep(step, count) else PrevStep(step), count, moves[1..]);
    }
  }

  /** The tour opens on its first step and, with four steps, never passes step 3. */
  lemma TourStepBound(moves: seq<Move>)
    ensures |TourSteps| == 4
    ensures 0 <= Run(0, |TourSteps|, moves) <= 3
  {
    RunStaysInRange(0, |TourSteps|, moves);
  }

  function Min(a: int, b: int): int
  {
    if a <= b then a else b
  }

  function Max(a: int, b: int): int
  {
    if a <= b then b else a
  }

  /** `n` presses of Next advance `n` steps, stopping at the last one. */
  lemma {:induction false} ForwardPresses(step: int, count: int, n: nat)
    requires 0 <= step < count
    ensures Run(step, count, seq(n, _ => Forward)) == Min(step + n, count - 1)
    decreases n
  {
    if n > 0 {
      var moves := seq(n, _ => Forward);
      assert moves[0] == Forward;
      assert moves[1..] == seq(n - 1, _ => Forward);
      ForwardPresses(NextStep(step, count), count, n - 1);
    }
  }

  /** `n` presses of Previous go back `n` steps, stopping at the first one. */
  lemma {:induction false} BackPresses(step: int, count: int, n: nat)
    requires 0 <= step < count
    ensures Run(step, count, seq(n, _ => Back)) == Max(step - n, 0)
    decreases n
  {
    if n > 0 {
      var moves := seq(n, _ => Back);
      assert moves[0] == Back;
      assert moves[1..] == seq(n - 1, _ => Back);
      BackPresses(PrevStep(step), count, n - 1);
    }
  }

  // ------------------------------------------------------------- display

  /** The progress dots, `true` for a highlighted one. */
  function ProgressDots(step: int, count: nat): (dots: seq<bool>)
    ensures |dots| == count
  {
    seq(count, i => i == step)
  }

  /** On a step of the tour exactly one dot is highlighted, the current step's. */
  lemma OneDotPerStep(step: int, count: nat)
    requires 0 <= step < count
    ensures ProgressDots(step, count)[step]
    ensures |set i | 0 <= i < count && ProgressDots(step, count)[i]| == 1
  {
    var dots := ProgressDots(step, count);
    assert (set i | 0 <= i < count && dots[i]) == {step};
  }

  /** The counter's two numbers, "current / total", counting from one. */
  function Counter(step: int, count: int): (shown: (int, int))
    ensures 0 <= step < count ==> 1 <= shown.0 <= shown.1
    ensures shown.1 == count
    ensures shown.0 == shown.1 <==> ShowsFinish(step, count)
  {
    (step + 1, count)
  }

  /**
    The counter follows the stepping: it reads 1 on the first step, and each
    move of Next or Previous moves its first number by one in the same direction.
   */
  lemma CounterFollowsSteps(step: int, count: int)
    requires 0 <= step < count
    ensures Counter(0, count).0 == 1
    ensures step < count - 1 ==> Counter(NextStep(step, count), count).0 == Counter(step, count).0 + 1
    ensures step > 0 ==> Counter(PrevStep(step), count).0 == Counter(step, count).0 - 1
  {
  }

  // ------------------------------------------------------------ component

  /** The tour component's state. */
  class Tour {
    const steps: seq<TourStep>
    var currentStep: int
    var closeRequests: nat

    /** The current step always names one of the steps. */
    predicate Valid()
      reads this
    {
      |steps| > 0 && 0 <= currentStep < |steps|
    }

    constructor ()
      ensures Valid()
      ensures steps == TourSteps && currentStep == 0 && closeRequests == 0
    {
      steps := TourSteps;
      currentStep := 0;
      closeRequests := 0;
    }

    /** The step on show. */
    function Current(): (s: TourStep)
      requires Valid()
      reads this
      ensures s in steps
    {
      steps[currentStep]
    }

    /** The Next button's handler. */
    method Next()
      requires Valid()
      modifies this
      ensures Valid()
      ensures currentStep == NextStep(old(currentStep), |steps|)
      ensures closeRequests == old(closeRequests)
    {
      if currentStep < |steps| - 1 {
        currentStep := currentStep + 1;
      }
    }

    /** The Previous button's handler. */
    method Prev()
      requires Valid()
      modifies this
      ensures Valid()
      ensures currentStep == PrevStep(old(currentStep))
      ensures closeRequests == old(closeRequests)
    {
      if currentStep > 0 {
        currentStep := currentStep - 1;
      }
    }

    /** The X button, and the finish button on the last step: both call `onClose`. */
    method Close()
      modifies this
      ensures currentStep == old(currentStep)
      ensures closeRequests == old(closeRequests) + 1
    {
      closeRequests := closeRequests + 1;
    }
  }
}
