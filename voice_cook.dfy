/** The voice-guided cooking screen: a fixed list of steps and the index of
    the step on display, moved by the "Next" and "Previous" buttons. */
module VoiceCook {

  /** The steps the screen starts with; nothing ever replaces them. */
  const DefaultSteps: seq<string> := ["Preheat oven to 180°C", "Mix flour and eggs", "Bake 30 minutes"]

  /** `Math.min(i + 1, n - 1)`: the index after "Next" in a list of `n` steps. */
  function NextIndex(i: int, n: int): (r: int)
    ensures r <= n - 1
    ensures i < n - 1 ==> r == i + 1
    ensures i >= n - 1 ==> r == n - 1
  {
    if i + 1 < n - 1 then i + 1 else n - 1
  }

  /** `Math.max(i - 1, 0)`: the index after "Previous". */
  function PrevIndex(i: int): (r: int)
    ensures r >= 0
    ensures i > 0 ==> r == i - 1
    ensures i <= 0 ==> r == 0
  {
    if i - 1 > 0 then i - 1 else 0
  }

  /** A button press on the screen. */
  datatype Press = Next | Previous

  /** The index after pressing `presses` in order, starting from `i`, in a
      list of `n` steps. */
  function Run(i: int, n: int, presses: seq<Press>): (r: int)
    ensures presses == [] ==> r == i
    ensures |presses| == 1 ==> r == (if presses[0] == Next then NextIndex(i, n) else PrevIndex(i))
    decreases |presses|
  {
    if presses == [] then i
    else
      var j := if presses[0] == Next then NextIndex(i, n) else PrevIndex(i);
      Run(j, n, presses[1..])
  }

  /** Any sequence of presses, from any valid index of a non-empty list,
      ends on a valid index: the step on display always exists. */
  lemma {:induction false} RunStaysInRange(i: int, n: int, presses: seq<Press>)
    requires 0 <= i < n
    ensures 0 <= Run(i, n, presses) < n
    decreases |presses|
  {
    if presses != [] {
      var j := if presses[0] == Next then NextIndex(i, n) else PrevIndex(i);
      RunStaysInRange(j, n, presses[1..]);
    }
  }

  /** `k` presses of "Next" advance by `k`, stopping at the last step. */
  lemma {:induction false} NextPressesClampAtLast(i: int, n: int, k: nat)
    requires 0 <= i < n
    ensures Run(i, n, seq(k, _ => Next)) == if i + k < n - 1 then i + k else n - 1
    decreases k
  {
    var presses := seq(k, _ => Next);
    if k > 0 {
      assert presses[1..] == seq(k - 1, _ => Next);
      NextPressesClampAtLast(NextIndex(i, n), n, k - 1);
    }
  }

  /** `k` presses of "Previous" go back by `k`, stopping at the first step. */
  lemma {:induction false} PreviousPressesClampAtFirst(i: int, n: int, k: nat)
    requires 0 <= i < n
    ensures Run(i, n, seq(k, _ => Previous)) == if i - k > 0 then i - k else 0
    decreases k
  {
    var presses := seq(k, _ => Previous);
    if k > 0 {
      assert presses[1..] == seq(k - 1, _ => Previous);
      PreviousPressesClampAtFirst(PrevIndex(i), n, k - 1);
    }
  }

  /** "Previous" undoes "Next" except on the last step, and "Next" undoes
      "Previous" except on the first. */
  lemma NextAndPreviousUndoEachOther(i: int, n: int)
    requires 0 <= i < n
    ensures i < n - 1 ==> PrevIndex(NextIndex(i, n)) == i
    ensures i > 0 ==> NextIndex(PrevIndex(i), n) == i
  {
  }

  /** With the three default steps: "Previous" on the first step stays on
      it, and three presses of "Next" end on the third step, not past it. */
  lemma DefaultStepsScenario()
    ensures Run(0, |DefaultSteps|, [Previous]) == 0
    ensures Run(0, |DefaultSteps|, [Next, Next, Next]) == 2
  {
  }

  /** The screen's state: the steps and the index of the step on display. */
  class CookSession {
    var steps: seq<string>
    var index: int

    /** The index always names one of the steps. */
    ghost predicate Valid()
      reads this
    {
      |steps| >= 1 && 0 <= index < |steps|
    }

    /** The screen as it mounts: the default steps, on the first one. */
    constructor ()
      ensures Valid()
      ensures steps == DefaultSteps && index == 0
    {
      steps := DefaultSteps;
      index := 0;
    }

    /** A session over other steps. An empty list is refused: there
        `Math.min(0 + 1, -1)` would move the index to -1. */
    constructor WithSteps(initial: seq<string>)
      requires |initial| >= 1
      ensures Valid()
      ensures steps == initial && index == 0
    {
      steps := initial;
      index := 0;
    }

    /** "Next": one step forward, no change on the last step. */
    method NextStep()
      requires Valid()
      modifies this`index
      ensures Valid()
      ensures steps == old(steps)
      ensures index == NextIndex(old(index), |steps|)
      ensures old(index) < |steps| - 1 ==> index == old(index) + 1
      ensures old(index) == |steps| - 1 ==> index == old(index)
    {
      index := NextIndex(index, |steps|);
    }

    /** "Previous": one step back, no change on the first step. */
    method PrevStep()
      requires Valid()
      modifies this`index
      ensures Valid()
      ensures steps == old(steps)
      ensures index == PrevIndex(old(index))
      ensures old(index) > 0 ==> index == old(index) - 1
      ensures old(index) == 0 ==> index == 0
    {
      index := PrevIndex(index);
    }

    /** The line on display: the 1-based number `index + 1` and the step text. */
    function Current(): (r: (int, string))
      reads this
      requires Valid()
      ensures r.0 == index + 1
      ensures 1 <= r.0 <= |steps|
      ensures r.1 == steps[r.0 - 1]
    {
      (index + 1, steps[index])
    }
  }
}
