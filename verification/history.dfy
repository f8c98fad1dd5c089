/**
 Reference notions about a history of validation losses, one per epoch in
 order, stated directly on the sequence and independent of the trainer's
 incremental state. Index 0 is the first epoch of the history.
 */
module LossHistory {

  /** Epoch `i` improves on every earlier epoch, strictly. The first epoch
      always improves, since the best loss starts at infinity. */
  predicate Improving(losses: seq<real>, i: int)
    requires 0 <= i < |losses|
  {
    forall j :: 0 <= j < i ==> losses[i] < losses[j]
  }

  /** `m` is the least loss of a non-empty history. */
  predicate IsMinimum(m: real, losses: seq<real>)
  {
    m in losses && forall j :: 0 <= j < |losses| ==> m <= losses[j]
  }

  /** Epoch `i` is the earliest epoch whose loss is the least loss. */
  predicate FirstArgMin(losses: seq<real>, i: int)
  {
    && 0 <= i < |losses|
    && (forall j :: 0 <= j < |losses| ==> losses[i] <= losses[j])
    && (forall j :: 0 <= j < i ==> losses[i] < losses[j])
  }

  /** Number of consecutive non-improving epochs that end the history. */
  function Streak(losses: seq<real>): nat
    decreases |losses|
  {
    if |losses| == 0 then 0
    else if Improving(losses, |losses| - 1) then 0
    else Streak(losses[..|losses| - 1]) + 1
  }

  /** Whether an epoch improves depends only on the epochs up to it. */
  lemma ImprovingPrefix(losses: seq<real>, n: int, i: int)
    requires 0 <= i < n <= |losses|
    ensures Improving(losses[..n], i) <==> Improving(losses, i)
  {
  }

  /** The streak of a non-empty history is `n` exactly when the last `n`
      epochs all fail to improve and the epoch just before them improves. */
  lemma {:induction false} StreakExact(losses: seq<real>, n: int)
    requires |losses| > 0
    ensures Streak(losses) == n <==>
      && 0 <= n < |losses|
      && Improving(losses, |losses| - 1 - n)
      && (forall j :: |losses| - n <= j < |losses| ==> !Improving(losses, j))
  {
    StreakBounded(losses);
  }

  /** The streak's defining shape: the last `Streak` epochs do not improve
      and the epoch before them does. */
  lemma {:induction false} StreakBounded(losses: seq<real>)
    requires |losses| > 0
    ensures Streak(losses) < |losses|
    ensures Improving(losses, |losses| - 1 - Streak(losses))
    ensures forall j :: |losses| - Streak(losses) <= j < |losses| ==> !Improving(losses, j)
  {
    var last := |losses| - 1;
    if !Improving(losses, last) {
      var p := losses[..last];
      assert Improving(losses, 0);
      assert |p| > 0;
      StreakBounded(p);
      forall j | 0 <= j < |p|
        ensures Improving(p, j) <==> Improving(losses, j)
      {
        ImprovingPrefix(losses, last, j);
      }
    }
  }
}
