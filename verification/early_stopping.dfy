/**
 The trainer's early-stopping and best-checkpoint state machine. Each epoch
 feeds one validation loss into `Step`; a strictly smaller loss becomes the
 new best, resets the no-improvement counter and assigns the trainer's
 checkpoint (when best-model saving is on); any other loss bumps the counter, and the step
 asks to stop exactly when the bumped counter equals the patience.
 */
module EarlyStopping {
  import opened Wrappers
  import opened LossHistory

  /** `best` is the best validation loss so far, `None` standing for the
      initial infinity; `checkpoint` is the epoch at which the trainer's
      checkpoint was last assigned, `None` while it never has been. */
  datatype State = State(best: Option<real>, noImproveCount: nat, checkpoint: Option<int>)

  /** The state a freshly built trainer starts from. */
  const Init: State := State(None, 0, None)

  /** `current < best`, with an absent best read as infinity. */
  predicate Improves(best: Option<real>, current: real)
  {
    best.None? || current < best.value
  }

  /** `a <= b` on losses extended with infinity (`None`). */
  predicate AtMost(a: Option<real>, b: Option<real>)
  {
    b.None? || (a.Some? && a.value <= b.value)
  }

  /** Assign the checkpoint at `epoch`, unless best-model saving is off, in
      which case the previous assignment (if any) is kept. */
  function SaveCheckpoint(checkpoint: Option<int>, epoch: int, saveBest: bool): (r: Option<int>)
    ensures r.Some? <==> saveBest || checkpoint.Some?
    ensures saveBest ==> r == Some(epoch)
    ensures r != checkpoint ==> saveBest && r == Some(epoch)
  {
    if !saveBest then checkpoint else Some(epoch)
  }

  /** The outcome of one early-stopping step: the new state and whether
      training should stop. */
  datatype Decision = Decision(next: State, stop: bool)

  /** One early-stopping step for the validation loss `current` of `epoch`. */
  function Step(s: State, current: real, epoch: int, patience: int, saveBest: bool): (d: Decision)
    // A strict improvement records the new best, resets the counter,
    // tags the checkpoint with this epoch when saving is on, and never stops training.
    ensures Improves(s.best, current) ==>
      && d.next.best == Some(current)
      && d.next.noImproveCount == 0
      && d.next.checkpoint == (if saveBest then Some(epoch) else s.checkpoint)
      && !d.stop
    // Anything else (ties included) bumps the counter by one and leaves the
    // best loss and the checkpoint tag alone.
    ensures !Improves(s.best, current) ==>
      && d.next.best == s.best
      && d.next.noImproveCount == s.noImproveCount + 1
      && d.next.checkpoint == s.checkpoint
    // Stop exactly when a non-improving epoch brings the counter to the patience.
    ensures d.stop <==> !Improves(s.best, current) && s.noImproveCount + 1 == patience
    // The best loss never increases, and a patience below 1 never stops.
    ensures AtMost(d.next.best, s.best)
    ensures patience <= 0 ==> !d.stop
  {
    if Improves(s.best, current) then
      Decision(State(Some(current), 0, SaveCheckpoint(s.checkpoint, epoch, saveBest)), false)
    else
      var count := s.noImproveCount + 1;
      Decision(s.(noImproveCount := count), count == patience)
  }

  /** The state after applying the step rule to every loss of `losses`, the
      first of which belongs to `firstEpoch`, without stopping. */
  function Scan(s: State, losses: seq<real>, firstEpoch: int, patience: int, saveBest: bool): (t: State)
    ensures AtMost(t.best, s.best)
    ensures t.noImproveCount <= s.noImproveCount + |losses|
    ensures !saveBest ==> t.checkpoint == s.checkpoint
    ensures t.checkpoint != s.checkpoint ==>
      t.checkpoint.Some? && firstEpoch <= t.checkpoint.value < firstEpoch + |losses|
    decreases |losses|
  {
    if |losses| == 0 then s
    else
      var last := |losses| - 1;
      var before := Scan(s, losses[..last], firstEpoch, patience, saveBest);
      Step(before, losses[last], firstEpoch + last, patience, saveBest).next
  }

  /** Whether the step for epoch index `k` of `losses` asks to stop, given
      that the epochs before it ran without stopping. */
  predicate StopsAt(s: State, losses: seq<real>, k: int, firstEpoch: int, patience: int, saveBest: bool)
    requires 0 <= k < |losses|
  {
    Step(Scan(s, losses[..k], firstEpoch, patience, saveBest), losses[k], firstEpoch + k, patience, saveBest).stop
  }

  /** Scanning a prefix one loss longer is one more step. */
  lemma ScanExtend(s: State, losses: seq<real>, k: int, firstEpoch: int, patience: int, saveBest: bool)
    requires 0 <= k < |losses|
    ensures Scan(s, losses[..k + 1], firstEpoch, patience, saveBest)
         == Step(Scan(s, losses[..k], firstEpoch, patience, saveBest), losses[k], firstEpoch + k, patience, saveBest).next
  {
    assert losses[..k + 1][..k] == losses[..k];
  }

  /** From the initial state, the best loss is infinity exactly when no
      epoch ran, and otherwise it is the least loss of the history. */
  lemma {:induction false} ScanBestIsMinimum(losses: seq<real>, firstEpoch: int, patience: int, saveBest: bool)
    ensures var t := Scan(Init, losses, firstEpoch, patience, saveBest);
      && (t.best.None? <==> |losses| == 0)
      && (|losses| > 0 ==> IsMinimum(t.best.value, losses))
    decreases |losses|
  {
    if |losses| > 0 {
      var last := |losses| - 1;
      var p := losses[..last];
      var x := losses[last];
      assert losses == p + [x];
      ScanBestIsMinimum(p, firstEpoch, patience, saveBest);
      var b := Scan(Init, p, firstEpoch, patience, saveBest);
      if b.best.Some? && !(x < b.best.value) {
        assert b.best.value in losses;
      }
    }
  }

  /** A loss improves on the running best exactly when it is below the loss
      of every earlier epoch. */
  lemma {:induction false} ImprovesIffImproving(losses: seq<real>, k: int, firstEpoch: int, patience: int, saveBest: bool)
    requires 0 <= k < |losses|
    ensures Improves(Scan(Init, losses[..k], firstEpoch, patience, saveBest).best, losses[k])
        <==> Improving(losses, k)
  {
    var p := losses[..k];
    ScanBestIsMinimum(p, firstEpoch, patience, saveBest);
    if k > 0 {
      var m := Scan(Init, p, firstEpoch, patience, saveBest).best.value;
      var i :| 0 <= i < |p| && p[i] == m;
      assert losses[i] == m;
      assert forall j :: 0 <= j < k ==> losses[j] == p[j];
    }
  }

  /** From the initial state, the counter is the number of trailing
      non-improving epochs of the history. */
  lemma {:induction false} ScanCounterIsStreak(losses: seq<real>, firstEpoch: int, patience: int, saveBest: bool)
    ensures Scan(Init, losses, firstEpoch, patience, saveBest).noImproveCount == Streak(losses)
    decreases |losses|
  {
    if |losses| > 0 {
      var last := |losses| - 1;
      ScanCounterIsStreak(losses[..last], firstEpoch, patience, saveBest);
      ImprovesIffImproving(losses, last, firstEpoch, patience, saveBest);
    }
  }

  /** From the initial state, a checkpoint tag exists exactly when saving is
      on and some epoch ran, and it is the earliest epoch that reached the
      least loss: a tie with the best does not reassign it. */
  lemma {:induction false} ScanCheckpointIsFirstArgMin(losses: seq<real>, firstEpoch: int, patience: int, saveBest: bool)
    ensures var t := Scan(Init, losses, firstEpoch, patience, saveBest);
      && (t.checkpoint.Some? <==> saveBest && |losses| > 0)
      && (t.checkpoint.Some? ==> FirstArgMin(losses, t.checkpoint.value - firstEpoch))
    decreases |losses|
  {
    if |losses| > 0 {
      var last := |losses| - 1;
      var p := losses[..last];
      ScanCheckpointIsFirstArgMin(p, firstEpoch, patience, saveBest);
      ImprovesIffImproving(losses, last, firstEpoch, patience, saveBest);
      ScanBestIsMinimum(p, firstEpoch, patience, saveBest);
      var b := Scan(Init, p, firstEpoch, patience, saveBest);
      assert forall j :: 0 <= j < last ==> losses[j] == p[j];
      if !Improving(losses, last) && b.checkpoint.Some? {
        // The tag is of the least loss of `p`, which is not above the
        // new loss, since some earlier loss is not above it.
        var c := b.checkpoint.value - firstEpoch;
        var j :| 0 <= j < last && losses[j] <= losses[last];
        assert losses[c] <= losses[j];
      }
    }
  }

  /** The best loss never increases from one epoch to a later one. */
  lemma {:induction false} BestNonIncreasing(s: State, losses: seq<real>, i: int, j: int, firstEpoch: int, patience: int, saveBest: bool)
    requires 0 <= i <= j <= |losses|
    ensures AtMost(Scan(s, losses[..j], firstEpoch, patience, saveBest).best,
                   Scan(s, losses[..i], firstEpoch, patience, saveBest).best)
    decreases j - i
  {
    if i < j {
      BestNonIncreasing(s, losses, i, j - 1, firstEpoch, patience, saveBest);
      ScanExtend(s, losses, j - 1, firstEpoch, patience, saveBest);
    }
  }

  /** From the initial state, epoch index `k` stops training exactly when it
      ends a run of precisely `patience` consecutive non-improving epochs:
      the last `patience` epochs up to `k` all fail to improve and the epoch
      before them improves. With a patience below 1 no epoch stops. */
  lemma {:induction false} StopRule(losses: seq<real>, k: int, firstEpoch: int, patience: int, saveBest: bool)
    requires 0 <= k < |losses|
    ensures StopsAt(Init, losses, k, firstEpoch, patience, saveBest) <==>
      && 1 <= patience <= k
      && Improving(losses, k - patience)
      && (forall j :: k - patience < j <= k ==> !Improving(losses, j))
  {
    var p := losses[..k];
    var q := losses[..k + 1];
    assert q[..k] == p;
    ScanCounterIsStreak(p, firstEpoch, patience, saveBest);
    ImprovesIffImproving(losses, k, firstEpoch, patience, saveBest);
    ImprovingPrefix(losses, k + 1, k);
    forall j | 0 <= j <= k
      ensures Improving(q, j) <==> Improving(losses, j)
    {
      ImprovingPrefix(losses, k + 1, j);
    }
    // The trailing streak of the history up to `k`.
    assert !Improving(losses, k) ==> Streak(q) == Streak(p) + 1;
    StreakExact(q, patience);
  }
}
