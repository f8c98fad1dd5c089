/**
 The epoch loop of `fit`, abstracted over the validation losses: epochs run
 from the start epoch to the maximum epoch inclusive, each epoch's loss goes
 through the early-stopping step, and the loop breaks on the first stop.
 */
module EpochLoop {
  import opened Wrappers
  import opened EarlyStopping

  /** Number of epochs in `range(startEpoch, maxEpochs + 1)`. */
  function EpochCount(startEpoch: int, maxEpochs: int): (n: nat)
    ensures n == 0 <==> maxEpochs < startEpoch
    ensures n > 0 ==> startEpoch + n - 1 == maxEpochs
  {
    if maxEpochs < startEpoch then 0 else maxEpochs - startEpoch + 1
  }

  /** The outcome of the loop: the final state, how many epochs ran, whether
      early stopping ended the loop, and the last epoch the loop variable
      took (`None` when the range was empty). */
  datatype Outcome = Outcome(state: State, epochsRun: nat, stopped: bool, lastEpoch: Option<int>)

  /** Run the epochs `startEpoch..maxEpochs` from state `s`; `losses[i]` is
      the validation loss that epoch `startEpoch + i` produces. */
  method Run(s: State, startEpoch: int, maxEpochs: int, losses: seq<real>, patience: int, saveBest: bool)
    returns (o: Outcome)
    requires |losses| >= EpochCount(startEpoch, maxEpochs)
    // At most one loss per epoch of the range is consumed.
    ensures o.epochsRun <= EpochCount(startEpoch, maxEpochs)
    // The final state is the step rule folded over the epochs that ran.
    ensures o.state == Scan(s, losses[..o.epochsRun], startEpoch, patience, saveBest)
    // The loop breaks on the first epoch whose step asks to stop...
    ensures o.stopped ==> o.epochsRun >= 1 && StopsAt(s, losses, o.epochsRun - 1, startEpoch, patience, saveBest)
    ensures o.stopped ==> 1 <= o.state.noImproveCount == patience
    ensures forall k :: 0 <= k < o.epochsRun && (!o.stopped || k < o.epochsRun - 1) ==>
      !StopsAt(s, losses, k, startEpoch, patience, saveBest)
    // ...and otherwise runs the whole range.
    ensures !o.stopped ==> o.epochsRun == EpochCount(startEpoch, maxEpochs)
    ensures patience <= 0 ==> !o.stopped
    // The loop variable ends on the last epoch run, never beyond the maximum.
    ensures o.lastEpoch.None? <==> o.epochsRun == 0
    ensures o.lastEpoch.Some? ==>
      o.lastEpoch.value == startEpoch + o.epochsRun - 1 && startEpoch <= o.lastEpoch.value <= maxEpochs
  {
    var t := s;
    var n: nat := 0;
    var lastEpoch: Option<int> := None;
    var epoch := startEpoch;
    while epoch < maxEpochs + 1
      invariant epoch == startEpoch + n
      invariant n <= EpochCount(startEpoch, maxEpochs)
      invariant t == Scan(s, losses[..n], startEpoch, patience, saveBest)
      invariant forall k :: 0 <= k < n ==> !StopsAt(s, losses, k, startEpoch, patience, saveBest)
      invariant lastEpoch.None? <==> n == 0
      invariant lastEpoch.Some? ==> lastEpoch.value == epoch - 1
      decreases maxEpochs + 1 - epoch
    {
      var d := Step(t, losses[n], epoch, patience, saveBest);
      ScanExtend(s, losses, n, startEpoch, patience, saveBest);
      t := d.next;
      n := n + 1;
      lastEpoch := Some(epoch);
      if d.stop {
        return Outcome(t, n, true, lastEpoch);
      }
      epoch := epoch + 1;
    }
    o := Outcome(t, n, false, lastEpoch);
  }
}
