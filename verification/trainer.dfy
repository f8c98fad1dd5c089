/**
 The trainer as a whole: built from a configuration dictionary, it keeps the
 hyperparameters as Python values, starts at epoch 1 with an infinite best
 loss and a zero counter, and its `fit` runs the epoch loop with the
 hyperparameters read the way Python reads them.
 */
module Trainer {
  import opened Wrappers
  import opened PyValue
  import opened Config
  import opened EarlyStopping
  import opened EpochLoop

  /** The first epoch number of every trainer. */
  const StartEpoch: int := 1

  /** A trainer's hyperparameters and its early-stopping state. */
  datatype Trainer = Trainer(settings: Settings, startEpoch: int, state: State)

  /** Build a trainer from a configuration dictionary. */
  function New(cfg: map<string, Value>): (tr: Trainer)
    ensures tr.startEpoch == StartEpoch
    ensures tr.state.best.None? && tr.state.noImproveCount == 0 && tr.state.checkpoint.None?
  {
    Trainer(FromConfig(cfg), StartEpoch, Init)
  }

  /** The trainer's `config()` accessor. */
  function ReportConfig(tr: Trainer): (m: map<string, Value>)
    ensures m.Keys == Keys
  {
    ToConfig(tr.settings)
  }

  /** A freshly built trainer reports, for each of the six keys, the value
      the dictionary gave it, or the default. */
  lemma NewReportsConfig(cfg: map<string, Value>, k: string)
    requires k in Keys
    ensures ReportConfig(New(cfg))[k] == (if k in cfg then cfg[k] else Default(k))
  {
  }

  /** Why `fit` can fail before any epoch runs: with the scheduler on, a
      `None` max-lr cannot be compared with 0; a maximum epoch that is not
      an int or bool cannot bound a range. The second failure happens after
      the range test may already have replaced max-lr, so it carries the
      settings the trainer is left with. */
  datatype FitError = MaxLrNotComparable | MaxEpochsNotAnInteger(settings: Settings)

  /** Whether `fit` runs the learning-rate range test and replaces max-lr by
      its suggestion: with the scheduler on and a negative max-lr. */
  predicate RunsRangeTest(s: Settings)
  {
    Truthy(s.useScheduler) && LessThanZero(s.maxLr) == Some(true)
  }

  /** What `fit` leaves behind: the trainer with its updated state, the epochs
      run, whether early stopping ended training, and the epoch written to
      the run summary (`None` when no epoch ran; there Python raises
      UnboundLocalError if an experiment-tracker run is attached). */
  datatype FitReport = FitReport(trainer: Trainer, epochsRun: nat, stopped: bool, summaryEpoch: Option<int>)

  /** `fit` with `losses[i]` the validation loss of epoch `startEpoch + i`
      and `suggestedMaxLr` what the learning-rate range test would return. */
  method Fit(tr: Trainer, losses: seq<real>, suggestedMaxLr: Value) returns (r: Result<FitReport, FitError>)
    requires RangeBound(tr.settings.maxEpochs).Some? ==>
      |losses| >= EpochCount(tr.startEpoch, RangeBound(tr.settings.maxEpochs).value)
    // The scheduler set-up fails first, then the epoch range.
    ensures r.Failure? <==>
      (Truthy(tr.settings.useScheduler) && tr.settings.maxLr.PyNone?) || RangeBound(tr.settings.maxEpochs).None?
    ensures r.Failure? ==>
      (r.error == MaxLrNotComparable <==> Truthy(tr.settings.useScheduler) && tr.settings.maxLr.PyNone?)
    // A failing range keeps the max-lr the range test set before it.
    ensures r.Failure? && r.error.MaxEpochsNotAnInteger? ==>
      r.error.settings
      == tr.settings.(maxLr := if RunsRangeTest(tr.settings) then suggestedMaxLr else tr.settings.maxLr)
    // Fitting changes the early-stopping state, and max-lr only when the
    // range test runs.
    ensures r.Success? ==>
      && r.value.trainer.settings
         == tr.settings.(maxLr := if RunsRangeTest(tr.settings) then suggestedMaxLr else tr.settings.maxLr)
      && r.value.trainer.startEpoch == tr.startEpoch
    ensures r.Success? ==> r.value.epochsRun <= |losses|
    // The loop covers the whole range unless it stops, and it stops at the
    // first epoch whose step asks to.
    ensures r.Success? && !r.value.stopped ==>
      r.value.epochsRun == EpochCount(tr.startEpoch, RangeBound(tr.settings.maxEpochs).value)
    ensures r.Success? && r.value.stopped ==>
      r.value.epochsRun >= 1 &&
      StopsAt(tr.state, losses, r.value.epochsRun - 1, tr.startEpoch,
              EqualityThreshold(tr.settings.patience), Truthy(tr.settings.saveBestModel))
    ensures r.Success? ==>
      forall k :: 0 <= k < r.value.epochsRun && (!r.value.stopped || k < r.value.epochsRun - 1) ==>
        !StopsAt(tr.state, losses, k, tr.startEpoch,
                 EqualityThreshold(tr.settings.patience), Truthy(tr.settings.saveBestModel))
    ensures r.Success? ==>
      r.value.trainer.state == Scan(tr.state, losses[..r.value.epochsRun], tr.startEpoch,
                                    EqualityThreshold(tr.settings.patience), Truthy(tr.settings.saveBestModel))
    // Training stops early only when the counter equals the patience, as
    // Python compares them, and never reassigns the checkpoint when saving is off.
    ensures r.Success? && r.value.stopped ==>
      EqualsInt(r.value.trainer.state.noImproveCount, tr.settings.patience)
    ensures r.Success? && !Truthy(tr.settings.saveBestModel) ==>
      r.value.trainer.state.checkpoint == tr.state.checkpoint
    // The summary epoch is the last epoch run: clamping it to the maximum
    // never changes it.
    ensures r.Success? ==> (r.value.summaryEpoch.None? <==> r.value.epochsRun == 0)
    ensures r.Success? && r.value.summaryEpoch.Some? ==>
      r.value.summaryEpoch.value == tr.startEpoch + r.value.epochsRun - 1 <= RangeBound(tr.settings.maxEpochs).value
  {
    var settings := tr.settings;
    if Truthy(settings.useScheduler) {
      var negative := LessThanZero(settings.maxLr);
      if negative.None? {
        return Failure(MaxLrNotComparable);
      }
      if negative.value {
        settings := settings.(maxLr := suggestedMaxLr);
      }
    }
    var bound := RangeBound(settings.maxEpochs);
    if bound.None? {
      return Failure(MaxEpochsNotAnInteger(settings));
    }
    var maxEpochs := bound.value;
    var patience := EqualityThreshold(tr.settings.patience);
    var saveBest := Truthy(tr.settings.saveBestModel);
    var o := Run(tr.state, tr.startEpoch, maxEpochs, losses, patience, saveBest);
    if o.stopped {
      ThresholdMatchesEquality(o.state.noImproveCount, tr.settings.patience);
    }
    var summary := if o.lastEpoch.Some? && maxEpochs < o.lastEpoch.value then Some(maxEpochs) else o.lastEpoch;
    r := Success(FitReport(Trainer(settings, tr.startEpoch, o.state), o.epochsRun, o.stopped, summary));
  }
}
