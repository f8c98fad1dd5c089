# Early stopping and best-checkpoint selection of the image-to-LaTeX trainer

This project models the control logic of `BaseTrainer`, the generic training
loop of the image-to-LaTeX transcription package, and proves properties of
that model in Dafny.

- **Configuration** (`Config`, `PyValue`). The trainer reads six
  hyperparameters from a configuration dictionary. Each key has a
  module-level default: `max-epochs` 100, `patience` 10, `lr` 1e-4, `max-lr`
  1e-2, `save-best-model` false, `use-scheduler` false. The `config()`
  accessor hands the six values back under the same names. Values are
  modelled as Python values (int, float, bool, `None`). The trainer applies
  a few Python operations to them, and each is modelled explicitly:
  - truthiness (`not self.save_best_model`);
  - equality of an int counter with `patience`;
  - `max_lr < 0`, which raises TypeError on `None`;
  - `range(start, max_epochs + 1)`, which raises TypeError on a float or
    `None`.
- **Early stopping** (`EarlyStopping`). The state is the best validation
  loss (`None` stands for the initial infinity), the no-improvement counter,
  and the epoch at which `self.checkpoint` was last assigned. That epoch
  number stands in for the assigned state dict. One step takes one epoch's validation loss:
  - A strictly smaller loss becomes the new best. It resets the counter and
    tags the checkpoint with the epoch when best-model saving is on.
  - Any other loss, ties included, bumps the counter.
  - The step asks to stop exactly when the bumped counter equals the
    patience.
- **Reference definitions** (`LossHistory`). These are stated directly on
  the loss history: strict improvement over every earlier epoch, the least
  loss, the earliest epoch reaching it, and the number of trailing
  non-improving epochs. The main lemmas show that the step rule, folded
  over a history from the initial state, computes exactly these.
- **Epoch loop** (`EpochLoop`, `Trainer`). Epochs run from the start epoch
  (always 1) up to `max-epochs`. Each epoch's validation loss is an input:
  `losses[i]` belongs to epoch `start + i`. The loop breaks on the first
  step that asks to stop.

## Model

| member | source | states |
|---|---|---|
| PyValue.ThresholdMatchesEquality | image_to_latex/trainers/base_trainer.py:239-240 | For every counter value of at least 1, Python's `count == patience` is the same as comparing the counter with one integer threshold, whether patience is an int, a float, a bool or `None`. A float with a fractional part, or `None`, can never be reached. |
| PyValue.RangeBound | image_to_latex/trainers/base_trainer.py:129 | `max_epochs + 1` can bound a `range` exactly when max-epochs is an int or a bool. The bound it gives equals max-epochs in Python's sense. A float or `None` raises TypeError. |
| PyValue.LessThanZero | image_to_latex/trainers/base_trainer.py:109 | `max_lr < 0` fails exactly for `None`. Otherwise it is true exactly for a negative int or a negative float; a bool never compares below 0. |
| Config.Get | image_to_latex/trainers/base_trainer.py:66-71 | A key present in the dictionary yields its value. A missing key yields the given default. |
| Config.ToConfig | image_to_latex/trainers/base_trainer.py:86-95 | `config()` returns a dictionary whose keys are exactly the six hyperparameter names. |
| Config.ReportedConfig | image_to_latex/trainers/base_trainer.py:17-95 | For a trainer built from any dictionary, `config()` has exactly the six keys. Each key maps to the dictionary's value when present, otherwise to its module default. Other keys are dropped. |
| Config.ConfigRoundTrip | image_to_latex/trainers/base_trainer.py:66-95 | Building a trainer from what `config()` reports reproduces the same settings, so `config()` loses nothing the trainer uses. |
| Config.CompleteConfigIsKept | image_to_latex/trainers/base_trainer.py:66-95 | A dictionary holding exactly the six keys is reported back unchanged. |
| EarlyStopping.SaveCheckpoint | image_to_latex/trainers/base_trainer.py:244-248 | With saving on, the checkpoint tag is always replaced by the current epoch. With saving off, the previous tag (or its absence) is kept. |
| EarlyStopping.Step | image_to_latex/trainers/base_trainer.py:232-242 | A strictly smaller loss (any loss when the best is infinity) becomes the best, resets the counter, tags the checkpoint with this epoch when saving is on, and never stops training. Any other loss, ties included, leaves the best and the checkpoint tag alone and adds exactly 1 to the counter. The step stops iff the loss did not improve and the bumped counter equals the patience. The best never increases. A patience below 1 never stops. |
| EarlyStopping.Scan | image_to_latex/trainers/base_trainer.py:129-169 | Over any run of epochs, the best never increases and the counter grows by at most the number of epochs. With saving off the checkpoint tag is untouched. A new tag always names one of the epochs that ran. |
| EarlyStopping.ImprovesIffImproving | image_to_latex/trainers/base_trainer.py:234 | Comparing a loss with the running best (starting from infinity) is the same as asking whether it is strictly below every earlier epoch's loss. |
| EarlyStopping.ScanBestIsMinimum | image_to_latex/trainers/base_trainer.py:234-235 | Starting from the constructor's infinite best, after any epochs the best loss is infinity iff no epoch ran. Otherwise it is the least validation loss of the epochs run. |
| EarlyStopping.ScanCounterIsStreak | image_to_latex/trainers/base_trainer.py:236-239 | Starting from the constructor's zero counter, the counter after any epochs equals the number of consecutive non-improving epochs that end the history. |
| EarlyStopping.ScanCheckpointIsFirstArgMin | image_to_latex/trainers/base_trainer.py:234-248 | Starting from the constructor's state, a checkpoint tag exists iff best-model saving is on and some epoch ran. It is then the earliest epoch that reached the least loss, because a tie does not reassign the checkpoint. |
| EarlyStopping.BestNonIncreasing | image_to_latex/trainers/base_trainer.py:234-235 | For any two points in a run, the best loss at the later point is at most the best loss at the earlier one. |
| EarlyStopping.StopRule | image_to_latex/trainers/base_trainer.py:236-241 | From the constructor's state, epoch k stops training iff 1 <= patience <= k, the last `patience` epochs up to k all fail to improve, and the epoch just before them improves. In other words, training stops after exactly `patience` consecutive non-improving epochs, and a patience below 1 (such as -1) disables stopping. |
| EpochLoop.EpochCount | image_to_latex/trainers/base_trainer.py:129 | The range of epochs is empty iff max-epochs is below the start epoch. Otherwise its last epoch is max-epochs. |
| EpochLoop.Run | image_to_latex/trainers/base_trainer.py:129-172 | The loop consumes at most `max_epochs - start_epoch + 1` losses. Its final state is the step rule folded over the epochs that ran. It ends either at the first epoch whose step asks to stop, with the counter then equal to a patience of at least 1, or after the whole range with no stop anywhere. A patience below 1 never stops it. The last epoch of the loop variable is absent iff no epoch ran, and it never exceeds max-epochs. |
| Trainer.New | image_to_latex/trainers/base_trainer.py:57-76 | A new trainer starts at epoch 1 with an infinite best loss, a zero counter and no checkpoint tag. |
| Trainer.ReportConfig | image_to_latex/trainers/base_trainer.py:86-95 | The accessor reports exactly the six hyperparameter keys. |
| Trainer.NewReportsConfig | image_to_latex/trainers/base_trainer.py:57-95 | For any dictionary and any of the six keys, a freshly built trainer reports the dictionary's value, or the default when the key is absent. |
| Trainer.Fit | image_to_latex/trainers/base_trainer.py:97-172 | `fit` fails iff (a) the scheduler is on and max-lr is `None`, or (b) max-epochs cannot bound a range; check (a) comes first. Failure (b) carries the settings the trainer is left with: max-lr is already replaced when the range test ran. When it succeeds: max-lr is replaced by the range test's suggestion exactly when the scheduler is on and max-lr is negative, and no other setting changes. The new state is the step rule folded over the epochs that ran, using Python's truthiness for save-best-model and Python's equality for patience. Unless it stops, the loop covers every epoch of `range(1, max_epochs + 1)`. When it stops, it stops at the first epoch whose step asks to stop, and no earlier epoch asked to. An early stop leaves the counter equal to the patience as Python compares them. With saving off the checkpoint tag is untouched. The summary epoch is the last epoch run, so the `min` with max-epochs never changes it. |

## Left out

- Tensor work is not modelled: forward and backward passes, `optimizer.step`, and the `OneCycleLR` scheduler and its parameters. These are calls into PyTorch.
- The learning-rate range test is not modelled. `Trainer.Fit` takes its suggestion as the parameter `suggestedMaxLr`.
- The per-phase average losses (`total_loss / len(...)`) are not modelled, because they are floating-point accumulation over batches. Each epoch's validation loss is an input, in the `real` numbers.
- NaN and infinite validation losses are not modelled, because losses are `real`. A NaN loss would compare as non-improving.
- `test()` is not modelled. BLEU and edit distance are external metric functions, and the tokenizer and `load_state_dict` belong to other files.
- Weights are not modelled. The checkpoint is recorded as the number of the epoch at which `self.checkpoint` was last assigned (base_trainer.py line 248).
- The assigned dictionary does not freeze that epoch's weights. PyTorch's `state_dict()` returns tensors that share storage with the live parameters, and `optimizer.step()` keeps updating those in place in later epochs. So the weights the checkpoint holds, and that `test()` loads, are the latest ones. The model states only when the assignment happened, not which weights it holds.
- These are not modelled, because they are I/O or plumbing: device selection, `_move_to_device`, progress bars, printing, timing, and the experiment-tracker summary write. The epoch that write would record is kept as `summaryEpoch`.
- Trainer.Fit: when no epoch runs and an experiment-tracker run is attached, Python raises UnboundLocalError at the summary write, because the loop variable was never bound. The model does not report this as a failure; it reports `summaryEpoch` as `None`, because the tracker is not modelled.
- `training_step` and `validation_step` are not modelled. They only call the model and the loss criterion.
- Trainer.Fit: on the max-epochs failure it returns the settings as left after the range test, so a replaced max-lr is kept. It does not model errors PyTorch may raise while building the scheduler, such as a float max-epochs or a `None` max-lr suggestion. The only failures stated are the two the trainer's own Python code raises.
- Config values are limited to Python ints, floats, bools and `None`. Other Python types are not modelled.
- The trainer's documentation says `-1` disables early stopping. The code compares the counter for equality with the patience, so every patience below 1 disables it, and so does a float with a fractional part. The model follows the code.
