/**
 The trainer's hyperparameters: read from a configuration dictionary with
 per-key defaults when the trainer is built, and handed back under the same
 six names by the `config()` accessor.
 */
module Config {
  import opened PyValue

  const MaxEpochsKey: string := "max-epochs"
  const PatienceKey: string := "patience"
  const LrKey: string := "lr"
  const MaxLrKey: string := "max-lr"
  const UseSchedulerKey: string := "use-scheduler"
  const SaveBestModelKey: string := "save-best-model"

  /** The six keys the trainer reads and reports. */
  const Keys: set<string> :=
    {MaxEpochsKey, PatienceKey, LrKey, MaxLrKey, UseSchedulerKey, SaveBestModelKey}

  /** Module-level defaults: 100 epochs, patience 10, lr 1e-4, max lr 1e-2,
      no best-model saving, no scheduler. */
  const DefaultMaxEpochs: Value := Int(100)
  const DefaultPatience: Value := Int(10)
  const DefaultLr: Value := Real(0.0001)
  const DefaultMaxLr: Value := Real(0.01)
  const DefaultSaveBestModel: Value := Bool(false)
  const DefaultUseScheduler: Value := Bool(false)

  /** The default for each of the six keys. */
  function Default(key: string): Value
    requires key in Keys
  {
    if key == MaxEpochsKey then DefaultMaxEpochs
    else if key == PatienceKey then DefaultPatience
    else if key == LrKey then DefaultLr
    else if key == MaxLrKey then DefaultMaxLr
    else if key == UseSchedulerKey then DefaultUseScheduler
    else DefaultSaveBestModel
  }

  /** Python's `dict.get(key, default)`. */
  function Get(cfg: map<string, Value>, key: string, default: Value): (v: Value)
    ensures key in cfg ==> v == cfg[key]
    ensures key !in cfg ==> v == default
  {
    if key in cfg then cfg[key] else default
  }

  /** The hyperparameters a trainer keeps as attributes. */
  datatype Settings = Settings(
    maxEpochs: Value,
    patience: Value,
    lr: Value,
    maxLr: Value,
    saveBestModel: Value,
    useScheduler: Value)

  /** The constructor's reading of the configuration dictionary. */
  function FromConfig(cfg: map<string, Value>): Settings
  {
    Settings(
      Get(cfg, MaxEpochsKey, DefaultMaxEpochs),
      Get(cfg, PatienceKey, DefaultPatience),
      Get(cfg, LrKey, DefaultLr),
      Get(cfg, MaxLrKey, DefaultMaxLr),
      Get(cfg, SaveBestModelKey, DefaultSaveBestModel),
      Get(cfg, UseSchedulerKey, DefaultUseScheduler))
  }

  /** The `config()` accessor: exactly the six keys, each with its setting. */
  function ToConfig(s: Settings): (m: map<string, Value>)
    ensures m.Keys == Keys
  {
    map[MaxEpochsKey := s.maxEpochs,
        PatienceKey := s.patience,
        LrKey := s.lr,
        MaxLrKey := s.maxLr,
        UseSchedulerKey := s.useScheduler,
        SaveBestModelKey := s.saveBestModel]
  }

  /** What `config()` reports for a trainer built from `cfg`: the six keys,
      each with the value `cfg` gives it, or its default when `cfg` lacks it;
      keys of `cfg` outside the six are dropped. */
  lemma ReportedConfig(cfg: map<string, Value>)
    ensures ToConfig(FromConfig(cfg)).Keys == Keys
    ensures forall k :: k in Keys ==>
      ToConfig(FromConfig(cfg))[k] == (if k in cfg then cfg[k] else Default(k))
  {
  }

  /** Building a trainer from the reported configuration reproduces the
      settings: `config()` loses nothing the trainer uses. */
  lemma ConfigRoundTrip(s: Settings)
    ensures FromConfig(ToConfig(s)) == s
  {
  }

  /** A dictionary already holding all six keys is read back verbatim. */
  lemma CompleteConfigIsKept(cfg: map<string, Value>)
    requires cfg.Keys == Keys
    ensures ToConfig(FromConfig(cfg)) == cfg
  {
  }
}
