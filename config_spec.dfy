/** The values a TrainConfig is built from and built into, and the pure
    specification of what construction does with them
    (tensorpack/train/config.py). Framework objects the configuration only
    stores are opaque tokens; their `isinstance` checks hold by construction. */
module ConfigSpec {
  import opened Wrappers

  // ---------------------------------------------------------------------------
  // Opaque framework objects
  // ---------------------------------------------------------------------------

  /** A `ModelDesc`. */
  datatype ModelDesc = ModelDesc(id: nat)

  /** A `tf.train.Optimizer`. */
  datatype Optimizer = Optimizer(id: nat)

  /** A `tf.ConfigProto`. */
  datatype SessionConfig = SessionConfig(id: nat)

  /** A `SessionInit`: the default `JustCurrentSession()` or any other strategy. */
  datatype SessionInit = JustCurrentSession | CustomInit(id: nat)

  /** A `DataFlow`; `size` is `None` when its `size()` raises `NotImplementedError`. */
  datatype DataFlow = DataFlow(id: nat, size: Option<int>)

  /** An `InputData`; `size` as for `DataFlow`. */
  datatype InputData = InputData(id: nat, size: Option<int>)

  /** The data source a successful construction selects. */
  datatype Source = FromDataFlow(flow: DataFlow) | FromInputData(feed: InputData) {

    /** What the source's `size()` returns, `None` when it is not implemented. */
    function Size(): Option<int> {
      match this
      case FromDataFlow(f) => f.size
      case FromInputData(d) => d.size
    }

    /** The `dataflow` field it leaves. */
    function FlowField(): Option<DataFlow> {
      if FromDataFlow? then Some(flow) else None
    }

    /** The `data` field it leaves. */
    function DataField(): Option<InputData> {
      if FromInputData? then Some(feed) else None
    }
  }

  /** A training callback; `User` is any callback the caller supplies. */
  datatype Callback = StepCounter | MovingAverage | ProgressBar | StatPrinter | User(id: nat)

  /** The `callbacks` argument: `None` (the default), a list, or a legacy
      `Callbacks` object wrapping the list `cbs`. */
  datatype CallbacksArg = NoCallbacks | CallbackList(list: seq<Callback>) | LegacyCallbacks(cbs: seq<Callback>)

  /** The `predict_tower` argument: a single device id or a list of them. */
  datatype PredictTowerArg = PredictScalar(device: int) | PredictList(devices: seq<int>)

  /** The `tower` argument of `set_tower`: `None`, a count, or a list of ids. */
  datatype TowerArg = NoTower | TowerCount(count: int) | TowerList(ids: seq<int>)

  /** A value passed through `**kwargs`: `None`, an integer, a dataflow, or
      any other object. */
  datatype Value = NoneValue | IntValue(n: int) | FlowValue(flow: DataFlow) | OtherValue(id: nat)

  /** The `**kwargs` dictionary. */
  type Kwargs = map<string, Value>

  /** The named arguments of `TrainConfig.__init__`. `sessionConfig` is
      `None` only when the caller passes `session_config=None` explicitly. */
  datatype Args = Args(
    dataflow: Option<DataFlow>,
    data: Option<InputData>,
    model: Option<ModelDesc>,
    optimizer: Option<Optimizer>,
    callbacks: CallbacksArg,
    extraCallbacks: Option<seq<Callback>>,
    sessionConfig: Option<SessionConfig>,
    sessionInit: Option<SessionInit>,
    startingEpoch: int,
    stepsPerEpoch: Option<int>,
    maxEpoch: int,
    nrTower: int,
    tower: Option<seq<int>>,
    predictTower: PredictTowerArg)

  /** The fields of a successfully constructed TrainConfig. */
  datatype Settings = Settings(
    dataflow: Option<DataFlow>,
    data: Option<InputData>,
    model: ModelDesc,
    optimizer: Optimizer,
    callbacks: seq<Callback>,
    sessionConfig: SessionConfig,
    sessionInit: SessionInit,
    stepsPerEpoch: int,
    startingEpoch: int,
    maxEpoch: int,
    tower: seq<int>,
    predictTower: seq<int>)

  /** The failed assertion (or raised exception) that aborts construction. */
  datatype Error =
    | BothDataSources            // dataflow and data both given
    | NotADataFlow               // the dataflow (from `dataset=`) is not a DataFlow
    | NoInputData                // no dataflow, and data is not an InputData (e.g. None)
    | NoOptimizer                // optimizer is not an Optimizer (e.g. None)
    | CallbacksNotAList          // callbacks is not a list (e.g. None)
    | NoModel                    // model is not a ModelDesc (e.g. None)
    | NoSessionConfig            // session_config is not a ConfigProto (e.g. None)
    | StepsNotAnInteger          // int() of the legacy step_per_epoch value fails
    | StepsUndefined             // steps_per_epoch stayed None: `None >= 0` raises
    | BoundsViolated             // steps_per_epoch < 0 or max_epoch <= 0
    | BothTowerForms             // tower given while nr_tower != 1
    | UnknownArguments(names: set<string>)  // keywords left in kwargs
    | BothSetTowerForms          // set_tower got both nr_tower and tower
    | TowerNotAList              // set_tower stored a tower that is not a list

  /** The keyword defaults of `__init__`; `defaultSessionConfig` is what the
      framework's `get_default_sess_config()` returned. */
  function DefaultArgs(defaultSessionConfig: SessionConfig): Args {
    Args(None, None, None, None, NoCallbacks, None, Some(defaultSessionConfig), None,
         1, None, 99999, 1, None, PredictList([0]))
  }

  // ---------------------------------------------------------------------------
  // Building blocks
  // ---------------------------------------------------------------------------

  /** Python's `list(range(n))`: the ids 0 .. n-1, empty when n <= 0. */
  function Range(n: int): (r: seq<int>)
    ensures |r| == if n <= 0 then 0 else n
    ensures forall i :: 0 <= i < |r| ==> r[i] == i
    decreases if n <= 0 then 0 else n
  {
    if n <= 0 then [] else Range(n - 1) + [n - 1]
  }

  /** Python's `cbs[:-1]`: every element but the last (nothing of an empty list). */
  function DropLast(cbs: seq<Callback>): (r: seq<Callback>)
    ensures |cbs| == 0 ==> r == []
    ensures |cbs| > 0 ==> r + [cbs[|cbs| - 1]] == cbs
  {
    if |cbs| == 0 then [] else cbs[..|cbs| - 1]
  }

  /** The callbacks appended when `extra_callbacks` is None. */
  function DefaultExtras(): seq<Callback> {
    [MovingAverage, ProgressBar, StatPrinter]
  }

  /** The extras actually appended. */
  function Extras(extra: Option<seq<Callback>>): seq<Callback> {
    extra.GetOr(DefaultExtras())
  }

  /** The local `dataflow` after the `dataset=` shim: a `dataset` keyword,
      whatever its value, replaces the `dataflow` argument. */
  function DataflowArg(dataflow: Option<DataFlow>, kwargs: Kwargs): Value {
    if "dataset" in kwargs then kwargs["dataset"]
    else if dataflow.Some? then FlowValue(dataflow.value)
    else NoneValue
  }

  /** Selects the data source: a dataflow excludes `data`, and without a
      dataflow `data` must be given. */
  function SelectSource(dataflow: Value, data: Option<InputData>): (r: Result<Source, Error>)
    ensures r.Ok? <==> (dataflow.FlowValue? && data.None?) || (dataflow.NoneValue? && data.Some?)
    ensures !dataflow.NoneValue? && data.Some? ==> r == Err(BothDataSources)
    ensures dataflow.NoneValue? && data.None? ==> r == Err(NoInputData)
    ensures !dataflow.NoneValue? && !dataflow.FlowValue? && data.None? ==> r == Err(NotADataFlow)
    ensures r.Ok? && r.value.FromDataFlow? ==> dataflow == FlowValue(r.value.flow)
    ensures r.Ok? && r.value.FromInputData? ==> dataflow == NoneValue && data == Some(r.value.feed)
  {
    if !dataflow.NoneValue? then
      if data.Some? then Err(BothDataSources)
      else if dataflow.FlowValue? then Ok(FromDataFlow(dataflow.flow))
      else Err(NotADataFlow)
    else if data.Some? then Ok(FromInputData(data.value))
    else Err(NoInputData)
  }

  /** The caller's own callbacks, after the legacy shim has dropped the last
      element of a `Callbacks` object. */
  function UserCallbacks(arg: CallbacksArg): seq<Callback>
    requires !arg.NoCallbacks?
  {
    match arg
    case CallbackList(l) => l
    case LegacyCallbacks(cbs) => DropLast(cbs)
  }

  /** The step counter, then the caller's callbacks, then the extras; a
      `callbacks` argument that is not a list fails. */
  function ComposeCallbacks(arg: CallbacksArg, extra: Option<seq<Callback>>): (r: Result<seq<Callback>, Error>)
    ensures r.Err? <==> arg.NoCallbacks?
    ensures r.Err? ==> r.error == CallbacksNotAList
    ensures r.Ok? ==> |r.value| == 1 + |UserCallbacks(arg)| + |Extras(extra)|
    ensures r.Ok? ==> r.value[0] == StepCounter
    ensures r.Ok? ==> r.value[1..1 + |UserCallbacks(arg)|] == UserCallbacks(arg)
    ensures r.Ok? ==> r.value[1 + |UserCallbacks(arg)|..] == Extras(extra)
    ensures arg.CallbackList? && extra.Some? ==> r == Ok([StepCounter] + arg.list + extra.value)
    ensures arg.CallbackList? && extra.None? ==>
              r == Ok([StepCounter] + arg.list + [MovingAverage, ProgressBar, StatPrinter])
  {
    if arg.NoCallbacks? then Err(CallbacksNotAList)
    else
      var l := [StepCounter] + UserCallbacks(arg) + Extras(extra);
      assert l[1..1 + |UserCallbacks(arg)|] == UserCallbacks(arg);
      assert l[1 + |UserCallbacks(arg)|..] == Extras(extra);
      Ok(l)
  }

  /** What steps_per_epoch is resolved to, with the keywords left over. */
  datatype Steps = Steps(steps: Option<int>, rest: Kwargs)

  /** steps_per_epoch: the explicit value; else the legacy `step_per_epoch`
      keyword (popped even when it is None); else the source's `size()`,
      which stays None when `size()` is not implemented. */
  function ResolveSteps(explicit: Option<int>, kwargs: Kwargs, source: Source): (r: Result<Steps, Error>)
    ensures explicit.Some? ==> r == Ok(Steps(explicit, kwargs))
    ensures explicit.None? && r.Ok? ==> r.value.rest == kwargs - {"step_per_epoch"}
    ensures explicit.None? && "step_per_epoch" in kwargs && kwargs["step_per_epoch"].IntValue? ==>
              r.Ok? && r.value.steps == Some(kwargs["step_per_epoch"].n)
    ensures explicit.None? && ("step_per_epoch" !in kwargs || kwargs["step_per_epoch"].NoneValue?) ==>
              r.Ok? && r.value.steps == source.Size()
    ensures r.Err? <==> explicit.None? && "step_per_epoch" in kwargs &&
                        (kwargs["step_per_epoch"].FlowValue? || kwargs["step_per_epoch"].OtherValue?)
  {
    if explicit.Some? then Ok(Steps(explicit, kwargs))
    else
      var legacy := if "step_per_epoch" in kwargs then kwargs["step_per_epoch"] else NoneValue;
      var rest := kwargs - {"step_per_epoch"};
      match legacy
      case NoneValue => Ok(Steps(source.Size(), rest))
      case IntValue(n) => Ok(Steps(Some(n), rest))
      case _ => Err(StepsNotAnInteger)
  }

  /** The tower list: `nr_tower` expanded through the property setter, or the
      explicit `tower`, which is accepted only when that expansion has one element. */
  function NormalizeTower(nrTower: int, tower: Option<seq<int>>): (r: Result<seq<int>, Error>)
    ensures tower.None? ==> r.Ok? && |r.value| == (if nrTower <= 0 then 0 else nrTower)
    ensures tower.None? ==> forall i :: 0 <= i < |r.value| ==> r.value[i] == i
    ensures tower.Some? ==> (r.Ok? <==> nrTower == 1)
    ensures tower.Some? && r.Ok? ==> r.value == tower.value
    ensures r.Err? ==> r.error == BothTowerForms
  {
    var expanded := Range(nrTower);
    if tower.Some? then
      if |expanded| == 1 then Ok(tower.value) else Err(BothTowerForms)
    else Ok(expanded)
  }

  /** `predict_tower`: an int is wrapped in a list, a list is kept. */
  function PredictTowers(p: PredictTowerArg): seq<int> {
    match p
    case PredictScalar(d) => [d]
    case PredictList(ds) => ds
  }

  // ---------------------------------------------------------------------------
  // Construction
  // ---------------------------------------------------------------------------

  /** What every successfully constructed TrainConfig satisfies. */
  predicate Consistent(s: Settings) {
    (s.dataflow.Some? <==> s.data.None?)
    && s.stepsPerEpoch >= 0 && s.maxEpoch > 0
    && |s.callbacks| > 0 && s.callbacks[0] == StepCounter
  }

  /** The objects lines 64-104 of `__init__` check and store. */
  datatype Prepared = Prepared(
    source: Source,
    optimizer: Optimizer,
    callbacks: seq<Callback>,
    model: ModelDesc,
    sessionConfig: SessionConfig,
    sessionInit: SessionInit)

  /** Lines 64-104: the `dataset=` shim, the data source, the optimizer, the
      callback list, the model and the session, or the first check that fails. */
  function PrepareObjects(a: Args, kwargs: Kwargs): (r: Result<Prepared, Error>)
    ensures r.Ok? <==> SelectSource(DataflowArg(a.dataflow, kwargs), a.data).Ok? &&
                       a.optimizer.Some? && !a.callbacks.NoCallbacks? &&
                       a.model.Some? && a.sessionConfig.Some?
    ensures SelectSource(DataflowArg(a.dataflow, kwargs), a.data).Err? ==>
              r == Err(SelectSource(DataflowArg(a.dataflow, kwargs), a.data).error)
    ensures var sel := SelectSource(DataflowArg(a.dataflow, kwargs), a.data);
            sel.Ok? && a.optimizer.None? ==> r == Err(NoOptimizer)
    ensures var sel := SelectSource(DataflowArg(a.dataflow, kwargs), a.data);
            sel.Ok? && a.optimizer.Some? && a.callbacks.NoCallbacks? ==> r == Err(CallbacksNotAList)
    ensures var sel := SelectSource(DataflowArg(a.dataflow, kwargs), a.data);
            sel.Ok? && a.optimizer.Some? && !a.callbacks.NoCallbacks? && a.model.None? ==>
              r == Err(NoModel)
    ensures var sel := SelectSource(DataflowArg(a.dataflow, kwargs), a.data);
            (sel.Ok? && a.optimizer.Some? && !a.callbacks.NoCallbacks? && a.model.Some? &&
             a.sessionConfig.None?) ==> r == Err(NoSessionConfig)
    ensures r.Ok? ==> r.value.optimizer == a.optimizer.value && r.value.model == a.model.value &&
                      r.value.sessionConfig == a.sessionConfig.value
    ensures r.Ok? ==> r.value.source == SelectSource(DataflowArg(a.dataflow, kwargs), a.data).value
    ensures r.Ok? ==> |r.value.callbacks| > 0 && r.value.callbacks[0] == StepCounter
    ensures r.Ok? ==> r.value.sessionInit == a.sessionInit.GetOr(JustCurrentSession)
  {
    var selected := SelectSource(DataflowArg(a.dataflow, kwargs), a.data);
    if selected.Err? then Err(selected.error)
    else if a.optimizer.None? then Err(NoOptimizer)
    else
      var composed := ComposeCallbacks(a.callbacks, a.extraCallbacks);
      if composed.Err? then Err(composed.error)
      else if a.model.None? then Err(NoModel)
      else if a.sessionConfig.None? then Err(NoSessionConfig)
      else Ok(Prepared(selected.value, a.optimizer.value, composed.value, a.model.value,
                       a.sessionConfig.value, a.sessionInit.GetOr(JustCurrentSession)))
  }

  /** The scheduling fields lines 106-136 of `__init__` store. */
  datatype Schedule = Schedule(stepsPerEpoch: int, tower: seq<int>, predictTower: seq<int>)

  /** Lines 106-136, given the keywords left after the `dataset=` shim and the
      selected source: steps_per_epoch and its bound check, the towers, and the
      rejection of leftover keywords. */
  function PlanSchedule(a: Args, kwargs: Kwargs, source: Source): (r: Result<Schedule, Error>)
    ensures r.Ok? ==> ResolveSteps(a.stepsPerEpoch, kwargs, source) == Ok(Steps(Some(r.value.stepsPerEpoch), map[]))
    ensures r.Ok? ==> NormalizeTower(a.nrTower, a.tower) == Ok(r.value.tower)
    ensures r.Err? && r.error.UnknownArguments? ==>
              r.error.names == kwargs.Keys - (if a.stepsPerEpoch.None? then {"step_per_epoch"} else {})
    ensures r.Ok? ==> r.value.stepsPerEpoch >= 0 && a.maxEpoch > 0
    ensures r.Ok? ==> kwargs.Keys <= {"step_per_epoch"}
    ensures r.Ok? && "step_per_epoch" in kwargs ==> a.stepsPerEpoch.None?
  {
    var resolved := ResolveSteps(a.stepsPerEpoch, kwargs, source);
    if resolved.Err? then Err(resolved.error)
    else if resolved.value.steps.None? then Err(StepsUndefined)
    else if !(resolved.value.steps.value >= 0 && a.maxEpoch > 0) then Err(BoundsViolated)
    else
      var tower := NormalizeTower(a.nrTower, a.tower);
      if tower.Err? then Err(tower.error)
      else if |resolved.value.rest| != 0 then Err(UnknownArguments(resolved.value.rest.Keys))
      else Ok(Schedule(resolved.value.steps.value, tower.value, PredictTowers(a.predictTower)))
  }

  /** When lines 106-136 get through: steps_per_epoch resolves to a value
      >= 0, max_epoch > 0, the towers normalise and no keyword is left over. */
  lemma PlanScheduleSucceeds(a: Args, kwargs: Kwargs, source: Source)
    ensures var rs := ResolveSteps(a.stepsPerEpoch, kwargs, source);
            PlanSchedule(a, kwargs, source).Ok? <==>
              rs.Ok? && rs.value.steps.Some? && rs.value.steps.value >= 0 && a.maxEpoch > 0 &&
              NormalizeTower(a.nrTower, a.tower).Ok? && |rs.value.rest| == 0
  {
  }

  /** The error lines 106-136 raise, in the source's order: a non-integer
      legacy value, an undefined steps_per_epoch, the bounds, `tower` with
      nr_tower != 1, and last the keywords still left, all of them named. */
  lemma PlanScheduleErrors(a: Args, kwargs: Kwargs, source: Source)
    ensures var rs := ResolveSteps(a.stepsPerEpoch, kwargs, source);
            rs.Err? ==> PlanSchedule(a, kwargs, source) == Err(StepsNotAnInteger)
    ensures var rs := ResolveSteps(a.stepsPerEpoch, kwargs, source);
            rs.Ok? && rs.value.steps.None? ==> PlanSchedule(a, kwargs, source) == Err(StepsUndefined)
    ensures var rs := ResolveSteps(a.stepsPerEpoch, kwargs, source);
            (rs.Ok? && rs.value.steps.Some? && !(rs.value.steps.value >= 0 && a.maxEpoch > 0)) ==>
              PlanSchedule(a, kwargs, source) == Err(BoundsViolated)
    ensures var rs := ResolveSteps(a.stepsPerEpoch, kwargs, source);
            (rs.Ok? && rs.value.steps.Some? && rs.value.steps.value >= 0 && a.maxEpoch > 0 &&
             a.tower.Some? && a.nrTower != 1) ==> PlanSchedule(a, kwargs, source) == Err(BothTowerForms)
    ensures var rs := ResolveSteps(a.stepsPerEpoch, kwargs, source);
            (rs.Ok? && rs.value.steps.Some? && rs.value.steps.value >= 0 && a.maxEpoch > 0 &&
             (a.tower.None? || a.nrTower == 1) && |rs.value.rest| != 0) ==>
              PlanSchedule(a, kwargs, source) ==
                Err(UnknownArguments(kwargs.Keys - (if a.stepsPerEpoch.None? then {"step_per_epoch"} else {})))
  {
    var rs := ResolveSteps(a.stepsPerEpoch, kwargs, source);
    if rs.Ok? && a.stepsPerEpoch.None? {
      assert rs.value.rest.Keys == kwargs.Keys - {"step_per_epoch"};
    }
  }

  /** The fields of a configuration built from the two halves. */
  function Assemble(a: Args, p: Prepared, s: Schedule): Settings {
    Settings(p.source.FlowField(), p.source.DataField(), p.model, p.optimizer,
             p.callbacks, p.sessionConfig, p.sessionInit,
             s.stepsPerEpoch, a.startingEpoch, a.maxEpoch, s.tower, s.predictTower)
  }

  /** `TrainConfig(**a, **kwargs)`: the fields it sets, or the first check it fails. */
  function Configure(a: Args, kwargs: Kwargs): (r: Result<Settings, Error>)
    ensures r.Ok? ==> Consistent(r.value)
    ensures r.Ok? ==> kwargs.Keys <= {"dataset", "step_per_epoch"}
  {
    var prepared := PrepareObjects(a, kwargs);
    if prepared.Err? then Err(prepared.error)
    else
      var schedule := PlanSchedule(a, kwargs - {"dataset"}, prepared.value.source);
      if schedule.Err? then Err(schedule.error)
      else Ok(Assemble(a, prepared.value, schedule.value))
  }
}
