/** The TrainConfig object of tensorpack/train/config.py: `__init__` fills
    its fields step by step, and `set_tower` and the `nr_tower` setter
    overwrite its tower list afterwards. */
module TrainConfigClass {
  import opened Wrappers
  import opened ConfigSpec

  class TrainConfig {
    var dataflow: Option<DataFlow>
    var data: Option<InputData>
    var model: Option<ModelDesc>
    var optimizer: Option<Optimizer>
    var callbacks: seq<Callback>
    var sessionConfig: Option<SessionConfig>
    var sessionInit: Option<SessionInit>
    var stepsPerEpoch: int
    var startingEpoch: int
    var maxEpoch: int
    /** `None` once `set_tower` has stored something that is not a list. */
    var tower: Option<seq<int>>
    var predictTower: seq<int>

    /** The object before `__init__` has set anything. */
    constructor Blank()
      ensures dataflow.None? && data.None? && model.None? && optimizer.None?
      ensures sessionConfig.None? && sessionInit.None? && tower.None?
      ensures callbacks == [] && predictTower == []
    {
      dataflow, data, model, optimizer := None, None, None, None;
      callbacks := [];
      sessionConfig, sessionInit := None, None;
      stepsPerEpoch, startingEpoch, maxEpoch := 0, 0, 0;
      tower := None;
      predictTower := [];
    }

    /** Every field that construction sets holds a value. */
    predicate Complete()
      reads this
    {
      model.Some? && optimizer.Some? && sessionConfig.Some? && sessionInit.Some? && tower.Some?
    }

    /** The fields, as a value. */
    function Current(): Settings
      reads this
      requires Complete()
    {
      Settings(dataflow, data, model.value, optimizer.value, callbacks,
               sessionConfig.value, sessionInit.value, stepsPerEpoch,
               startingEpoch, maxEpoch, tower.value, predictTower)
    }

    /** The object invariant a successful `__init__` establishes. */
    ghost predicate Valid()
      reads this
    {
      Complete() && Consistent(Current())
    }

    /** The `nr_tower` property: the length of the tower list; `None` when
        the stored tower is not a list (`len` raises). */
    function NrTower(): Option<nat>
      reads this
    {
      if tower.Some? then Some(|tower.value|) else None
    }

    /** The `nr_tower` setter: the tower list becomes 0 .. value-1. */
    method SetNrTower(value: int)
      modifies this`tower
      ensures tower == Some(Range(value))
      ensures value >= 0 ==> NrTower() == Some(value)
    {
      tower := Some(Range(value));
    }

    /** Lines 67-75 of `__init__`: the `dataflow` and `data` fields to store,
        given the local `dataflow` after the `dataset=` shim. */
    static method DataSourceFields(flowArg: Value, dataArg: Option<InputData>)
      returns (outcome: Outcome<Error>, flow: Option<DataFlow>, feed: Option<InputData>)
      ensures outcome.Fail? <==> SelectSource(flowArg, dataArg).Err?
      ensures outcome.Fail? ==> outcome.error == SelectSource(flowArg, dataArg).error
      ensures outcome.Pass? ==> flow == SelectSource(flowArg, dataArg).value.FlowField()
      ensures outcome.Pass? ==> feed == SelectSource(flowArg, dataArg).value.DataField()
      ensures outcome.Pass? ==> (flow.Some? <==> feed.None?)
    {
      flow, feed := None, None;
      if !flowArg.NoneValue? {
        if dataArg.Some? {
          return Fail(BothDataSources), flow, feed;
        }
        if !flowArg.FlowValue? {
          return Fail(NotADataFlow), flow, feed;
        }
        flow := Some(flowArg.flow);
      } else {
        if dataArg.None? {
          return Fail(NoInputData), flow, feed;
        }
        feed := dataArg;
      }
      outcome := Pass;
    }

    /** Lines 80-92 of `__init__`: the legacy `Callbacks` shim, the list check
        and the composed callback list. */
    static method CallbackListOf(arg: CallbacksArg, extra: Option<seq<Callback>>)
      returns (outcome: Outcome<Error>, composed: seq<Callback>)
      ensures outcome.Fail? <==> arg.NoCallbacks?
      ensures outcome.Fail? ==> outcome.error == CallbacksNotAList
      ensures outcome.Pass? ==> composed == ComposeCallbacks(arg, extra).value
    {
      var userCallbacks: seq<Callback>;
      match arg {
        case NoCallbacks =>
          return Fail(CallbacksNotAList), [];
        case CallbackList(l) =>
          userCallbacks := l;
        case LegacyCallbacks(cbs) =>
          userCallbacks := DropLast(cbs);
      }
      var extras := if extra.Some? then extra.value else DefaultExtras();
      composed := [StepCounter] + userCallbacks + extras;
      outcome := Pass;
    }

    /** Lines 64-104 of `__init__`: pops `dataset`, then checks and stores
        the data source, the optimizer, the callbacks, the model and the
        session; `kw` is what is left of the keywords. */
    method InitObjects(a: Args, kwargs: Kwargs) returns (outcome: Outcome<Error>, kw: Kwargs)
      modifies this`dataflow, this`data, this`optimizer, this`callbacks, this`model,
               this`sessionConfig, this`sessionInit
      ensures kw == kwargs - {"dataset"}
      ensures outcome.Fail? <==> PrepareObjects(a, kwargs).Err?
      ensures outcome.Fail? ==> outcome.error == PrepareObjects(a, kwargs).error
      ensures outcome.Pass? ==>
                var p := PrepareObjects(a, kwargs).value;
                dataflow == p.source.FlowField() && data == p.source.DataField() &&
                optimizer == Some(p.optimizer) && callbacks == p.callbacks &&
                model == Some(p.model) && sessionConfig == Some(p.sessionConfig) &&
                sessionInit == Some(p.sessionInit)
    {
      kw := kwargs;
      var flowArg := if a.dataflow.Some? then FlowValue(a.dataflow.value) else NoneValue;
      if "dataset" in kw {
        flowArg := kw["dataset"];
        kw := kw - {"dataset"};
      }
      assert flowArg == DataflowArg(a.dataflow, kwargs);

      outcome, dataflow, data := DataSourceFields(flowArg, a.data);
      if outcome.Fail? {
        return;
      }

      if a.optimizer.None? {
        return Fail(NoOptimizer), kw;
      }
      optimizer := a.optimizer;

      outcome, callbacks := CallbackListOf(a.callbacks, a.extraCallbacks);
      if outcome.Fail? {
        return;
      }

      if a.model.None? {
        return Fail(NoModel), kw;
      }
      model := a.model;
      if a.sessionConfig.None? {
        return Fail(NoSessionConfig), kw;
      }
      sessionConfig := a.sessionConfig;
      sessionInit := if a.sessionInit.None? then Some(JustCurrentSession) else a.sessionInit;
      outcome := Pass;
    }

    /** Lines 106-120 of `__init__`: the explicit steps_per_epoch, else the
        legacy `step_per_epoch` keyword (popped even when it holds None), else
        the stored source's `size()`; also the keywords left over. */
    method StepsPerEpochOf(explicit: Option<int>, kwargs: Kwargs, ghost source: Source)
      returns (outcome: Outcome<Error>, steps: Option<int>, rest: Kwargs)
      requires dataflow == source.FlowField() && data == source.DataField()
      ensures outcome.Fail? <==> ResolveSteps(explicit, kwargs, source).Err?
      ensures outcome.Fail? ==> outcome.error == StepsNotAnInteger
      ensures outcome.Pass? ==> ResolveSteps(explicit, kwargs, source) == Ok(Steps(steps, rest))
    {
      rest := kwargs;
      var stepsArg := if explicit.Some? then IntValue(explicit.value) else NoneValue;
      if stepsArg.NoneValue? {
        if "step_per_epoch" in rest {
          stepsArg := rest["step_per_epoch"];
        }
        rest := rest - {"step_per_epoch"};
      }
      outcome := Pass;
      if stepsArg.NoneValue? {
        steps := if dataflow.Some? then dataflow.value.size else data.value.size;
      } else if stepsArg.IntValue? {
        steps := Some(stepsArg.n);
      } else {
        outcome, steps := Fail(StepsNotAnInteger), None;
      }
    }

    /** Lines 106-136 of `__init__`: resolves steps_per_epoch from the
        explicit value, the popped legacy keyword or the stored source's
        `size()`, checks the bounds, sets the towers and rejects leftover
        keywords. */
    method InitSchedule(a: Args, kwargs: Kwargs, ghost source: Source) returns (outcome: Outcome<Error>)
      requires dataflow == source.FlowField() && data == source.DataField()
      modifies this`stepsPerEpoch, this`startingEpoch, this`maxEpoch, this`tower, this`predictTower
      ensures outcome.Fail? <==> PlanSchedule(a, kwargs, source).Err?
      ensures outcome.Fail? ==> outcome.error == PlanSchedule(a, kwargs, source).error
      ensures outcome.Pass? ==>
                var s := PlanSchedule(a, kwargs, source).value;
                stepsPerEpoch == s.stepsPerEpoch && startingEpoch == a.startingEpoch &&
                maxEpoch == a.maxEpoch && tower == Some(s.tower) && predictTower == s.predictTower
    {
      var steps: Option<int>, kw: Kwargs;
      outcome, steps, kw := StepsPerEpochOf(a.stepsPerEpoch, kwargs, source);
      if outcome.Fail? {
        return;
      }
      if steps.None? {
        return Fail(StepsUndefined);
      }
      stepsPerEpoch := steps.value;
      startingEpoch := a.startingEpoch;
      maxEpoch := a.maxEpoch;
      if !(stepsPerEpoch >= 0 && maxEpoch > 0) {
        return Fail(BoundsViolated);
      }

      SetNrTower(a.nrTower);
      if a.tower.Some? {
        if NrTower() != Some(1) {
          return Fail(BothTowerForms);
        }
        tower := a.tower;
      }
      predictTower := PredictTowers(a.predictTower);

      if |kw| != 0 {
        return Fail(UnknownArguments(kw.Keys));
      }
      outcome := Pass;
    }

    /** `__init__`: both halves in the source's order; the object is
        abandoned at the first failed check. */
    method Init(a: Args, kwargs: Kwargs) returns (outcome: Outcome<Error>)
      modifies this
      ensures outcome.Pass? <==> Configure(a, kwargs).Ok?
      ensures outcome.Fail? ==> outcome.error == Configure(a, kwargs).error
      ensures outcome.Pass? ==> Valid() && Current() == Configure(a, kwargs).value
    {
      var kw: Kwargs;
      outcome, kw := InitObjects(a, kwargs);
      if outcome.Fail? {
        return;
      }
      ghost var prepared := PrepareObjects(a, kwargs).value;
      outcome := InitSchedule(a, kw, prepared.source);
      if outcome.Fail? {
        return;
      }
      assert Current() == Assemble(a, prepared, PlanSchedule(a, kw, prepared.source).value);
    }

    /** `TrainConfig(...)`: a new object when `__init__` succeeds, the error otherwise. */
    static method Create(a: Args, kwargs: Kwargs) returns (r: Result<TrainConfig, Error>)
      ensures r.Ok? <==> Configure(a, kwargs).Ok?
      ensures r.Err? ==> r.error == Configure(a, kwargs).error
      ensures r.Ok? ==> fresh(r.value) && r.value.Valid() && r.value.Current() == Configure(a, kwargs).value
    {
      var c := new TrainConfig.Blank();
      var outcome := c.Init(a, kwargs);
      if outcome.Fail? {
        return Err(outcome.error);
      }
      r := Ok(c);
    }

    /** The deprecated `set_tower`: a non-zero `nrTower` expands to 0 .. n-1,
        otherwise an int `tower` expands and a list is kept; the result is
        stored before it is checked to be a list. */
    method SetTower(nrTower: Option<int>, towerArg: TowerArg) returns (outcome: Outcome<Error>)
      modifies this`tower
      ensures nrTower.Some? && !towerArg.NoTower? ==>
                outcome == Fail(BothSetTowerForms) && tower == old(tower)
      ensures nrTower.Some? && nrTower.value != 0 && towerArg.NoTower? ==>
                outcome.Pass? && tower == Some(Range(nrTower.value))
      ensures nrTower.None? && towerArg.TowerCount? ==>
                outcome.Pass? && tower == Some(Range(towerArg.count))
      ensures nrTower.None? && towerArg.TowerList? ==>
                outcome.Pass? && tower == Some(towerArg.ids)
      ensures (nrTower.None? || nrTower == Some(0)) && towerArg.NoTower? ==>
                outcome == Fail(TowerNotAList) && tower.None? && NrTower().None?
      ensures old(Valid()) && outcome.Pass? ==> Valid()
    {
      if nrTower.Some? && !towerArg.NoTower? {
        return Fail(BothSetTowerForms);
      }
      var newTower: Option<seq<int>>;
      if nrTower.Some? && nrTower.value != 0 {
        newTower := Some(Range(nrTower.value));
      } else {
        match towerArg {
          case NoTower => newTower := None;
          case TowerCount(n) => newTower := Some(Range(n));
          case TowerList(ids) => newTower := Some(ids);
        }
      }
      tower := newTower;
      if tower.None? {
        return Fail(TowerNotAList);
      }
      outcome := Pass;
    }
  }
}
