/** Properties of TrainConfig construction (tensorpack/train/config.py),
    stated over the specification `Configure`. */
module ConfigProperties {
  import opened Wrappers
  import opened ConfigSpec

  /** `dataflow` and `data` exclude each other: both or neither fails, and a
      successful configuration keeps exactly the one that was given. A
      `dataset=` keyword stands in for `dataflow`. */
  lemma DataSourceExclusive(a: Args, kwargs: Kwargs)
    ensures var flow := DataflowArg(a.dataflow, kwargs);
            !flow.NoneValue? && a.data.Some? ==> Configure(a, kwargs) == Err(BothDataSources)
    ensures var flow := DataflowArg(a.dataflow, kwargs);
            flow.NoneValue? && a.data.None? ==> Configure(a, kwargs) == Err(NoInputData)
    ensures var r := Configure(a, kwargs);
            r.Ok? ==> (r.value.dataflow.Some? <==> r.value.data.None?)
    ensures var r := Configure(a, kwargs);
            r.Ok? && r.value.dataflow.Some? ==>
              DataflowArg(a.dataflow, kwargs) == FlowValue(r.value.dataflow.value)
    ensures var r := Configure(a, kwargs);
            r.Ok? && r.value.data.Some? ==>
              DataflowArg(a.dataflow, kwargs).NoneValue? && r.value.data == a.data
  {
  }

  /** A `dataset=` keyword replaces the `dataflow` argument, whatever that was. */
  lemma DatasetKeywordIsDataflow(a: Args, kwargs: Kwargs, flow: DataFlow)
    requires "dataset" in kwargs && kwargs["dataset"] == FlowValue(flow)
    ensures Configure(a, kwargs).Ok? ==> Configure(a, kwargs).value.dataflow == Some(flow)
  {
  }

  /** A `dataset=` keyword discards the `dataflow` argument, whatever either
      holds. */
  lemma DatasetKeywordDiscardsDataflow(a: Args, kwargs: Kwargs, d: Option<DataFlow>)
    requires "dataset" in kwargs
    ensures Configure(a.(dataflow := d), kwargs) == Configure(a, kwargs)
  {
    assert PrepareObjects(a.(dataflow := d), kwargs) == PrepareObjects(a, kwargs);
  }

  /** `dataset=None` means no dataflow at all, so `data` is the source: the
      call behaves as one without the keyword and without `dataflow`. */
  lemma DatasetNoneMeansNoDataflow(a: Args, kwargs: Kwargs)
    requires "dataset" in kwargs && kwargs["dataset"].NoneValue?
    ensures Configure(a, kwargs) == Configure(a.(dataflow := None), kwargs - {"dataset"})
  {
    DatasetKeywordDiscardsDataflow(a, kwargs, None);
    NoneDatasetKeywordIgnored(a.(dataflow := None), kwargs);
  }

  /** Without a `dataflow` argument, a `dataset=None` keyword changes nothing. */
  lemma NoneDatasetKeywordIgnored(a: Args, kwargs: Kwargs)
    requires a.dataflow.None? && "dataset" in kwargs && kwargs["dataset"].NoneValue?
    ensures Configure(a, kwargs - {"dataset"}) == Configure(a, kwargs)
  {
    var rest := kwargs - {"dataset"};
    assert PrepareObjects(a, rest) == PrepareObjects(a, kwargs) by {
      assert DataflowArg(a.dataflow, rest) == DataflowArg(a.dataflow, kwargs);
    }
    assert rest - {"dataset"} == rest;
  }

  /** The callback list is the step counter, the caller's list (a legacy
      `Callbacks` object minus its last element), then the extras; with no
      `extra_callbacks` the extras are the three defaults and `StatPrinter`
      comes last. A `callbacks` argument that is not a list fails. */
  lemma CallbacksComposed(a: Args, kwargs: Kwargs)
    ensures a.callbacks.NoCallbacks? ==> Configure(a, kwargs).Err?
    ensures var r := Configure(a, kwargs);
            r.Ok? ==> r.value.callbacks == [StepCounter] + UserCallbacks(a.callbacks) + Extras(a.extraCallbacks)
    ensures var r := Configure(a, kwargs);
            r.Ok? && a.callbacks.CallbackList? && a.extraCallbacks.Some? ==>
              r.value.callbacks == [StepCounter] + a.callbacks.list + a.extraCallbacks.value
    ensures var r := Configure(a, kwargs);
            r.Ok? && a.callbacks.CallbackList? && a.extraCallbacks.None? ==>
              r.value.callbacks == [StepCounter] + a.callbacks.list + [MovingAverage, ProgressBar, StatPrinter]
    ensures var r := Configure(a, kwargs);
            r.Ok? && a.extraCallbacks.None? ==>
              |r.value.callbacks| == |UserCallbacks(a.callbacks)| + 4 &&
              r.value.callbacks[|r.value.callbacks| - 3..] == [MovingAverage, ProgressBar, StatPrinter] &&
              r.value.callbacks[|r.value.callbacks| - 1] == StatPrinter
  {
    var r := Configure(a, kwargs);
    if r.Ok? && a.extraCallbacks.None? {
      var user := UserCallbacks(a.callbacks);
      assert r.value.callbacks == [StepCounter] + user + [MovingAverage, ProgressBar, StatPrinter];
      assert r.value.callbacks[|r.value.callbacks| - 3..] == [MovingAverage, ProgressBar, StatPrinter];
    }
  }

  /** A legacy `Callbacks` object contributes all its elements but the last;
      an empty one contributes nothing, so only the step counter and the
      extras remain. */
  lemma LegacyCallbacksDropLast(a: Args, kwargs: Kwargs)
    requires a.callbacks.LegacyCallbacks?
    ensures var r := Configure(a, kwargs);
            var cbs := a.callbacks.cbs;
            r.Ok? && |cbs| > 0 ==>
              |r.value.callbacks| == |cbs| + |Extras(a.extraCallbacks)| &&
              r.value.callbacks[1..|cbs|] == cbs[..|cbs| - 1]
    ensures var r := Configure(a, kwargs);
            r.Ok? && |a.callbacks.cbs| == 0 ==> r.value.callbacks == [StepCounter] + Extras(a.extraCallbacks)
  {
    var r := Configure(a, kwargs);
    if r.Ok? {
      var cbs := a.callbacks.cbs;
      var extras := Extras(a.extraCallbacks);
      if |cbs| > 0 {
        assert r.value.callbacks == [StepCounter] + cbs[..|cbs| - 1] + extras;
        assert r.value.callbacks[1..|cbs|] == cbs[..|cbs| - 1];
      } else {
        assert r.value.callbacks == [StepCounter] + [] + extras;
      }
    }
  }

  /** The optimizer, the model and the session config are required: a missing
      one fails with its own error once the data source is settled, and a
      successful configuration stores the objects given (the session
      initialiser defaulting to JustCurrentSession). */
  lemma RequiredObjects(a: Args, kwargs: Kwargs)
    ensures a.optimizer.None? || a.model.None? || a.sessionConfig.None? ==> Configure(a, kwargs).Err?
    ensures var sel := SelectSource(DataflowArg(a.dataflow, kwargs), a.data);
            sel.Ok? && a.optimizer.None? ==> Configure(a, kwargs) == Err(NoOptimizer)
    ensures var sel := SelectSource(DataflowArg(a.dataflow, kwargs), a.data);
            sel.Ok? && a.optimizer.Some? && !a.callbacks.NoCallbacks? && a.model.None? ==>
              Configure(a, kwargs) == Err(NoModel)
    ensures var sel := SelectSource(DataflowArg(a.dataflow, kwargs), a.data);
            (sel.Ok? && a.optimizer.Some? && !a.callbacks.NoCallbacks? && a.model.Some? &&
             a.sessionConfig.None?) ==> Configure(a, kwargs) == Err(NoSessionConfig)
    ensures var r := Configure(a, kwargs);
            r.Ok? ==> r.value.optimizer == a.optimizer.value && r.value.model == a.model.value &&
                      r.value.sessionConfig == a.sessionConfig.value &&
                      r.value.sessionInit == a.sessionInit.GetOr(JustCurrentSession)
  {
  }

  /** steps_per_epoch is the explicit value, else the legacy
      `step_per_epoch` keyword, else the size of the data source kept. */
  lemma StepsPerEpochResolved(a: Args, kwargs: Kwargs)
    ensures var r := Configure(a, kwargs);
            r.Ok? && a.stepsPerEpoch.Some? ==> r.value.stepsPerEpoch == a.stepsPerEpoch.value
    ensures var r := Configure(a, kwargs);
            r.Ok? && a.stepsPerEpoch.None? && "step_per_epoch" in kwargs ==>
              kwargs["step_per_epoch"].IntValue? || kwargs["step_per_epoch"].NoneValue?
    ensures var r := Configure(a, kwargs);
            r.Ok? && a.stepsPerEpoch.None? && "step_per_epoch" in kwargs && kwargs["step_per_epoch"].IntValue? ==>
              r.value.stepsPerEpoch == kwargs["step_per_epoch"].n
    ensures var r := Configure(a, kwargs);
            r.Ok? && a.stepsPerEpoch.None? &&
            ("step_per_epoch" !in kwargs || kwargs["step_per_epoch"].NoneValue?) ==>
              Some(r.value.stepsPerEpoch) ==
                (if r.value.dataflow.Some? then r.value.dataflow.value.size else r.value.data.value.size)
  {
    var r := Configure(a, kwargs);
    if r.Ok? {
      var prepared := PrepareObjects(a, kwargs).value;
      var rest := kwargs - {"dataset"};
      assert "step_per_epoch" in kwargs ==> "step_per_epoch" in rest && rest["step_per_epoch"] == kwargs["step_per_epoch"];
      assert "step_per_epoch" !in kwargs ==> "step_per_epoch" !in rest;
    }
  }

  /** Without an explicit value or legacy keyword, a source whose `size()` is
      not implemented makes construction fail. */
  lemma UndefinedSizeFails(a: Args, kwargs: Kwargs, source: Source)
    requires SelectSource(DataflowArg(a.dataflow, kwargs), a.data) == Ok(source)
    requires source.Size().None?
    requires a.stepsPerEpoch.None?
    requires "step_per_epoch" !in kwargs || kwargs["step_per_epoch"].NoneValue?
    ensures Configure(a, kwargs).Err?
  {
    var rest := kwargs - {"dataset"};
    assert "step_per_epoch" in rest ==> rest["step_per_epoch"] == kwargs["step_per_epoch"];
  }

  /** After success steps_per_epoch >= 0 and max_epoch > 0, while
      starting_epoch is stored as given and never checked: any other value
      of it gives the same configuration with that value. */
  lemma EpochBounds(a: Args, kwargs: Kwargs, start: int)
    ensures var r := Configure(a, kwargs);
            r.Ok? ==> r.value.stepsPerEpoch >= 0 && r.value.maxEpoch == a.maxEpoch > 0
    ensures var r := Configure(a, kwargs);
            r.Ok? ==> r.value.startingEpoch == a.startingEpoch
    ensures var r := Configure(a, kwargs);
            Configure(a.(startingEpoch := start), kwargs) ==
              if r.Ok? then Ok(r.value.(startingEpoch := start)) else r
  {
    var a' := a.(startingEpoch := start);
    assert PrepareObjects(a', kwargs) == PrepareObjects(a, kwargs);
    var prepared := PrepareObjects(a, kwargs);
    if prepared.Ok? {
      assert PlanSchedule(a', kwargs - {"dataset"}, prepared.value.source)
          == PlanSchedule(a, kwargs - {"dataset"}, prepared.value.source);
    }
  }

  /** Without `tower`, the towers are 0 .. nr_tower-1; with it, construction
      succeeds only when nr_tower is 1 and keeps the list as given. */
  lemma TowersNormalized(a: Args, kwargs: Kwargs)
    ensures var r := Configure(a, kwargs);
            r.Ok? && a.tower.None? ==>
              r.value.tower == Range(a.nrTower) &&
              |r.value.tower| == (if a.nrTower <= 0 then 0 else a.nrTower) &&
              forall i :: 0 <= i < |r.value.tower| ==> r.value.tower[i] == i
    ensures var r := Configure(a, kwargs);
            r.Ok? && a.tower.Some? ==> a.nrTower == 1 && r.value.tower == a.tower.value
    ensures a.tower.Some? && a.nrTower != 1 ==> Configure(a, kwargs).Err?
  {
  }

  /** An int `predict_tower` becomes a one-element list; a list is kept. */
  lemma PredictTowerNormalized(a: Args, kwargs: Kwargs)
    ensures var r := Configure(a, kwargs);
            r.Ok? && a.predictTower.PredictScalar? ==> r.value.predictTower == [a.predictTower.device]
    ensures var r := Configure(a, kwargs);
            r.Ok? && a.predictTower.PredictList? ==> r.value.predictTower == a.predictTower.devices
  {
  }

  /** Only the two legacy keywords are consumed, and `step_per_epoch` only
      when steps_per_epoch is not given: any other keyword, or both spellings
      at once, fails; the error names exactly the keywords left over, so a
      consumed shim keyword never causes the failure. */
  lemma LeftoverKeywordsRejected(a: Args, kwargs: Kwargs, name: string)
    requires name in kwargs
    ensures name != "dataset" && name != "step_per_epoch" ==> Configure(a, kwargs).Err?
    ensures name == "step_per_epoch" && a.stepsPerEpoch.Some? ==> Configure(a, kwargs).Err?
    ensures var r := Configure(a, kwargs);
            r.Err? && r.error.UnknownArguments? ==>
              r.error.names == kwargs.Keys - {"dataset"} - (if a.stepsPerEpoch.None? then {"step_per_epoch"} else {})
    ensures var r := Configure(a, kwargs);
            (name == "dataset" || (name == "step_per_epoch" && a.stepsPerEpoch.None?)) ==>
              !(r.Err? && r.error.UnknownArguments? && name in r.error.names)
  {
    if Configure(a, kwargs).Ok? {
      var rest := kwargs - {"dataset"};
      assert name != "dataset" ==> name in rest;
    }
  }

  /** steps_per_epoch, taken from the first of the explicit value, the legacy
      `step_per_epoch` keyword (unless it holds None) and the source's
      `size()`, is an integer >= 0; the keyword is only allowed without an
      explicit value. */
  predicate StepsAccepted(explicit: Option<int>, kw: Kwargs, source: Source) {
    if explicit.Some? then
      "step_per_epoch" !in kw && explicit.value >= 0
    else if "step_per_epoch" in kw && !kw["step_per_epoch"].NoneValue? then
      kw["step_per_epoch"].IntValue? && kw["step_per_epoch"].n >= 0
    else
      source.Size().Some? && source.Size().value >= 0
  }

  /** Construction succeeds exactly when every check passes: one data source,
      an optimizer, a callback list, a model and a session config; no keyword
      but the two shims; an accepted steps_per_epoch; max_epoch > 0; and an
      explicit tower list only with nr_tower == 1. */
  lemma ConfigureSucceeds(a: Args, kwargs: Kwargs)
    ensures var sel := SelectSource(DataflowArg(a.dataflow, kwargs), a.data);
            Configure(a, kwargs).Ok? <==>
              sel.Ok? && a.optimizer.Some? && !a.callbacks.NoCallbacks? &&
              a.model.Some? && a.sessionConfig.Some? &&
              kwargs.Keys <= {"dataset", "step_per_epoch"} &&
              StepsAccepted(a.stepsPerEpoch, kwargs, sel.value) &&
              a.maxEpoch > 0 && (a.tower.None? || a.nrTower == 1)
  {
    var prepared := PrepareObjects(a, kwargs);
    if prepared.Ok? {
      var rest := kwargs - {"dataset"};
      var source := prepared.value.source;
      PlanScheduleSucceeds(a, rest, source);
      StepsAndKeywordsAccepted(a.stepsPerEpoch, rest, source);
      DatasetPopKeepsSteps(a.stepsPerEpoch, kwargs, source);
    }
  }

  /** Popping `dataset` changes neither the steps condition nor, apart from
      that key, the set of keywords. */
  lemma DatasetPopKeepsSteps(explicit: Option<int>, kwargs: Kwargs, source: Source)
    ensures StepsAccepted(explicit, kwargs - {"dataset"}, source) == StepsAccepted(explicit, kwargs, source)
    ensures (kwargs - {"dataset"}).Keys <= {"step_per_epoch"} <==> kwargs.Keys <= {"dataset", "step_per_epoch"}
  {
    var rest := kwargs - {"dataset"};
    assert "step_per_epoch" in rest ==> rest["step_per_epoch"] == kwargs["step_per_epoch"];
    assert rest.Keys == kwargs.Keys - {"dataset"};
    if rest.Keys <= {"step_per_epoch"} {
      forall k | k in kwargs.Keys
        ensures k in {"dataset", "step_per_epoch"}
      {
        assert k == "dataset" || k in rest.Keys;
      }
    }
  }

  /** A keyword that no shim consumes makes an otherwise valid construction
      fail at line 136 with an error that names it. */
  lemma LeftoverKeywordNamed(a: Args, kwargs: Kwargs, name: string)
    requires name in kwargs && name != "dataset"
    requires !(name == "step_per_epoch" && a.stepsPerEpoch.None?)
    requires var sel := SelectSource(DataflowArg(a.dataflow, kwargs), a.data);
             sel.Ok? && a.optimizer.Some? && !a.callbacks.NoCallbacks? &&
             a.model.Some? && a.sessionConfig.Some? &&
             StepsAccepted(a.stepsPerEpoch, kwargs - {name}, sel.value)
    requires a.maxEpoch > 0 && (a.tower.None? || a.nrTower == 1)
    ensures Configure(a, kwargs).Err? && Configure(a, kwargs).error.UnknownArguments? &&
            name in Configure(a, kwargs).error.names
  {
    var source := PrepareObjects(a, kwargs).value.source;
    var rest := kwargs - {"dataset"};
    assert "step_per_epoch" in rest && name != "step_per_epoch" ==>
             rest["step_per_epoch"] == (kwargs - {name})["step_per_epoch"];
    assert "step_per_epoch" in rest <==> "step_per_epoch" in kwargs - {name} || name == "step_per_epoch";
    PlanScheduleErrors(a, rest, source);
  }

  /** The part of PlanSchedule that concerns steps_per_epoch and the keywords
      left after `dataset=`: it passes exactly when only `step_per_epoch` is
      left and the steps value is accepted. */
  lemma StepsAndKeywordsAccepted(explicit: Option<int>, kw: Kwargs, source: Source)
    ensures var rs := ResolveSteps(explicit, kw, source);
            (rs.Ok? && rs.value.steps.Some? && rs.value.steps.value >= 0 && |rs.value.rest| == 0) <==>
              kw.Keys <= {"step_per_epoch"} && StepsAccepted(explicit, kw, source)
  {
    var rs := ResolveSteps(explicit, kw, source);
    if rs.Ok? {
      var rest := rs.value.rest;
      assert |rest| == 0 <==> rest.Keys == {};
      if explicit.None? {
        assert rest.Keys == kw.Keys - {"step_per_epoch"};
      }
    }
  }

  /** With every argument at its default, `callbacks` is None and `data` is
      missing, so construction fails: the caller must pass a data source
      and a callback list. */
  lemma DefaultsFail(c: SessionConfig, kwargs: Kwargs)
    ensures Configure(DefaultArgs(c), kwargs).Err?
    ensures "dataset" !in kwargs ==> Configure(DefaultArgs(c), kwargs) == Err(NoInputData)
  {
  }

  /** The smallest successful configuration: a sized dataflow, a model, an
      optimizer, an empty callback list and four towers. */
  lemma FourTowerExample(c: SessionConfig)
    ensures var a := DefaultArgs(c).(dataflow := Some(DataFlow(0, Some(100))),
                                     model := Some(ModelDesc(0)), optimizer := Some(Optimizer(0)),
                                     callbacks := CallbackList([]), nrTower := 4,
                                     predictTower := PredictScalar(2));
            Configure(a, map[]) ==
              Ok(Settings(Some(DataFlow(0, Some(100))), None, ModelDesc(0), Optimizer(0),
                          [StepCounter, MovingAverage, ProgressBar, StatPrinter], c,
                          JustCurrentSession, 100, 1, 99999, [0, 1, 2, 3], [2]))
  {
    var a := DefaultArgs(c).(dataflow := Some(DataFlow(0, Some(100))),
                             model := Some(ModelDesc(0)), optimizer := Some(Optimizer(0)),
                             callbacks := CallbackList([]), nrTower := 4,
                             predictTower := PredictScalar(2));
    var source := FromDataFlow(DataFlow(0, Some(100)));
    assert SelectSource(DataflowArg(a.dataflow, map[]), a.data) == Ok(source);
    assert UserCallbacks(a.callbacks) == [] && Extras(a.extraCallbacks) == DefaultExtras();
    assert [StepCounter] + [] + DefaultExtras() == [StepCounter, MovingAverage, ProgressBar, StatPrinter];
    assert PrepareObjects(a, map[]).Ok?;
    var rest: Kwargs := map[];
    assert map[] - {"dataset"} == rest;
    assert ResolveSteps(a.stepsPerEpoch, rest, source) == Ok(Steps(Some(100), rest));
    assert Range(4) == [0, 1, 2, 3];
    assert PlanSchedule(a, rest, source) == Ok(Schedule(100, [0, 1, 2, 3], [2]));
  }

  /** The four-tower configuration again, written with both deprecated
      keywords: `dataset=` supplies the dataflow and `step_per_epoch=50`
      overrides its size. Both are consumed and construction succeeds. */
  lemma LegacyKeywordsExample(c: SessionConfig)
    ensures var a := DefaultArgs(c).(model := Some(ModelDesc(0)), optimizer := Some(Optimizer(0)),
                                     callbacks := CallbackList([]), nrTower := 4,
                                     predictTower := PredictScalar(2));
            var kwargs := map["dataset" := FlowValue(DataFlow(0, Some(100))), "step_per_epoch" := IntValue(50)];
            Configure(a, kwargs) ==
              Ok(Settings(Some(DataFlow(0, Some(100))), None, ModelDesc(0), Optimizer(0),
                          [StepCounter, MovingAverage, ProgressBar, StatPrinter], c,
                          JustCurrentSession, 50, 1, 99999, [0, 1, 2, 3], [2]))
  {
    var a := DefaultArgs(c).(model := Some(ModelDesc(0)), optimizer := Some(Optimizer(0)),
                             callbacks := CallbackList([]), nrTower := 4,
                             predictTower := PredictScalar(2));
    var kwargs := map["dataset" := FlowValue(DataFlow(0, Some(100))), "step_per_epoch" := IntValue(50)];
    var source := FromDataFlow(DataFlow(0, Some(100)));
    assert DataflowArg(a.dataflow, kwargs) == FlowValue(DataFlow(0, Some(100)));
    assert UserCallbacks(a.callbacks) == [] && Extras(a.extraCallbacks) == DefaultExtras();
    assert [StepCounter] + [] + DefaultExtras() == [StepCounter, MovingAverage, ProgressBar, StatPrinter];
    var afterDataset: Kwargs := map["step_per_epoch" := IntValue(50)];
    assert kwargs - {"dataset"} == afterDataset;
    var empty: Kwargs := map[];
    assert afterDataset - {"step_per_epoch"} == empty;
    assert ResolveSteps(a.stepsPerEpoch, afterDataset, source) == Ok(Steps(Some(50), empty));
    assert Range(4) == [0, 1, 2, 3];
    assert PlanSchedule(a, afterDataset, source) == Ok(Schedule(50, [0, 1, 2, 3], [2]));
  }

  /** Construction as most callers reach it: an `InputData` with a size, one
      callback of the caller's, custom extras, and an explicit `tower` under
      the default nr_tower=1 and predict_tower=[0]. */
  lemma InputDataCustomCallbacksExample(c: SessionConfig)
    ensures var a := DefaultArgs(c).(data := Some(InputData(0, Some(30))),
                                     model := Some(ModelDesc(0)), optimizer := Some(Optimizer(0)),
                                     callbacks := CallbackList([User(7)]),
                                     extraCallbacks := Some([User(8)]), tower := Some([3]));
            Configure(a, map[]) ==
              Ok(Settings(None, Some(InputData(0, Some(30))), ModelDesc(0), Optimizer(0),
                          [StepCounter, User(7), User(8)], c,
                          JustCurrentSession, 30, 1, 99999, [3], [0]))
  {
    var a := DefaultArgs(c).(data := Some(InputData(0, Some(30))),
                             model := Some(ModelDesc(0)), optimizer := Some(Optimizer(0)),
                             callbacks := CallbackList([User(7)]),
                             extraCallbacks := Some([User(8)]), tower := Some([3]));
    var source := FromInputData(InputData(0, Some(30)));
    assert SelectSource(DataflowArg(a.dataflow, map[]), a.data) == Ok(source);
    assert [StepCounter] + [User(7)] + [User(8)] == [StepCounter, User(7), User(8)];
    assert PrepareObjects(a, map[]).Ok?;
    var rest: Kwargs := map[];
    assert map[] - {"dataset"} == rest;
    assert ResolveSteps(a.stepsPerEpoch, rest, source) == Ok(Steps(Some(30), rest));
    assert NormalizeTower(a.nrTower, a.tower) == Ok([3]);
    assert PlanSchedule(a, rest, source) == Ok(Schedule(30, [3], [0]));
  }
}
