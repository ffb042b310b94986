# TrainConfig: a verified model of tensorpack's training configuration

tensorpack's `TrainConfig` gathers everything a trainer needs into one
object, validating it as it goes. That means the data source (a `DataFlow`
or an `InputData`), the model, the optimizer, the callbacks, the session
configuration and initialiser, the epoch and step counts, and the training
and prediction towers. Its constructor applies the deprecation shims
(`dataset=`, `step_per_epoch=`, a legacy `Callbacks` object), checks its
arguments, composes the callback list, resolves `steps_per_epoch` and
normalises the towers. Any failed check aborts construction. The `nr_tower`
property and the deprecated `set_tower` overwrite the tower list afterwards.

The model has four modules:

- `Wrappers` (`wrappers.dfy`): `Option`, `Result` and `Outcome`.
- `ConfigSpec` (`config_spec.dfy`): the arguments, the resulting fields and
  the errors as datatypes. It also holds the pure specification of
  construction. `Configure` runs two halves, `PrepareObjects` (source lines
  64-104) and `PlanSchedule` (lines 106-136), and each half is built from
  small stage functions (`SelectSource`, `ComposeCallbacks`, `ResolveSteps`,
  `NormalizeTower`, `Range`, `DropLast`). Some helpers carry no contract of
  their own and are covered by the lemmas over `Configure`:
  - `DefaultArgs` holds the keyword defaults of lines 26-33.
  - `DataflowArg` is the `dataset=` override of lines 64-65.
  - `UserCallbacks` is the list-or-legacy branch of lines 80-85.
  - `Extras` and `DefaultExtras` are the `extra_callbacks` default of lines
    87-91.
  - `PredictTowers` is the int-to-list conversion of lines 132-134.
- `TrainConfigClass` (`train_config.dfy`): the class `TrainConfig`.
  - `Init` is `__init__`. It assigns the fields step by step, pops keywords
    from a local copy of `kwargs`, and is proved to leave exactly the fields
    `Configure` computes, or to fail with the error `Configure` gives.
  - `SetNrTower`, `NrTower` and `SetTower` are the `nr_tower` setter, the
    getter and `set_tower`.
- `ConfigProperties` (`config_properties.dfy`): lemmas over `Configure` for
  the behaviour the constructor promises.

How the source is represented:

- Framework objects are opaque tokens: `ModelDesc`, the optimizer,
  `ConfigProto`, `SessionInit`, `DataFlow` and `InputData`. A data source
  carries `size: Option<int>`, where `None` means its `size()` raises
  `NotImplementedError`.
- A Python `None` argument is `None` in the model.
- `**kwargs` is a `map<string, Value>`. A value may be `None`, an int, a
  dataflow or any other object.
- Every `assert` (and every exception the code lets escape) is an `Error`
  constructor, in the order the source checks them.

Where the code and its documentation differ, the model follows the code:

- The explicit `tower` list is accepted only when `len(range(nr_tower)) == 1`.
  Line 127 goes through the property setter at lines 154-156, so `nr_tower`
  values of 0 or below fail together with `tower`, and not only values
  above 1.
- Nothing checks `starting_epoch`: line 123 only converts it with `int()`.
  Lemma `EpochBounds` shows that any value is accepted unchanged.
- When `size()` is not implemented, the failure comes from the comparison at
  line 125, not from a dedicated check. The model reports it as
  `StepsUndefined`.
- `callbacks` defaults to `None`, which fails the list check at line 86. So
  `callbacks` is in effect required, and `DefaultsFail` shows that the
  all-defaults call fails.

## Model

| member | source | states |
|---|---|---|
| ConfigSpec.Range | tensorpack/train/config.py:155-156 | `list(range(n))`: n elements (none when n <= 0), and element i is i |
| ConfigSpec.DropLast | tensorpack/train/config.py:85 | `cbs[:-1]`: putting the last element back gives the original list, and an empty list gives an empty list |
| ConfigSpec.SelectSource | tensorpack/train/config.py:67-75 | succeeds iff exactly one of a DataFlow and `data` is present; both present gives BothDataSources, neither gives NoInputData, a non-DataFlow value alone gives NotADataFlow; the kept source is the one given |
| ConfigSpec.ComposeCallbacks | tensorpack/train/config.py:80-93 | fails iff `callbacks` is not a list; otherwise StepCounter first, then the caller's callbacks, then the extras, with the matching length; a list `callbacks` gives exactly `[StepCounter] + callbacks + extra_callbacks`, or `+ [MovingAverage, ProgressBar, StatPrinter]` when the extras are None |
| ConfigSpec.ResolveSteps | tensorpack/train/config.py:106-121 | explicit value kept and kwargs untouched; otherwise `step_per_epoch` is popped and an int in it is used; otherwise the source's size (None if unimplemented); a non-integer legacy value is the only failure |
| ConfigSpec.NormalizeTower | tensorpack/train/config.py:127-130 | without `tower`: 0 .. nr_tower-1; with `tower`: succeeds iff nr_tower == 1, and then the list is kept unchanged |
| ConfigSpec.PrepareObjects | tensorpack/train/config.py:64-104 | succeeds iff one data source is selected and optimizer, callback list, model and session_config are all present; each missing object fails with its own error in the source's order; on success it stores the selected source and the given optimizer, model and session_config, callbacks start with StepCounter, and session_init defaults to JustCurrentSession |
| ConfigSpec.PlanSchedule | tensorpack/train/config.py:106-136 | on success the stored steps are those ResolveSteps finds (with no keyword left) and the towers those NormalizeTower gives, steps_per_epoch >= 0 and max_epoch > 0; an unknown-arguments error names exactly the keywords passed (less `step_per_epoch` when steps_per_epoch is None) |
| ConfigSpec.PlanScheduleSucceeds | tensorpack/train/config.py:106-136 | lines 106-136 get through iff steps_per_epoch resolves to a value >= 0, max_epoch > 0, the towers normalise and no keyword is left after `step_per_epoch` is popped |
| ConfigSpec.PlanScheduleErrors | tensorpack/train/config.py:106-136 | the error of lines 106-136 in source order: a non-integer legacy value gives StepsNotAnInteger, no steps value StepsUndefined, the bounds BoundsViolated, `tower` with nr_tower != 1 BothTowerForms, and any keyword still left UnknownArguments naming exactly those keywords |
| ConfigSpec.Configure | tensorpack/train/config.py:26-136 | on success exactly one data source is set, steps_per_epoch >= 0, max_epoch > 0, callbacks start with StepCounter, and no keyword other than `dataset`/`step_per_epoch` was passed (the converse is `ConfigureSucceeds`) |
| TrainConfigClass.TrainConfig.SetNrTower | tensorpack/train/config.py:150-156 | tower becomes `list(range(value))`, the getter `NrTower` (`len(self.tower)`) then reads back value for value >= 0, and no other field changes |
| TrainConfigClass.TrainConfig.DataSourceFields | tensorpack/train/config.py:67-75 | the `dataflow`/`data` fields are those of SelectSource and exactly one is set, or the same error |
| TrainConfigClass.TrainConfig.CallbackListOf | tensorpack/train/config.py:80-92 | fails iff callbacks is not a list; otherwise the list ComposeCallbacks gives |
| TrainConfigClass.TrainConfig.StepsPerEpochOf | tensorpack/train/config.py:106-121 | reading the stored source, returns what ResolveSteps gives (steps and the leftover keywords), or StepsNotAnInteger exactly when it fails |
| TrainConfigClass.TrainConfig.InitObjects | tensorpack/train/config.py:63-104 | `dataset` is popped; fails iff PrepareObjects fails, with its error; otherwise source, optimizer, callbacks, model and session fields are those of PrepareObjects |
| TrainConfigClass.TrainConfig.InitSchedule | tensorpack/train/config.py:106-136 | fails iff PlanSchedule fails, with its error; otherwise steps, epochs, tower and predict_tower are those of PlanSchedule and only those fields change |
| TrainConfigClass.TrainConfig.Init | tensorpack/train/config.py:26-136 | succeeds iff Configure does, fails with Configure's error, and on success establishes the object invariant with fields equal to Configure's result |
| TrainConfigClass.TrainConfig.Create | tensorpack/train/config.py:21-33 | `TrainConfig(...)` yields a fresh valid object exactly when Configure succeeds, else Configure's error |
| TrainConfigClass.TrainConfig.SetTower | tensorpack/train/config.py:138-148 | both arguments fail and leave tower unchanged; a non-zero nr_tower n gives 0 .. n-1; an int tower t gives 0 .. t-1; a list is stored unchanged; nothing (or nr_tower=0) stores None and fails; success keeps the object invariant |
| ConfigProperties.DataSourceExclusive | tensorpack/train/config.py:67-75 | both sources fail, neither fails; on success exactly one of dataflow/data is set and it is the one given |
| ConfigProperties.DatasetKeywordIsDataflow | tensorpack/train/config.py:64-66 | a `dataset=` keyword holding a DataFlow becomes the stored dataflow |
| ConfigProperties.DatasetKeywordDiscardsDataflow | tensorpack/train/config.py:64-66 | with a `dataset=` keyword, the `dataflow` argument has no effect on the outcome, whatever either holds |
| ConfigProperties.DatasetNoneMeansNoDataflow | tensorpack/train/config.py:64-75 | `dataset=None` behaves as a call with neither the keyword nor a `dataflow`, so `data` is the source |
| ConfigProperties.CallbacksComposed | tensorpack/train/config.py:86-92 | non-list callbacks fail; callbacks == [StepCounter] + user + extras, and for a list argument exactly `[StepCounter] + callbacks + extra_callbacks` (the three default extras when None); with default extras, length is user + 4 and the list ends MovingAverage, ProgressBar, StatPrinter |
| ConfigProperties.LegacyCallbacksDropLast | tensorpack/train/config.py:80-92 | a non-empty legacy Callbacks object contributes all its elements except the last, so the list has its length plus the extras; an empty one contributes nothing, leaving StepCounter and the extras |
| ConfigProperties.RequiredObjects | tensorpack/train/config.py:77-104 | a missing optimizer, model or session_config fails, with NoOptimizer, NoModel or NoSessionConfig in the source's order; success stores the given optimizer, model and session_config, and session_init or JustCurrentSession |
| ConfigProperties.StepsPerEpochResolved | tensorpack/train/config.py:106-121 | steps_per_epoch is the explicit value, else the legacy keyword's int, else the kept source's size() |
| ConfigProperties.UndefinedSizeFails | tensorpack/train/config.py:111-125 | with no explicit or legacy steps and an unimplemented size(), construction fails |
| ConfigProperties.EpochBounds | tensorpack/train/config.py:123-125 | on success steps_per_epoch >= 0 and max_epoch > 0; starting_epoch is stored as given, and changing it never changes whether construction succeeds |
| ConfigProperties.TowersNormalized | tensorpack/train/config.py:127-130 | without tower the list is 0 .. nr_tower-1; with tower success needs nr_tower == 1 and keeps the list; tower with nr_tower != 1 fails |
| ConfigProperties.PredictTowerNormalized | tensorpack/train/config.py:132-134 | an int predict_tower p becomes [p]; a list is kept |
| ConfigProperties.LeftoverKeywordsRejected | tensorpack/train/config.py:106-136 | any keyword other than `dataset`/`step_per_epoch` fails, and so does `step_per_epoch` together with steps_per_epoch; the unknown-arguments error names exactly the keys left after the two pops, so `dataset` (and `step_per_epoch` without steps_per_epoch) never causes it |
| ConfigProperties.ConfigureSucceeds | tensorpack/train/config.py:26-136 | construction succeeds iff every check passes: one data source, optimizer, callback list, model, session_config, no keyword but `dataset`/`step_per_epoch`, an accepted steps_per_epoch (`StepsAccepted`: the explicit value, else the legacy int, else size(), is >= 0, and the keyword only without an explicit value), max_epoch > 0, and an explicit tower only with nr_tower == 1 |
| ConfigProperties.LeftoverKeywordNamed | tensorpack/train/config.py:136 | a keyword no shim consumes, in a call that passes every other check, makes construction fail with UnknownArguments naming it |
| ConfigProperties.DefaultsFail | tensorpack/train/config.py:26-33 | all-default arguments fail (NoInputData unless `dataset=` is given) |
| ConfigProperties.FourTowerExample | tensorpack/train/config.py:26-136 | a sized dataflow with 4 towers and predict_tower=2 yields steps = size, towers [0,1,2,3], predict [2] and the default callback list |
| ConfigProperties.LegacyKeywordsExample | tensorpack/train/config.py:64-136 | the same configuration passed through `dataset=` and `step_per_epoch=50` succeeds with that dataflow and 50 steps: both shim keywords are consumed |
| ConfigProperties.InputDataCustomCallbacksExample | tensorpack/train/config.py:26-136 | an InputData of size 30 with callbacks [User(7)], extras [User(8)] and tower [3] under the default nr_tower and predict_tower yields steps 30, callbacks [StepCounter, User(7), User(8)], towers [3] and predict [0] |

## Left out

- `isinstance` checks against framework types are not modelled: DataFlow,
  InputData, ModelDesc, tf.train.Optimizer, tf.ConfigProto, SessionInit.
  Each argument has its right type by construction, and only `None` (or a
  wrong value under `dataset=`) fails them.
- The default session config is a parameter of `DefaultArgs`, because
  `get_default_sess_config()` is framework code. `JustCurrentSession()` is a
  token.
- The `Callbacks(...)` wrapper at line 94 is not modelled: the callbacks
  stay a `seq<Callback>`.
- The deprecation warnings and the logged exception are logging output and
  are not modelled.
- `int()` is not modelled for strings and floats: numeric inputs are `int`,
  so the coercion is the identity. A non-numeric `step_per_epoch` value
  fails.
- Python 2 and 3 fail differently at `None >= 0` on line 125. Both are the
  single error `StepsUndefined`.
- Argument values of other shapes are not modelled. These are:
  - a constructor `tower` that is not a list. `Args.tower` holds only a list
    of ints, but the source stores an int `tower` unchanged at line 130
    (unlike `set_tower`, which expands it at lines 145-146), and the
    `nr_tower` getter at line 152 would then raise;
  - a constructor `predict_tower` that is neither an int nor a list;
  - a non-list `extra_callbacks`;
  - a `set_tower` `tower` that is neither None, an int nor a list.
- The mutable default `predict_tower=[0]` is shared between instances.
  Aliasing is not captured because the lists are values.
- Init: says nothing about the fields of an object whose `__init__` failed,
  because such an object never reaches the caller.
