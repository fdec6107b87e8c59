/**
 * The PySINDy runner `runners/pysindy/run.py`: configuration layering, dt
 * resolution, model selection, coefficient extraction, and the warmup and
 * timed repetition loops of `main` with the record and exit code they yield.
 *
 * Everything outside the process is a parameter (`World`): the YAML and data
 * files, which paths exist, what `json.loads` makes of the override, the
 * outcome of each `fit` call in order, the successive readings of
 * `time.perf_counter_ns()`, and the environment variables.
 */
module PySindyRun {
  import opened Py
  import PosixPath
  import ConfigIO
  import DataIO

  // ---------------------------------------------------------------------------
  // Command line and world

  /**
   * The parsed command line. `dt` is `None` when `--dt` is not given, and
   * otherwise the text that argparse's `float` accepted, so it is always a float.
   */
  datatype Args = Args(
    methodName: string,
    system: string,
    caseId: string,
    datasetId: string,
    dataRoot: string,
    out: string,
    coefOut: string,
    rep: int,
    warmup: int,
    dt: Option<string>,
    overrideJson: string)

  /**
   * A fitted model as `extract_coef` probes it: `coefficients` is `None`
   * when the object has no such attribute, else what calling it gives;
   * `inner` is `None` without a `model` attribute, `Some(None)` when that
   * has no `coef_`.
   */
  datatype Fitted = Fitted(coefficients: Option<Result<DataIO.NdArray>>, inner: Option<Option<DataIO.NdArray>>)

  datatype World = World(
    yamlFiles: map<string, ConfigIO.YamlFile>,
    existing: set<string>,
    data: map<string, DataIO.Stored>,
    overrideDecoded: Result<Option<Dict>>,
    fit: nat -> Result<Fitted>,
    clock: nat -> int,
    runId: string,
    condaEnv: string)

  /** `range(n)` runs `n` times, and not at all for a negative `n`. */
  function Count(n: int): nat {
    if n < 0 then 0 else n
  }

  // ---------------------------------------------------------------------------
  // build_model

  datatype Differentiation = FiniteDifference | SmoothedFiniteDifference(alpha: Value)

  /** The pieces `build_model` hands to `ps.SINDy`: one accepted choice per selector. */
  datatype ModelConfig = ModelConfig(diff: Differentiation, degree: Value, includeBias: bool, threshold: Value)

  /** `cfg.get(key, {}) or {}`, which fails on the next `.get` when it is not a mapping. */
  function Section(cfg: Dict, key: string): (r: Result<Dict>)
    ensures key !in cfg ==> r == Ok(map[])
    ensures key in cfg && cfg[key].VMap? ==> r == Ok(cfg[key].m)
    ensures r.Err? <==> key in cfg && Truthy(cfg[key]) && !cfg[key].VMap?
  {
    var v := Get(cfg, key, VMap(map[]));
    if !Truthy(v) then Ok(map[])
    else if v.VMap? then Ok(v.m)
    else Err(Error("AttributeError", "'" + TypeName(v) + "' object has no attribute 'get'"))
  }

  /** `str(section.get("type", default))` for the section under `key`. */
  function Selector(cfg: Dict, key: string, default: string): (r: Result<string>)
    ensures (key !in cfg || (cfg[key].VMap? && "type" !in cfg[key].m)) ==> r == Ok(default)
    ensures key in cfg && cfg[key].VMap? && "type" in cfg[key].m && cfg[key].m["type"].VStr?
            ==> r == Ok(cfg[key].m["type"].s)
  {
    match Section(cfg, key)
    case Err(e) => Err(e)
    case Ok(section) => Ok(if "type" in section then PyStr(section["type"]) else default)
  }

  const Fd := "finite_difference"
  const Sfd := "smoothed_finite_difference"

  function UnknownDifferentiation(t: string): Error {
    Error("ValueError", "Unknown differentiation.type: " + t)
  }

  function UnknownLibrary(t: string): Error {
    Error("ValueError", "Minimal runner only implements polynomial library, got: " + t)
  }

  function UnknownOptimizer(t: string): Error {
    Error("ValueError", "Minimal runner only implements STLSQ, got: " + t)
  }

  /** `section.get(key, default)`, for a section already read. */
  function SectionValue(cfg: Dict, key: string, field: string, default: Value): Value
    requires Section(cfg, key).Ok?
  {
    Get(Section(cfg, key).value, field, default)
  }

  /**
   * `build_model(cfg)`: check the differentiation, library and optimizer
   * selectors in that order, and fail with a ValueError naming the first
   * one that is not implemented.
   */
  function BuildModel(cfg: Dict): Result<ModelConfig>
  {
    match Selector(cfg, "differentiation", Fd)
    case Err(e) => Err(e)
    case Ok(diffType) =>
      if diffType != Fd && diffType != Sfd then Err(UnknownDifferentiation(diffType))
      else
        var diff := if diffType == Fd then FiniteDifference
                    else SmoothedFiniteDifference(SectionValue(cfg, "differentiation", "alpha", VFloat("0.0")));
        match Selector(cfg, "library", "polynomial")
        case Err(e) => Err(e)
        case Ok(libType) =>
          if libType != "polynomial" then Err(UnknownLibrary(libType))
          else
            var degree := SectionValue(cfg, "library", "degree", VInt(3));
            var includeBias := Truthy(SectionValue(cfg, "library", "include_bias", VBool(false)));
            match Selector(cfg, "optimizer", "stlsq")
            case Err(e) => Err(e)
            case Ok(optType) =>
              if optType != "stlsq" then Err(UnknownOptimizer(optType))
              else Ok(ModelConfig(diff, degree, includeBias, SectionValue(cfg, "optimizer", "threshold", VFloat("0.1"))))
  }

  /**
   * What `build_model` accepts and what it picks: the three selectors, the
   * differentiation's alpha, the library's degree and bias, the threshold,
   * and the error for an unknown differentiation.
   */
  lemma BuildModelChoices(cfg: Dict)
    ensures BuildModel(cfg).Ok? <==>
      && Selector(cfg, "differentiation", Fd) in {Ok(Fd), Ok(Sfd)}
      && Selector(cfg, "library", "polynomial") == Ok("polynomial")
      && Selector(cfg, "optimizer", "stlsq") == Ok("stlsq")
    ensures BuildModel(cfg).Ok? ==> (BuildModel(cfg).value.diff.SmoothedFiniteDifference? <==> Selector(cfg, "differentiation", Fd) == Ok(Sfd))
    ensures BuildModel(cfg).Ok? ==> BuildModel(cfg).value.degree == SectionValue(cfg, "library", "degree", VInt(3))
    ensures BuildModel(cfg).Ok? ==> BuildModel(cfg).value.includeBias == Truthy(SectionValue(cfg, "library", "include_bias", VBool(false)))
    ensures BuildModel(cfg).Ok? ==> BuildModel(cfg).value.threshold == SectionValue(cfg, "optimizer", "threshold", VFloat("0.1"))
    ensures BuildModel(cfg).Ok? && BuildModel(cfg).value.diff.SmoothedFiniteDifference? ==>
      BuildModel(cfg).value.diff.alpha == SectionValue(cfg, "differentiation", "alpha", VFloat("0.0"))
    ensures (match Selector(cfg, "differentiation", Fd)
             case Ok(t) => t != Fd && t != Sfd ==> BuildModel(cfg) == Err(UnknownDifferentiation(t))
             case Err(e) => BuildModel(cfg) == Err(e))
  {
  }

  /** A valid differentiation selector lets a bad library selector through to its own error, and so on. */
  lemma BuildModelReportsFirstBadSelector(cfg: Dict)
    requires Selector(cfg, "differentiation", Fd) in {Ok(Fd), Ok(Sfd)}
    ensures var lib := Selector(cfg, "library", "polynomial");
      lib.Ok? && lib.value != "polynomial" ==> BuildModel(cfg) == Err(UnknownLibrary(lib.value))
    ensures var lib := Selector(cfg, "library", "polynomial");
      var opt := Selector(cfg, "optimizer", "stlsq");
      lib == Ok("polynomial") && opt.Ok? && opt.value != "stlsq" ==> BuildModel(cfg) == Err(UnknownOptimizer(opt.value))
  {
  }

  // ---------------------------------------------------------------------------
  // extract_coef

  function NoCoefficients(): Error {
    Error("AttributeError", NoCoefficientsMessage)
  }

  /** `extract_coef(model)`: `coefficients()` if the model has it, else `model.model.coef_`. */
  function ExtractCoef(m: Fitted): (r: Result<DataIO.NdArray>)
    ensures m.coefficients.Some? ==> r == m.coefficients.value
    ensures m.coefficients.None? ==> (r.Ok? <==> m.inner.Some? && m.inner.value.Some?)
    ensures m.coefficients.None? && r.Ok? ==> r.value == m.inner.value.value
    ensures m.coefficients.None? && r.Err? ==> r.error == NoCoefficients()
  {
    match m.coefficients
    case Some(result) => result
    case None =>
      if m.inner.Some? && m.inner.value.Some? then Ok(m.inner.value.value) else Err(NoCoefficients())
  }

  // ---------------------------------------------------------------------------
  // Configuration layering and dt

  /** `code_defaults` in `main`. */
  const CodeDefaults: Dict := map[
    "library" := VMap(map["type" := VStr("polynomial"), "degree" := VInt(3), "include_bias" := VBool(false)]),
    "optimizer" := VMap(map["type" := VStr("stlsq"), "threshold" := VFloat("0.1")]),
    "differentiation" := VMap(map["type" := VStr("finite_difference")])]

  function SystemDir(args: Args): string {
    PosixPath.Join(args.dataRoot, args.system)
  }

  /** `<system_dir>/configs/<method>.yaml`. */
  function MethodCfgPath(args: Args): string {
    PosixPath.Join(PosixPath.Join(SystemDir(args), "configs"), args.methodName + ".yaml")
  }

  // Messages of the exceptions `main` can record or raise.
  const DtRequiredMessage: string := "dt is required: provide --dt or set dt in system.yaml"
  const NoCoefficientsMessage: string := "Cannot find coefficients on this PySINDy model/version"
  const AbsOfNoneMessage: string := "bad operand type for abs(): 'NoneType'"

  function DtRequired(): Error {
    Error("ValueError", DtRequiredMessage)
  }

  /** What `main` has settled before its `try`. */
  datatype Prepared = Prepared(spec: DataIO.SystemSpec, dataPath: string, cfg: Dict, dt: Value)

  /** The per-system, per-method configuration file's content ({} when it is missing). */
  function MethodConfig(args: Args, world: World): Dict {
    ConfigIO.LoadYaml(world.yamlFiles, MethodCfgPath(args))
  }

  /** `load_json_override(args.config_override_json)`. */
  function Override(args: Args, world: World): Result<Option<Dict>> {
    ConfigIO.LoadJsonOverride(args.overrideJson, world.overrideDecoded)
  }

  /** The configuration before dt is added: code defaults, then the method file, then the override. */
  function Layered(args: Args, world: World): Result<Dict> {
    match Override(args, world)
    case Err(e) => Err(e)
    case Ok(override) => Ok(ConfigIO.Merged(ConfigIO.Merged(CodeDefaults, MethodConfig(args, world)), ConfigIO.OrEmpty(override)))
  }

  /** `args.dt if args.dt is not None else spec.dt_default`. */
  function ResolvedDt(args: Args, spec: DataIO.SystemSpec): Option<Value> {
    if args.dt.Some? then Some(VFloat(args.dt.value)) else spec.dtDefault
  }

  /** `main` up to the `try`: any exception here escapes before a record exists. */
  function Prepare(args: Args, world: World): Result<Prepared>
  {
    var spec := DataIO.LoadSystemSpec(SystemDir(args), world.yamlFiles);
    Settle(spec, DataIO.ResolvedPath(args.dataRoot, args.system, args.caseId, args.datasetId, world.existing),
      Layered(args, world), ResolvedDt(args, spec))
  }

  /** The order in which `main` meets the data path, the layered configuration and dt. */
  function Settle(spec: DataIO.SystemSpec, path: Result<string>, layered: Result<Dict>, dt: Option<Value>): Result<Prepared> {
    match path
    case Err(e) => Err(e)
    case Ok(dataPath) =>
      match layered
      case Err(e) => Err(e)
      case Ok(cfg) =>
        match dt
        case None => Err(DtRequired())
        case Some(dt) => Ok(Prepared(spec, dataPath, cfg["dt" := dt], dt))
  }

  // ---------------------------------------------------------------------------
  // The try block, as specification

  /**
   * One build, fit and extraction; `call` numbers the `fit` calls of the run
   * from 0. `build` is what `build_model(cfg)` gives, the same on every call
   * since `cfg` does not change.
   */
  function ModelRun(build: Result<ModelConfig>, world: World, call: nat): Result<DataIO.NdArray> {
    match build
    case Err(e) => Err(e)
    case Ok(_) =>
      match world.fit(call)
      case Err(e) => Err(e)
      case Ok(m) => ExtractCoef(m)
  }

  /** The first error of the first `n` warmup iterations. */
  function Warmups(n: nat, build: Result<ModelConfig>, world: World): Option<Error> {
    if n == 0 then None
    else
      var before := Warmups(n - 1, build, world);
      if before.Some? then before
      else match ModelRun(build, world, n - 1)
        case Err(e) => Some(e)
        case Ok(_) => None
  }

  /**
   * Repetition `k` reads the clock three times, readings 3k, 3k+1 and 3k+2:
   * before `build_model`, between it and `fit`, and after extraction.
   */
  function InitNs(world: World, k: nat): int {
    world.clock(3 * k + 1) - world.clock(3 * k)
  }

  function FitNs(world: World, k: nat): int {
    world.clock(3 * k + 2) - world.clock(3 * k + 1)
  }

  /** The init and fit durations of the first `m` repetitions, in order. */
  function InitTimes(m: nat, world: World): seq<int> {
    if m == 0 then [] else InitTimes(m - 1, world) + [InitNs(world, m - 1)]
  }

  function FitTimes(m: nat, world: World): seq<int> {
    if m == 0 then [] else FitTimes(m - 1, world) + [FitNs(world, m - 1)]
  }

  /**
   * The state after the first `n` timed repetitions: the first exception, how
   * many repetitions completed (each appended its two durations), and the
   * last coefficients.
   */
  datatype RepState = RepState(err: Option<Error>, done: nat, last: Option<DataIO.NdArray>)

  /** Repetition `k` makes fit call `warmup + k`. */
  function Reps(n: nat, warmup: nat, build: Result<ModelConfig>, world: World): RepState {
    if n == 0 then RepState(None, 0, None)
    else
      var s := Reps(n - 1, warmup, build, world);
      if s.err.Some? then s
      else match ModelRun(build, world, warmup + n - 1)
        case Err(e) => s.(err := Some(e))
        case Ok(c) => RepState(None, n, Some(c))
  }

  /** What `np.save(coef_out, last_coef)` left on disk. */
  datatype CoefFile = NoFile | Saved(coef: Option<DataIO.NdArray>)

  /** The record fields the try block fills in, and the coefficient file. */
  datatype TryState = TryState(
    err: Option<Error>, tInit: seq<int>, tFit: seq<int>,
    xShape: Option<seq<nat>>, coefShape: Option<seq<nat>>, coefFile: CoefFile)

  function AbsOfNone(): Error {
    Error("TypeError", AbsOfNoneMessage)
  }

  /**
   * The part of the `try` after the data is loaded and validated: warmups,
   * timed repetitions and the save, for the model `build` describes.
   */
  function Fitting(args: Args, world: World, shape: seq<nat>, build: Result<ModelConfig>): TryState {
    var w := Warmups(Count(args.warmup), build, world);
    if w.Some? then TryState(w, [], [], Some(shape), None, NoFile)
    else
      var s := Reps(Count(args.rep), Count(args.warmup), build, world);
      var tInit, tFit := InitTimes(s.done, world), FitTimes(s.done, world);
      if s.err.Some? then TryState(s.err, tInit, tFit, Some(shape), None, NoFile)
      else match s.last
        case None => TryState(Some(AbsOfNone()), tInit, tFit, Some(shape), Some([]), Saved(None))
        case Some(c) => TryState(None, tInit, tFit, Some(shape), Some(DataIO.Shape(c)), Saved(Some(c)))
  }

  function TrySpec(args: Args, world: World, p: Prepared): TryState {
    match DataIO.LoadX(p.dataPath, p.spec, world.data)
    case Err(e) => TryState(Some(e), [], [], None, None, NoFile)
    case Ok(x) =>
      match DataIO.ValidateX(x, p.spec)
      case Some(e) => TryState(Some(e), [], [], None, None, NoFile)
      case None => Fitting(args, world, DataIO.Shape(x), BuildModel(p.cfg))
  }

  // ---------------------------------------------------------------------------
  // The record

  /** The record fields fixed before the `try`. */
  datatype Header = Header(
    runId: string, methodName: string, env: string, system: string, caseId: string, datasetId: string,
    dataPath: string, methodCfgPath: string, cfg: Dict, rep: int, warmup: int, dtUsed: Value)

  /** One JSON line as written by `write_jsonl`. */
  datatype RecordView = RecordView(
    header: Header, tInitNs: seq<int>, tFitNs: seq<int>, ok: bool,
    errorType: Option<string>, errorMsg: Option<string>,
    xShape: Option<seq<nat>>, coefShape: Option<seq<nat>>)

  /** The `record` dict of `main`, updated in place as the run goes on. */
  class RunRecord {
    const header: Header
    var tInitNs: seq<int>
    var tFitNs: seq<int>
    var ok: bool
    var errorType: Option<string>
    var errorMsg: Option<string>
    var xShape: Option<seq<nat>>
    var coefShape: Option<seq<nat>>

    function View(): RecordView
      reads this
    {
      RecordView(header, tInitNs, tFitNs, ok, errorType, errorMsg, xShape, coefShape)
    }

    constructor (header: Header)
      ensures View() == RecordView(header, [], [], false, None, None, None, None)
    {
      this.header := header;
      tInitNs, tFitNs := [], [];
      ok := false;
      errorType, errorMsg := None, None;
      xShape, coefShape := None, None;
    }
  }

  function HeaderOf(args: Args, world: World, p: Prepared): Header {
    Header(world.runId, args.methodName, world.condaEnv, args.system, args.caseId, args.datasetId,
           p.dataPath, MethodCfgPath(args), p.cfg, args.rep, args.warmup, p.dt)
  }

  /** How `main` ends: an exception escaping it, or an exit code; and what it wrote. */
  datatype Outcome = Outcome(status: Result<int>, written: seq<RecordView>, coefFile: CoefFile)

  /** The record `main` writes once the `try` has ended as `t` says, and how `main` then exits. */
  function Report(h: Header, t: TryState): Outcome {
    var view := RecordView(h, t.tInit, t.tFit, t.err.None?,
                           if t.err.Some? then Some(t.err.value.name) else None,
                           if t.err.Some? then Some(t.err.value.msg) else None,
                           t.xShape, t.coefShape);
    Outcome(Ok(if t.err.None? then 0 else 2), [view], t.coefFile)
  }

  /** What `main` does, as a function of the command line and the world. */
  function RunSpec(args: Args, world: World): Outcome
  {
    match Prepare(args, world)
    case Err(e) => Outcome(Err(e), [], NoFile)
    case Ok(p) => Report(HeaderOf(args, world, p), TrySpec(args, world, p))
  }

  // ---------------------------------------------------------------------------
  // main, step by step

  /** The untimed warmup loop: build, fit and extract `n` times, stopping at the first exception. */
  method WarmupLoop(n: nat, cfg: Dict, world: World) returns (err: Option<Error>)
    ensures err == Warmups(n, BuildModel(cfg), world)
  {
    var i := 0;
    err := None;
    while i < n
      invariant 0 <= i <= n
      invariant err.None? && Warmups(i, BuildModel(cfg), world).None?
    {
      var m := BuildModel(cfg);
      if m.Err? {
        err := Some(m.error);
        WarmupsStick(i + 1, n, BuildModel(cfg), world);
        return;
      }
      var fitted := world.fit(i);
      if fitted.Err? {
        err := Some(fitted.error);
        WarmupsStick(i + 1, n, BuildModel(cfg), world);
        return;
      }
      var coef := ExtractCoef(fitted.value);
      if coef.Err? {
        err := Some(coef.error);
        WarmupsStick(i + 1, n, BuildModel(cfg), world);
        return;
      }
      i := i + 1;
    }
  }

  /**
   * One timed repetition: read the clock around model construction and
   * around fit plus extraction. The readings are those of repetition `k`.
   */
  method TimedRun(k: nat, warmup: nat, cfg: Dict, world: World)
      returns (coef: Result<DataIO.NdArray>, tInit: int, tFit: int)
    ensures coef == ModelRun(BuildModel(cfg), world, warmup + k)
    ensures coef.Ok? ==> tInit == InitNs(world, k) && tFit == FitNs(world, k)
  {
    tInit, tFit := 0, 0;
    var t0 := world.clock(3 * k);
    var m := BuildModel(cfg);
    if m.Err? {
      return Err(m.error), tInit, tFit;
    }
    var t1 := world.clock(3 * k + 1);
    var fitted := world.fit(warmup + k);
    if fitted.Err? {
      return Err(fitted.error), tInit, tFit;
    }
    coef := ExtractCoef(fitted.value);
    var t2 := world.clock(3 * k + 2);
    tInit, tFit := t1 - t0, t2 - t1;
  }

  /**
   * The timed loop: append both durations of each repetition to the record
   * and keep its coefficients, stopping at the first exception.
   */
  method RepLoop(n: nat, warmup: nat, cfg: Dict, world: World, record: RunRecord)
      returns (err: Option<Error>, last: Option<DataIO.NdArray>)
    requires record.tInitNs == [] && record.tFitNs == []
    modifies record`tInitNs, record`tFitNs
    ensures var s := Reps(n, warmup, BuildModel(cfg), world);
      && err == s.err && last == s.last
      && record.tInitNs == InitTimes(s.done, world) && record.tFitNs == FitTimes(s.done, world)
  {
    ghost var build := BuildModel(cfg);
    var i := 0;
    err, last := None, None;
    while i < n
      invariant 0 <= i <= n
      invariant Reps(i, warmup, build, world) == RepState(None, i, last)
      invariant record.tInitNs == InitTimes(i, world) && record.tFitNs == FitTimes(i, world)
    {
      var coef, tInit, tFit := TimedRun(i, warmup, cfg, world);
      RepsAdvance(i, n, warmup, build, world, coef);
      if coef.Err? {
        return Some(coef.error), last;
      }
      record.tInitNs := record.tInitNs + [tInit];
      record.tFitNs := record.tFitNs + [tFit];
      last := Some(coef.value);
      i := i + 1;
    }
  }

  /** Warmups, timed repetitions and the save: the `try` after validation. */
  method FitBlock(args: Args, world: World, shape: seq<nat>, cfg: Dict, record: RunRecord)
      returns (err: Option<Error>, coefFile: CoefFile)
    requires record.tInitNs == [] && record.tFitNs == [] && !record.ok && record.coefShape.None?
    modifies record`tInitNs, record`tFitNs, record`coefShape, record`ok
    ensures var t := Fitting(args, world, shape, BuildModel(cfg));
      && err == t.err && coefFile == t.coefFile && record.ok == err.None?
      && record.tInitNs == t.tInit && record.tFitNs == t.tFit && record.coefShape == t.coefShape
  {
    coefFile := NoFile;
    err := WarmupLoop(Count(args.warmup), cfg, world);
    if err.Some? {
      return;
    }
    var last;
    err, last := RepLoop(Count(args.rep), Count(args.warmup), cfg, world, record);
    if err.Some? {
      return;
    }
    coefFile := Saved(last);
    if last.None? {
      record.coefShape := Some([]);
      err := Some(AbsOfNone());
      return;
    }
    record.coefShape := Some(DataIO.Shape(last.value));
    record.ok := true;
  }

  /** The body of the `try`: returns the exception it raised, if any, and what was saved. */
  method TryBlock(args: Args, world: World, p: Prepared, record: RunRecord) returns (err: Option<Error>, coefFile: CoefFile)
    requires record.View() == RecordView(record.header, [], [], false, None, None, None, None)
    modifies record`tInitNs, record`tFitNs, record`xShape, record`coefShape, record`ok
    ensures var t := TrySpec(args, world, p);
      && err == t.err && coefFile == t.coefFile && record.ok == err.None?
      && record.tInitNs == t.tInit && record.tFitNs == t.tFit
      && record.xShape == t.xShape && record.coefShape == t.coefShape
  {
    var x := DataIO.LoadX(p.dataPath, p.spec, world.data);
    if x.Err? {
      assert TrySpec(args, world, p) == TryState(Some(x.error), [], [], None, None, NoFile);
      return Some(x.error), NoFile;
    }
    var invalid := DataIO.ValidateX(x.value, p.spec);
    if invalid.Some? {
      assert TrySpec(args, world, p) == TryState(invalid, [], [], None, None, NoFile);
      return invalid, NoFile;
    }
    var shape := DataIO.Shape(x.value);
    assert TrySpec(args, world, p) == Fitting(args, world, shape, BuildModel(p.cfg));
    record.xShape := Some(shape);
    err, coefFile := FitBlock(args, world, shape, p.cfg, record);
  }

  /** `main` up to its `try`: load the spec, locate the data, layer the configuration, settle dt. */
  method PrepareRun(args: Args, world: World) returns (r: Result<Prepared>)
    ensures r == Prepare(args, world)
  {
    var spec := DataIO.LoadSystemSpec(SystemDir(args), world.yamlFiles);
    var dataPath := DataIO.ResolveDataPath(args.dataRoot, args.system, args.caseId, args.datasetId, world.existing);
    if dataPath.Err? {
      return Err(dataPath.error);
    }
    var methodCfg := ConfigIO.LoadYaml(world.yamlFiles, MethodCfgPath(args));
    var cfg := ConfigIO.DeepMerge(CodeDefaults, Some(methodCfg));
    var override := ConfigIO.LoadJsonOverride(args.overrideJson, world.overrideDecoded);
    if override.Err? {
      return Err(override.error);
    }
    cfg := ConfigIO.DeepMerge(cfg, override.value);
    var dt := if args.dt.Some? then Some(VFloat(args.dt.value)) else spec.dtDefault;
    if dt.None? {
      return Err(DtRequired());
    }
    cfg := cfg["dt" := dt.value];
    return Ok(Prepared(spec, dataPath.value, cfg, dt.value));
  }

  /** `main` from the record on: the `try`, the `except`, the single write and the exit code. */
  method RecordRun(args: Args, world: World, p: Prepared) returns (outcome: Outcome)
    ensures outcome == Report(HeaderOf(args, world, p), TrySpec(args, world, p))
  {
    var record := new RunRecord(HeaderOf(args, world, p));
    var err, coefFile := TryBlock(args, world, p, record);
    if err.Some? {
      record.ok := false;
      record.errorType := Some(err.value.name);
      record.errorMsg := Some(err.value.msg);
    }
    outcome := Outcome(Ok(if err.None? then 0 else 2), [record.View()], coefFile);
  }

  /** `main()`: prepare, then record the run; an exception before the record exists escapes. */
  method RunHarness(args: Args, world: World) returns (outcome: Outcome)
    ensures outcome == RunSpec(args, world)
  {
    var prepared := PrepareRun(args, world);
    if prepared.Err? {
      return Outcome(Err(prepared.error), [], NoFile);
    }
    outcome := RecordRun(args, world, prepared.value);
  }

  // ---------------------------------------------------------------------------
  // Loop lemmas

  /** Once a warmup iteration has raised, later iterations never run. */
  lemma {:induction false} WarmupsStick(i: nat, n: nat, build: Result<ModelConfig>, world: World)
    requires i <= n && Warmups(i, build, world).Some?
    ensures Warmups(n, build, world) == Warmups(i, build, world)
    decreases n - i
  {
    if i < n {
      WarmupsStick(i, n - 1, build, world);
    }
  }

  /** Once a repetition has raised, the durations and coefficients stay as they were. */
  lemma {:induction false} RepsStick(i: nat, n: nat, warmup: nat, build: Result<ModelConfig>, world: World)
    requires i <= n && Reps(i, warmup, build, world).err.Some?
    ensures Reps(n, warmup, build, world) == Reps(i, warmup, build, world)
    decreases n - i
  {
    if i < n {
      RepsStick(i, n - 1, warmup, build, world);
    }
  }

  /** One more repetition, given what it returned. */
  lemma RepsNext(i: nat, warmup: nat, build: Result<ModelConfig>, world: World, coef: Result<DataIO.NdArray>)
    requires Reps(i, warmup, build, world).err.None? && coef == ModelRun(build, world, warmup + i)
    ensures var s := Reps(i, warmup, build, world);
      Reps(i + 1, warmup, build, world)
        == if coef.Err? then s.(err := Some(coef.error)) else RepState(None, i + 1, Some(coef.value))
  {
  }

  /** What the timed loop needs of one repetition: how the state moves on, or stays once it raised. */
  lemma RepsAdvance(i: nat, n: nat, warmup: nat, build: Result<ModelConfig>, world: World, coef: Result<DataIO.NdArray>)
    requires i < n && Reps(i, warmup, build, world).err.None? && coef == ModelRun(build, world, warmup + i)
    ensures coef.Err? ==> Reps(n, warmup, build, world) == Reps(i, warmup, build, world).(err := Some(coef.error))
    ensures coef.Ok? ==> Reps(i + 1, warmup, build, world) == RepState(None, i + 1, Some(coef.value))
    ensures InitTimes(i + 1, world) == InitTimes(i, world) + [InitNs(world, i)]
    ensures FitTimes(i + 1, world) == FitTimes(i, world) + [FitNs(world, i)]
  {
    RepsNext(i, warmup, build, world, coef);
    if coef.Err? {
      RepsStick(i + 1, n, warmup, build, world);
    }
  }

  /**
   * No more repetitions complete than are run; when none raised, all of them
   * completed, and coefficients are kept exactly when at least one ran.
   */
  lemma {:induction false} RepsTimings(n: nat, warmup: nat, build: Result<ModelConfig>, world: World)
    ensures var s := Reps(n, warmup, build, world);
      && s.done <= n
      && (s.err.None? ==> s.done == n && (n > 0 <==> s.last.Some?))
  {
    if n > 0 {
      RepsTimings(n - 1, warmup, build, world);
      if Reps(n - 1, warmup, build, world).err.None? {
        RepsNext(n - 1, warmup, build, world, ModelRun(build, world, warmup + n - 1));
      }
    }
  }

  /** Duration k of `InitTimes` and `FitTimes` comes from the readings of repetition k. */
  lemma {:induction false} TimesAt(m: nat, world: World)
    ensures |InitTimes(m, world)| == |FitTimes(m, world)| == m
    ensures forall k :: 0 <= k < m ==> InitTimes(m, world)[k] == InitNs(world, k) && FitTimes(m, world)[k] == FitNs(world, k)
  {
    if m > 0 {
      TimesAt(m - 1, world);
    }
  }

  /** The coefficients kept are those of the final repetition, whichever came before. */
  lemma RepsKeepLast(n: nat, warmup: nat, build: Result<ModelConfig>, world: World)
    requires n > 0 && Reps(n, warmup, build, world).err.None?
    ensures Reps(n, warmup, build, world).last == Some(ModelRun(build, world, warmup + n - 1).value)
    ensures ModelRun(build, world, warmup + n - 1).Ok?
  {
  }

  /** A model that cannot be built fails every warmup iteration that runs. */
  lemma {:induction false} WarmupsOfFailedBuild(n: nat, e: Error, world: World)
    requires n > 0
    ensures Warmups(n, Err(e), world) == Some(e)
  {
    if n > 1 {
      WarmupsOfFailedBuild(n - 1, e, world);
    }
  }

  /** ... and the first timed repetition, before any duration is recorded. */
  lemma {:induction false} RepsOfFailedBuild(n: nat, warmup: nat, e: Error, world: World)
    requires n > 0
    ensures Reps(n, warmup, Err(e), world) == RepState(Some(e), 0, None)
  {
    if n > 1 {
      RepsOfFailedBuild(n - 1, warmup, e, world);
    }
  }

  // ---------------------------------------------------------------------------
  // What a run promises

  /** `cfg[section][key]`, when both levels are there. */
  function Lookup(cfg: Dict, section: string, key: string): Option<Value> {
    if section in cfg && cfg[section].VMap? && key in cfg[section].m then Some(cfg[section].m[key]) else None
  }

  /** A layer either leaves `section` out or gives it as a mapping. */
  predicate SectionIsMap(cfg: Dict, section: string) {
    section in cfg ==> cfg[section].VMap?
  }

  /** The value at `cfg[section][key]`, if any, is not itself a mapping. */
  predicate ScalarAt(cfg: Dict, section: string, key: string) {
    Lookup(cfg, section, key).None? || !Lookup(cfg, section, key).value.VMap?
  }

  /** One `deep_merge`: the override's scalar at `[section][key]` wins; where it has none, the base's stays. */
  lemma MergeLookup(base: Dict, override: Dict, section: string, key: string)
    requires section in base && base[section].VMap? && SectionIsMap(override, section)
    requires ScalarAt(override, section, key)
    ensures var cfg := ConfigIO.Merged(base, override);
      && section in cfg && cfg[section].VMap?
      && Lookup(cfg, section, key)
           == if Lookup(override, section, key).Some? then Lookup(override, section, key) else Lookup(base, section, key)
  {
    var cfg := ConfigIO.Merged(base, override);
    assert section in cfg;
    if section in override {
      var inner := ConfigIO.Merged(base[section].m, override[section].m);
      assert cfg[section] == VMap(inner);
      if key in override[section].m {
        assert key in inner && inner[key] == override[section].m[key];
      } else if key in base[section].m {
        assert key in inner && inner[key] == base[section].m[key];
      } else {
        assert key !in inner;
      }
    } else {
      assert cfg[section] == base[section];
    }
  }

  /**
   * Layering `defaults`, then `methodCfg`, then `override`: a key of a
   * section takes the override's value if it has one, else the method
   * configuration's, else the default.
   */
  lemma ThreeLayerPrecedence(defaults: Dict, methodCfg: Dict, override: Dict, section: string, key: string)
    requires section in defaults && defaults[section].VMap?
    requires SectionIsMap(methodCfg, section) && SectionIsMap(override, section)
    requires ScalarAt(methodCfg, section, key) && ScalarAt(override, section, key)
    ensures var cfg := ConfigIO.Merged(ConfigIO.Merged(defaults, methodCfg), override);
      Lookup(cfg, section, key)
        == if Lookup(override, section, key).Some? then Lookup(override, section, key)
           else if Lookup(methodCfg, section, key).Some? then Lookup(methodCfg, section, key)
           else Lookup(defaults, section, key)
  {
    MergeLookup(defaults, methodCfg, section, key);
    MergeLookup(ConfigIO.Merged(defaults, methodCfg), override, section, key);
  }

  /**
   * In `main` the three layers are the code defaults, the system's method
   * configuration and the JSON override.
   */
  lemma ConfigPrecedence(args: Args, world: World, section: string, key: string)
    requires Override(args, world).Ok? && section in CodeDefaults
    requires var override := ConfigIO.OrEmpty(Override(args, world).value);
      && SectionIsMap(MethodConfig(args, world), section) && SectionIsMap(override, section)
      && ScalarAt(MethodConfig(args, world), section, key) && ScalarAt(override, section, key)
    ensures var override := ConfigIO.OrEmpty(Override(args, world).value);
      var methodCfg := MethodConfig(args, world);
      && Layered(args, world).Ok?
      && Lookup(Layered(args, world).value, section, key)
           == if Lookup(override, section, key).Some? then Lookup(override, section, key)
              else if Lookup(methodCfg, section, key).Some? then Lookup(methodCfg, section, key)
              else Lookup(CodeDefaults, section, key)
  {
    ThreeLayerPrecedence(CodeDefaults, MethodConfig(args, world), ConfigIO.OrEmpty(Override(args, world).value), section, key);
  }

  /** `main` settles `Prepare` in the order `Settle` gives: data path, layered configuration, dt. */
  lemma PrepareSettles(args: Args, world: World)
    ensures var spec := DataIO.LoadSystemSpec(SystemDir(args), world.yamlFiles);
      Prepare(args, world)
        == Settle(spec, DataIO.ResolvedPath(args.dataRoot, args.system, args.caseId, args.datasetId, world.existing),
                  Layered(args, world), ResolvedDt(args, spec))
  {
  }

  /**
   * Before the `try`, the data path is settled first, then the layered
   * configuration (whose only failure is the override's), then dt; the first
   * failure is the one that escapes.
   */
  lemma PrepareOrder(args: Args, world: World)
    ensures var path := DataIO.ResolvedPath(args.dataRoot, args.system, args.caseId, args.datasetId, world.existing);
      && (path.Err? ==> Prepare(args, world) == Err(path.error))
      && (path.Ok? && Override(args, world).Err? ==> Prepare(args, world) == Err(Override(args, world).error))
      && (path.Ok? && Override(args, world).Ok?
          && ResolvedDt(args, DataIO.LoadSystemSpec(SystemDir(args), world.yamlFiles)).None?
          ==> Prepare(args, world) == Err(DtRequired()))
  {
    PrepareSettles(args, world);
  }

  /** A missing dataset raises before the `try`: no record and no coefficient file are written. */
  lemma DatasetMissingEscapes(args: Args, world: World)
    ensures var path := DataIO.ResolvedPath(args.dataRoot, args.system, args.caseId, args.datasetId, world.existing);
      path.Err? ==> RunSpec(args, world) == Outcome(Err(path.error), [], NoFile)
  {
    PrepareOrder(args, world);
  }

  /** An override that fails to decode raises before the `try`, once the dataset is found. */
  lemma OverrideFailureEscapes(args: Args, world: World)
    ensures DataIO.ResolvedPath(args.dataRoot, args.system, args.caseId, args.datasetId, world.existing).Ok?
      && Override(args, world).Err?
      ==> RunSpec(args, world) == Outcome(Err(Override(args, world).error), [], NoFile)
  {
    PrepareOrder(args, world);
  }

  /** dt comes from `--dt` when given, else from `system.yaml`. */
  lemma DtPrecedence(args: Args, world: World)
    ensures Prepare(args, world).Ok? ==>
      Prepare(args, world).value.dt
        == if args.dt.Some? then VFloat(args.dt.value)
           else DataIO.LoadSystemSpec(SystemDir(args), world.yamlFiles).dtDefault.value
  {
    PrepareSettles(args, world);
  }

  /** The dt settled on is added to the layered configuration under the key "dt". */
  lemma DtAddedToConfig(args: Args, world: World)
    ensures Prepare(args, world).Ok? ==>
      Layered(args, world).Ok?
      && Prepare(args, world).value.cfg == Layered(args, world).value["dt" := Prepare(args, world).value.dt]
  {
    PrepareSettles(args, world);
  }

  /**
   * With neither `--dt` nor a dt in `system.yaml`, `main` raises before its
   * `try`, so nothing is written and no exit code is returned.
   */
  lemma DtRequiredEscapes(args: Args, world: World)
    ensures var spec := DataIO.LoadSystemSpec(SystemDir(args), world.yamlFiles);
      args.dt.None? && spec.dtDefault.None?
      && DataIO.ResolvedPath(args.dataRoot, args.system, args.caseId, args.datasetId, world.existing).Ok?
      && ConfigIO.LoadJsonOverride(args.overrideJson, world.overrideDecoded).Ok?
      ==> RunSpec(args, world) == Outcome(Err(DtRequired()), [], NoFile)
  {
    var spec := DataIO.LoadSystemSpec(SystemDir(args), world.yamlFiles);
    if args.dt.None? && spec.dtDefault.None? {
      assert ResolvedDt(args, spec).None?;
      PrepareSettles(args, world);
      assert Prepare(args, world).Err?;
    }
  }

  /**
   * An exception before the `try` escapes `main` and nothing is written;
   * otherwise exactly one record is written, and the exit code is 0 when it
   * says `ok` and 2, with the exception's class name and message, when not.
   */
  lemma OutcomeAndRecord(args: Args, world: World)
    ensures var o := RunSpec(args, world);
      && (o.status.Err? <==> Prepare(args, world).Err?)
      && (o.status.Err? ==> o.status.error == Prepare(args, world).error && o.written == [] && o.coefFile == NoFile)
      && (o.status.Ok? ==> |o.written| == 1 && (o.status.value == 0 || o.status.value == 2))
      && (o.status.Ok? ==> (o.status.value == 0 <==> o.written[0].ok))
      && (o.status.Ok? && o.written[0].ok ==> o.written[0].errorType.None? && o.written[0].errorMsg.None?)
    ensures Prepare(args, world).Ok? ==>
      var o, t := RunSpec(args, world), TrySpec(args, world, Prepare(args, world).value);
      && o.status.Ok? && |o.written| == 1
      && (o.written[0].ok <==> t.err.None?)
      && (t.err.Some? ==>
            o.written[0].errorType == Some(t.err.value.name) && o.written[0].errorMsg == Some(t.err.value.msg))
      && o.coefFile == t.coefFile
  {
    match Prepare(args, world)
    case Err(e) =>
    case Ok(p) =>
      var t := TrySpec(args, world, p);
      assert RunSpec(args, world) == Report(HeaderOf(args, world, p), t);
      ReportNamesError(HeaderOf(args, world, p), t);
  }

  /** The record names the exception the `try` ended with, by class name and message. */
  lemma ReportNamesError(h: Header, t: TryState)
    ensures var o := Report(h, t);
      && o.status.Ok? && |o.written| == 1
      && (o.status.value == 0 <==> o.written[0].ok)
      && (o.written[0].ok <==> t.err.None?)
      && (o.status.value == 0 || o.status.value == 2)
      && (t.err.None? ==> o.written[0].errorType.None? && o.written[0].errorMsg.None?)
      && (t.err.Some? ==>
            o.written[0].errorType == Some(t.err.value.name) && o.written[0].errorMsg == Some(t.err.value.msg))
      && o.coefFile == t.coefFile
  {
  }

  /**
   * After validation the `try` records as many init as fit durations, at
   * most one per repetition, each taken from its own repetition's clock
   * readings.
   */
  lemma FittingTimings(args: Args, world: World, shape: seq<nat>, build: Result<ModelConfig>)
    ensures var t := Fitting(args, world, shape, build);
      |t.tInit| == |t.tFit| <= Count(args.rep)
    ensures var t := Fitting(args, world, shape, build);
      forall k :: 0 <= k < |t.tInit| ==> t.tInit[k] == InitNs(world, k) && t.tFit[k] == FitNs(world, k)
  {
    var n, warmup := Count(args.rep), Count(args.warmup);
    var s := Reps(n, warmup, build, world);
    RepsTimings(n, warmup, build, world);
    TimesAt(s.done, world);
  }

  /**
   * When the part after validation raises nothing there is one init and one
   * fit duration per repetition, none for the warmup, and the file holds the
   * coefficients of the final repetition.
   */
  lemma FittingSucceeds(args: Args, world: World, shape: seq<nat>, build: Result<ModelConfig>)
    requires Fitting(args, world, shape, build).err.None?
    ensures var t := Fitting(args, world, shape, build);
      && args.rep > 0
      && |t.tInit| == |t.tFit| == args.rep
      && (forall k :: 0 <= k < args.rep ==> t.tInit[k] == InitNs(world, k) && t.tFit[k] == FitNs(world, k))
    ensures var t := Fitting(args, world, shape, build);
      var lastRun := ModelRun(build, world, Count(args.warmup) + args.rep - 1);
      lastRun.Ok? && t.coefFile == Saved(Some(lastRun.value)) && t.coefShape == Some(DataIO.Shape(lastRun.value))
  {
    var n, warmup := Count(args.rep), Count(args.warmup);
    var s := Reps(n, warmup, build, world);
    assert Warmups(warmup, build, world).None? && s.err.None? && s.last.Some?;
    RepsTimings(n, warmup, build, world);
    RepsKeepLast(n, warmup, build, world);
    TimesAt(n, world);
    var c := s.last.value;
    assert Fitting(args, world, shape, build)
        == TryState(None, InitTimes(n, world), FitTimes(n, world), Some(shape), Some(DataIO.Shape(c)), Saved(Some(c)));
  }

  /** The whole `try` keeps the durations paired, and nothing is timed unless the data loads and validates. */
  lemma TryTimings(args: Args, world: World, p: Prepared)
    ensures var t := TrySpec(args, world, p);
      |t.tInit| == |t.tFit| <= Count(args.rep)
    ensures var t := TrySpec(args, world, p);
      t.xShape.None? ==> t.err.Some? && t.tInit == []
  {
    var x := DataIO.LoadX(p.dataPath, p.spec, world.data);
    if x.Ok? && DataIO.ValidateX(x.value, p.spec).None? {
      var build := BuildModel(p.cfg);
      var shape := DataIO.Shape(x.value);
      FittingTimings(args, world, shape, build);
      assert TrySpec(args, world, p) == Fitting(args, world, shape, build);
      assert Fitting(args, world, shape, build).xShape == Some(shape);
    } else {
      assert TrySpec(args, world, p).tInit == [] && TrySpec(args, world, p).tFit == [];
    }
  }

  /** A `try` that raises nothing leaves the record and the coefficient file as `FittingSucceeds` describes. */
  lemma SuccessfulRecord(args: Args, world: World, p: Prepared)
    requires TrySpec(args, world, p).err.None?
    ensures var r := Report(HeaderOf(args, world, p), TrySpec(args, world, p)).written[0];
      && args.rep > 0
      && |r.tInitNs| == |r.tFitNs| == args.rep
      && (forall k :: 0 <= k < args.rep ==> r.tInitNs[k] == InitNs(world, k) && r.tFitNs[k] == FitNs(world, k))
    ensures var o := Report(HeaderOf(args, world, p), TrySpec(args, world, p));
      var lastRun := ModelRun(BuildModel(p.cfg), world, Count(args.warmup) + args.rep - 1);
      && lastRun.Ok?
      && o.coefFile == Saved(Some(lastRun.value))
      && o.written[0].coefShape == Some(DataIO.Shape(lastRun.value))
  {
    var x := DataIO.LoadX(p.dataPath, p.spec, world.data).value;
    var build := BuildModel(p.cfg);
    var t := Fitting(args, world, DataIO.Shape(x), build);
    assert TrySpec(args, world, p) == t;
    FittingSucceeds(args, world, DataIO.Shape(x), build);
    var o := Report(HeaderOf(args, world, p), t);
    assert o.coefFile == t.coefFile && o.written[0].tInitNs == t.tInit && o.written[0].tFitNs == t.tFit;
  }

  /** On success (exit code 0) the record and the coefficient file are as `SuccessfulRecord` describes. */
  lemma SuccessfulRun(args: Args, world: World)
    requires RunSpec(args, world).status == Ok(0)
    ensures var r := RunSpec(args, world).written[0];
      && args.rep > 0
      && |r.tInitNs| == |r.tFitNs| == args.rep
      && (forall k :: 0 <= k < args.rep ==> r.tInitNs[k] == InitNs(world, k) && r.tFitNs[k] == FitNs(world, k))
    ensures var p := Prepare(args, world).value;
      var lastRun := ModelRun(BuildModel(p.cfg), world, Count(args.warmup) + args.rep - 1);
      && lastRun.Ok?
      && RunSpec(args, world).coefFile == Saved(Some(lastRun.value))
      && RunSpec(args, world).written[0].coefShape == Some(DataIO.Shape(lastRun.value))
  {
    SuccessfulRecord(args, world, Prepare(args, world).value);
  }

  /**
   * A selector `build_model` refuses is reported (exit 2, its ValueError in
   * the record) when a warmup or a repetition runs; with neither, the model
   * is never built and the run fails instead on the absent coefficients.
   */
  lemma BadSelectorReported(args: Args, world: World)
    requires Prepare(args, world).Ok?
    requires var p := Prepare(args, world).value;
      && DataIO.LoadX(p.dataPath, p.spec, world.data).Ok?
      && DataIO.ValidateX(DataIO.LoadX(p.dataPath, p.spec, world.data).value, p.spec).None?
      && BuildModel(p.cfg).Err?
    ensures var o := RunSpec(args, world);
      var e := BuildModel(Prepare(args, world).value.cfg).error;
      && o.status == Ok(2)
      && (Count(args.warmup) + Count(args.rep) > 0 ==>
            o.written[0].errorType == Some(e.name) && o.written[0].errorMsg == Some(e.msg)
            && o.written[0].tInitNs == [] && o.coefFile == NoFile)
      && (Count(args.warmup) + Count(args.rep) == 0 ==>
            o.written[0].errorType == Some("TypeError") && o.coefFile == Saved(None))
  {
    var p := Prepare(args, world).value;
    var build := BuildModel(p.cfg);
    var shape := DataIO.Shape(DataIO.LoadX(p.dataPath, p.spec, world.data).value);
    assert RunSpec(args, world) == Report(HeaderOf(args, world, p), TrySpec(args, world, p));
    assert TrySpec(args, world, p) == Fitting(args, world, shape, build);
    FittingOfFailedBuild(args, world, shape, build.error);
  }

  /**
   * A dataset `load_X` cannot load is reported inside the `try`: exit 2, the
   * exception in the record, no X shape, no durations and no coefficient file.
   */
  lemma LoadFailureReported(args: Args, world: World)
    requires Prepare(args, world).Ok?
    requires var p := Prepare(args, world).value;
      DataIO.LoadX(p.dataPath, p.spec, world.data).Err?
    ensures var p := Prepare(args, world).value;
      var e := DataIO.LoadX(p.dataPath, p.spec, world.data).error;
      var o := RunSpec(args, world);
      && o.status == Ok(2) && |o.written| == 1
      && o.written[0].errorType == Some(e.name) && o.written[0].errorMsg == Some(e.msg)
      && o.written[0].xShape.None? && o.written[0].tInitNs == [] && o.written[0].tFitNs == []
      && o.coefFile == NoFile
  {
    var p := Prepare(args, world).value;
    var e := DataIO.LoadX(p.dataPath, p.spec, world.data).error;
    var t := TryState(Some(e), [], [], None, None, NoFile);
    assert TrySpec(args, world, p) == t;
    assert RunSpec(args, world) == Report(HeaderOf(args, world, p), t);
    ReportNamesError(HeaderOf(args, world, p), t);
  }

  /**
   * An `x_columns` that is neither an int nor a list of ints (the line
   * parser turns `[0, 1]` into that text) fails a readable CSV dataset with
   * IndexError inside the `try`, so the run is recorded and exits with 2.
   */
  lemma TextColumnsReported(args: Args, world: World)
    requires Prepare(args, world).Ok?
    requires var p := Prepare(args, world).value;
      && !EndsWith(p.dataPath, ".npy") && !EndsWith(p.dataPath, ".npz") && EndsWith(p.dataPath, ".csv")
      && p.dataPath in world.data && world.data[p.dataPath].TextFile?
      && DataIO.LoadTxt(world.data[p.dataPath].lines, if p.spec.hasHeader then 1 else 0).Ok?
      && p.spec.xColumns.Some? && !DataIO.IsIntList(p.spec.xColumns.value) && !p.spec.xColumns.value.VInt?
    ensures var o := RunSpec(args, world);
      && o.status == Ok(2) && |o.written| == 1
      && o.written[0].errorType == Some("IndexError") && o.coefFile == NoFile
  {
    var p := Prepare(args, world).value;
    DataIO.CsvRefusesOtherColumns(p.dataPath, p.spec, world.data);
    LoadFailureReported(args, world);
  }

  /** A model that cannot be built fails the first warmup or repetition; with neither, `np.abs(None)` fails. */
  lemma FittingOfFailedBuild(args: Args, world: World, shape: seq<nat>, e: Error)
    ensures Fitting(args, world, shape, Err(e))
      == if Count(args.warmup) + Count(args.rep) > 0 then TryState(Some(e), [], [], Some(shape), None, NoFile)
         else TryState(Some(AbsOfNone()), [], [], Some(shape), Some([]), Saved(None))
  {
    if Count(args.warmup) > 0 {
      WarmupsOfFailedBuild(Count(args.warmup), e, world);
    } else if Count(args.rep) > 0 {
      RepsOfFailedBuild(Count(args.rep), Count(args.warmup), e, world);
    }
  }

  /** The code defaults alone select finite differences, a degree-3 polynomial library without bias, and STLSQ at 0.1. */
  lemma DefaultModel()
    ensures BuildModel(CodeDefaults) == Ok(ModelConfig(FiniteDifference, VInt(3), false, VFloat("0.1")))
  {
    assert Selector(CodeDefaults, "differentiation", Fd) == Ok(Fd);
    assert Selector(CodeDefaults, "library", "polynomial") == Ok("polynomial");
    assert Selector(CodeDefaults, "optimizer", "stlsq") == Ok("stlsq");
  }
}
