/** Continuous hyperparameter optimisation: one optimiser run over a
    look-back window, its best trial's `buy`, `sell` and `roi` parameters
    flattened into one record and merged into the store under
    `<bot>.<strategy>.param`. */
module Chopt {
  import opened Values
  import opened Builtins
  import opened ModelStorage
  import opened Utils
  import opened Timerange

  // ---------------------------------------------------------------------
  // Flattening the tuned parameters
  // ---------------------------------------------------------------------

  /** What `min_roi[int(key)] = round(val, 3)` raises for one entry: the
      right-hand side is evaluated first. */
  function RoiEntryError(k: Key, v: Value): Error {
    if RoundValue(v).Err? then RoundValue(v).error else ValueError
  }

  /** An roi entry both `round` and `int` accept. */
  predicate RoiEntryOk(k: Key, v: Value) {
    RoundValue(v).Ok? && KeyToInt(k).Some?
  }

  /** `m` is a `minimal_roi` table built from `roi`: every entry's integer key
      is present, and every entry of `m` is the rounded value of an roi entry
      with that integer key (when two keys such as "10" and "010" meet, the
      one iterated later wins; the order of dict iteration is not modelled). */
  ghost predicate IsRoiTable(roi: Doc, m: Doc) {
    && (forall k :: k in roi && KeyToInt(k).Some? ==> IntKey(KeyToInt(k).value) in m)
    && (forall n :: n in m ==>
          exists k :: k in roi && RoiEntryOk(k, roi[k]) && n == IntKey(KeyToInt(k).value)
                      && m[n] == RoundValue(roi[k]).value)
  }

  /** `for key, val in roi.items(): min_roi[int(key)] = round(val, 3)` */
  method RoiTable(roi: Doc) returns (r: Result<Doc>)
    ensures r.Ok? <==> forall k :: k in roi ==> RoiEntryOk(k, roi[k])
    ensures r.Ok? ==> IsRoiTable(roi, r.value)
    ensures r.Err? ==> exists k :: k in roi && !RoiEntryOk(k, roi[k]) && r.error == RoiEntryError(k, roi[k])
  {
    var table: Doc := map[];
    var todo := roi.Keys;
    while todo != {}
      invariant todo <= roi.Keys
      invariant forall k :: k in roi && k !in todo ==> RoiEntryOk(k, roi[k])
      invariant forall k :: k in roi && k !in todo ==> IntKey(KeyToInt(k).value) in table
      invariant forall n :: n in table ==>
                  exists k :: k in roi && k !in todo && RoiEntryOk(k, roi[k]) && n == IntKey(KeyToInt(k).value)
                              && table[n] == RoundValue(roi[k]).value
      decreases todo
    {
      var k :| k in todo;
      var rounded := RoundValue(roi[k]);
      if rounded.Err? {
        return Err(rounded.error);
      }
      var key := KeyToInt(k);
      if key.None? {
        return Err(ValueError);
      }
      table := table[IntKey(key.value) := rounded.value];
      todo := todo - {k};
    }
    r := Ok(table);
  }

  /** A value whose `.items()` can be iterated: a dict. */
  function Items(v: Value): Result<Doc> {
    if v.Dict? then Ok(v.entries) else Err(AttributeError)
  }

  /** The `buy`, `sell` and `roi` groups of the best trial's parameters, each a dict. */
  predicate WellShaped(params: Value) {
    && params.Dict?
    && StrKey("buy") in params.entries && params.entries[StrKey("buy")].Dict?
    && StrKey("sell") in params.entries && params.entries[StrKey("sell")].Dict?
    && StrKey("roi") in params.entries && params.entries[StrKey("roi")].Dict?
  }

  const DefaultPair := StrKey("default")
  const DatetimeKey := StrKey("hyperopt_datetime")
  const MinimalRoiKey := StrKey("minimal_roi")

  /** `doc` is the flattened record of `params` stamped `now`: the single
      entry 'default' holding the timestamp, then every `buy` entry, then every
      `sell` entry (a later write wins), then `minimal_roi` built from `roi`. */
  ghost predicate IsFlattened(params: Value, now: string, doc: Doc) {
    && WellShaped(params)
    && var buy := params.entries[StrKey("buy")].entries;
       var sell := params.entries[StrKey("sell")].entries;
       var roi := params.entries[StrKey("roi")].entries;
       && doc.Keys == {DefaultPair} && doc[DefaultPair].Dict?
       && var d := doc[DefaultPair].entries;
          && d.Keys == {DatetimeKey, MinimalRoiKey} + buy.Keys + sell.Keys
          && d[MinimalRoiKey].Dict? && IsRoiTable(roi, d[MinimalRoiKey].entries)
          && (forall k :: k in sell && k != MinimalRoiKey ==> d[k] == sell[k])
          && (forall k :: k in buy && k !in sell && k != MinimalRoiKey ==> d[k] == buy[k])
          && (DatetimeKey !in buy && DatetimeKey !in sell ==> d[DatetimeKey] == Str(now))
  }

  /** What reading the groups of truthy parameters raises first when they
      are not well shaped: `params['buy']` on a non-dict raises TypeError, a
      missing group KeyError, and `.items()` on a group that is not a dict
      AttributeError; the groups are read in the order buy, sell, roi. */
  function ShapeError(params: Value): Error {
    if !params.Dict? then TypeError
    else
      var e := params.entries;
      if StrKey("buy") !in e then KeyError("buy")
      else if !e[StrKey("buy")].Dict? then AttributeError
      else if StrKey("sell") !in e then KeyError("sell")
      else if !e[StrKey("sell")].Dict? then AttributeError
      else if StrKey("roi") !in e then KeyError("roi")
      else AttributeError
  }

  /** The flattened record has the one string key 'default', so the store
      accepts it. */
  lemma FlattenedStrKeys(params: Value, now: string, doc: Doc)
    requires IsFlattened(params, now, doc)
    ensures StrKeys(doc)
  {
    assert doc.Keys == {DefaultPair};
  }

  /** The dict `run_hyperopt` saves, built from `params_details`: empty when
      the parameters are falsy, the flattened record otherwise. */
  method BuildParamsJson(params: Value, now: string) returns (r: Result<Doc>)
    ensures !Truthy(params) ==> r == Ok(map[])
    ensures Truthy(params) && r.Ok? ==> IsFlattened(params, now, r.value)
    ensures Truthy(params) && !WellShaped(params) ==> r == Err(ShapeError(params))
    ensures Truthy(params) && WellShaped(params) ==>
              (r.Ok? <==> forall k :: k in params.entries[StrKey("roi")].entries ==>
                                        RoiEntryOk(k, params.entries[StrKey("roi")].entries[k]))
    ensures Truthy(params) && WellShaped(params) && r.Err? ==>
              var roi := params.entries[StrKey("roi")].entries;
              exists k :: k in roi && !RoiEntryOk(k, roi[k]) && r.error == RoiEntryError(k, roi[k])
  {
    if !Truthy(params) {
      return Ok(map[]);
    }
    var buyGroup := Subscript(params, "buy");
    if buyGroup.Err? { return Err(buyGroup.error); }
    var buy := Items(buyGroup.value);
    if buy.Err? { return Err(buy.error); }
    var flat: Doc := map[DatetimeKey := Str(now)];
    flat := Upsert(flat, buy.value);

    var sellGroup := Subscript(params, "sell");
    if sellGroup.Err? { return Err(sellGroup.error); }
    var sell := Items(sellGroup.value);
    if sell.Err? { return Err(sell.error); }
    flat := Upsert(flat, sell.value);

    var roiGroup := Subscript(params, "roi");
    if roiGroup.Err? { return Err(roiGroup.error); }
    var roi := Items(roiGroup.value);
    if roi.Err? { return Err(roi.error); }
    var minRoi := RoiTable(roi.value);
    if minRoi.Err? { return Err(minRoi.error); }
    flat := flat[MinimalRoiKey := Dict(minRoi.value)];

    r := Ok(map[DefaultPair := Dict(flat)]);
  }

  // ---------------------------------------------------------------------
  // The storage key of the tuned parameters
  // ---------------------------------------------------------------------

  /** `f'{bot_name}.{strategy}.param'` */
  function ParamKey(botName: string, strategy: string): string {
    botName + "." + strategy + ".param"
  }

  /** Whatever the names, the last segment of the parameters' key is
      `param`: the document is always `param.json`. */
  lemma ParamKeyLast(botName: string, strategy: string)
    ensures LastSegment(ParamKey(botName, strategy)) == "param"
  {
    var front := botName + "." + strategy;
    assert ParamKey(botName, strategy) == front + ['.'] + "param";
    SplitConcat(front, "param", '.');
    SplitNoSep("param", '.');
  }

  /** For names free of '.' and '/', the parameters live in
      `<root>/<bot>/<strategy>/param.json`. */
  lemma ParamKeyPath(root: Path, botName: string, strategy: string)
    requires botName != "" && strategy != ""
    requires '.' !in botName && '.' !in strategy
    requires '/' !in botName && '/' !in strategy
    ensures KeyPath(root, ParamKey(botName, strategy)) == root + [botName, strategy, "param.json"]
  {
    var segs := [botName, strategy, "param"];
    assert Join(segs, '.') == ParamKey(botName, strategy) by {
      assert segs[1..] == [strategy, "param"];
      assert segs[1..][1..] == ["param"];
      assert Join(segs[1..], '.') == strategy + ['.'] + "param";
      assert Join(segs, '.') == botName + ['.'] + (strategy + ['.'] + "param");
      assert "." + strategy + ".param" == ['.'] + strategy + ['.'] + "param";
    }
    KeyPathOfSegments(root, segs);
    assert segs[..2] == [botName, strategy];
    assert segs[2] + ".json" == "param.json";
    assert root + segs[..2] + [segs[2] + ".json"] == root + [botName, strategy, "param.json"];
  }

  // ---------------------------------------------------------------------
  // One optimiser run
  // ---------------------------------------------------------------------

  /** Parameters `run_hyperopt` gets a dict to save from: falsy ones, or
      well-shaped ones every roi entry of which converts. */
  predicate SavableParams(params: Value) {
    !Truthy(params)
    || (&& WellShaped(params)
        && var roi := params.entries[StrKey("roi")].entries;
           forall k :: k in roi ==> RoiEntryOk(k, roi[k]))
  }

  /** The errors `run_hyperopt` raises after a run with truthy metrics: the
      report's, then KeyError for a missing `params_details`, then the
      flattening's (the `ShapeError` of badly shaped parameters, or the error
      of an roi entry that does not convert). */
  predicate RunErrors(res: Doc, r: Result<bool>) {
    var report := HumanReport(res);
    && (report.Err? ==> r == Err(report.error))
    && (report.Ok? && StrKey("params_details") !in res ==> r == Err(KeyError("params_details")))
    && (report.Ok? && StrKey("params_details") in res ==>
          var params := res[StrKey("params_details")];
          && (Truthy(params) && !WellShaped(params) ==> r == Err(ShapeError(params)))
          && (Truthy(params) && WellShaped(params) && !SavableParams(params) ==>
                var roi := params.entries[StrKey("roi")].entries;
                exists k :: k in roi && !RoiEntryOk(k, roi[k]) && r == Err(RoiEntryError(k, roi[k]))))
  }

  /** What `run_hyperopt` does with the parameters store at `store` and the
      key `key`: `files0`/`dirs0` are the file system before, `files1`/`dirs1`
      after, `r` its result, `res` what `hyperopt_run` returned and `saved` the
      dict handed to the store. It returns True, having saved once, exactly
      when the configuration passes, the optimiser's result has truthy
      `results_metrics`, the report can be written and `params_details`
      gives a dict to save; False when the metrics are falsy; it raises
      otherwise, and changes nothing unless it returns True. */
  ghost predicate RunsHyperopt(loaded: Config, lockAcquired: bool, resultsFile: Option<seq<Line>>, now: string,
                               store: Path, key: string,
                               files0: map<Path, Doc>, dirs0: set<Path>, files1: map<Path, Doc>, dirs1: set<Path>,
                               r: Result<bool>, res: Result<Doc>, saved: Doc)
  {
    var setup := SetupChoptConfiguration(loaded);
    var metrics := if res.Ok? then Get(res.value, "results_metrics", Bool(false)) else Bool(false);
    && (setup.Err? ==> r == Err(setup.error))
    && (setup.Ok? ==> HyperoptOutcome(loaded, lockAcquired, resultsFile, res))
    && (setup.Ok? && res.Err? ==> r == Err(res.error))
    && (setup.Ok? && res.Ok? && Truthy(metrics) ==> RunErrors(res.value, r))
    && (r == Ok(false) <==> setup.Ok? && res.Ok? && !Truthy(metrics))
    && (r == Ok(true) <==>
          && setup.Ok? && res.Ok? && Truthy(metrics) && HumanReport(res.value).Ok?
          && StrKey("params_details") in res.value && SavableParams(res.value[StrKey("params_details")]))
    && (r != Ok(true) ==> files1 == files0 && dirs1 == dirs0)
    && (r == Ok(true) ==>
          && res.Ok?
          && (var params := res.value[StrKey("params_details")];
              if Truthy(params) then IsFlattened(params, now, saved) else saved == map[])
          && files1 == files0[KeyPath(store, key) := Merge(DocAt(files0, KeyPath(store, key)), saved)]
          && dirs1 == dirs0 + Ancestors(store) + KeyDirs(store, key))
  }

  // ---------------------------------------------------------------------
  // ContinuousHyperOpt
  // ---------------------------------------------------------------------

  /** The configuration `run_hyperopt` loads again: the same configuration
      files with the entries of its argument dict laid over them, of which
      the check reads the dry-run wallet (the optimiser's 1000) and the run
      the dry-run flag. */
  function RunConfig(config: Config, wallet: int): Config {
    config.(dryRun := true, dryRunWallet := wallet as real)
  }

  /** A fixed stake above 1000 that the configured wallet covers passes the
      constructor's check but fails the run's, which checks it against the
      optimiser's wallet of 1000: the run raises and changes nothing. */
  lemma StakeAboveRunWallet(loaded: Config, lockAcquired: bool, resultsFile: Option<seq<Line>>, now: string,
                            store: Path, key: string,
                            files0: map<Path, Doc>, dirs0: set<Path>, files1: map<Path, Doc>, dirs1: set<Path>,
                            r: Result<bool>, res: Result<Doc>, saved: Doc)
    requires loaded.stakeAmount.Amount? && 1000.0 < loaded.stakeAmount.amount <= loaded.dryRunWallet
    requires RunsHyperopt(RunConfig(loaded, 1000), lockAcquired, resultsFile, now, store, key,
                          files0, dirs0, files1, dirs1, r, res, saved)
    ensures CanConstruct(loaded)
    ensures r.Err? && r.error.OperationalException?
    ensures files1 == files0 && dirs1 == dirs0
  {
    assert StakeExceedsWallet(RunConfig(loaded, 1000));
  }

  /** Whether the constructor completes: it raises when the loaded
      configuration fails the stake check. */
  predicate CanConstruct(loaded: Config) {
    SetupChoptConfiguration(loaded).Ok?
  }

  class ContinuousHyperOpt {
    const strategy: string
    const configFiles: seq<string>
    const backPeriod: int
    const config: Config
    const botName: string
    const timeframe: string
    const pairList: seq<string>
    const dataDir: Path
    const name: string
    const hyperoptLoss: string
    const windowStart: int       // minutes
    const windowEnd: int
    const timerange: (int, int)  // days
    const dryRunWallet: int
    const hyperoptSpaces: seq<string>
    var hyperoptEpochs: int
    const hyperoptRandomState: int
    const hyperoptEnableProtections: bool
    const hyperoptMinTrades: int
    var hyperoptJobs: int

    /** `loaded` is what the configuration loader returns for `args`;
        `endMinute` is the start of the last closed candle and
        `timeframeMinutes` the candle length. */
    constructor (args: Args, loaded: Config, endMinute: int, timeframeMinutes: int)
      requires CanConstruct(loaded)
      ensures strategy == args.strategy && configFiles == args.config
      ensures backPeriod == BackPeriod(args.backperiod)
      ensures config == loaded.(dryRun := true)
      ensures botName == loaded.botName && timeframe == loaded.timeframe
      ensures pairList == loaded.pairs && dataDir == loaded.datadir
      ensures name == loaded.botName + " " + args.strategy
      ensures hyperoptLoss == "SortinoHyperOptLossDaily"
      ensures windowEnd == endMinute && windowStart == WindowStart(args.backperiod, endMinute, timeframeMinutes)
      ensures timerange == DayRange(windowStart, windowEnd)
      ensures dryRunWallet == 1000 && hyperoptSpaces == ["buy", "sell", "roi"]
      ensures hyperoptEpochs == 900 && hyperoptRandomState == 0 && !hyperoptEnableProtections
      ensures hyperoptMinTrades == 5 && hyperoptJobs == 8
    {
      strategy := args.strategy;
      configFiles := args.config;
      backPeriod := BackPeriod(args.backperiod);
      var checked := SetupChoptConfiguration(loaded);
      config := checked.value.(dryRun := true);
      botName := loaded.botName;
      timeframe := loaded.timeframe;
      pairList := loaded.pairs;
      dataDir := loaded.datadir;
      name := loaded.botName + " " + args.strategy;
      hyperoptLoss := "SortinoHyperOptLossDaily";
      windowEnd := endMinute;
      windowStart := WindowStart(args.backperiod, endMinute, timeframeMinutes);
      timerange := DayRange(WindowStart(args.backperiod, endMinute, timeframeMinutes), endMinute);
      dryRunWallet := 1000;
      hyperoptSpaces := ["buy", "sell", "roi"];
      hyperoptEpochs := 900;
      hyperoptRandomState := 0;
      hyperoptEnableProtections := false;
      hyperoptMinTrades := 5;
      hyperoptJobs := 8;
    }

    /** The file the tuned parameters are merged into. */
    function ParamPath(): Path
      reads this
    {
      KeyPath(config.userDataDir + ["mstorage"], ParamKey(botName, strategy))
    }

    /** save_opted_params: open the store under `user_data_dir` (creating its
        root) and merge `paramsDict` into `<bot>.<strategy>.param`. */
    method SaveOptedParams(paramsDict: Doc, fs: FileSystem) returns (r: Outcome)
      requires fs.Valid()
      modifies fs
      ensures fs.Valid()
      ensures StrKeys(paramsDict) ==>
                r == Pass && fs.files == old(fs.files)[ParamPath() := Merge(DocAt(old(fs.files), ParamPath()), paramsDict)]
      ensures !StrKeys(paramsDict) ==> r == Fail(TypeError) && fs.files == old(fs.files)
      ensures fs.dirs == old(fs.dirs) + Ancestors(config.userDataDir + ["mstorage"])
                         + KeyDirs(config.userDataDir + ["mstorage"], ParamKey(botName, strategy))
    {
      var ms := new ModelStorageChopt(config.userDataDir, fs);
      ParamKeyLast(botName, strategy);
      r := ms.Save(ParamKey(botName, strategy), Dict(paramsDict));
    }

    /** run_hyperopt: load the configuration again with the optimiser's
        wallet, run the optimiser, and when its result carries truthy
        `results_metrics`, save the flattened parameters once and report
        True. The optimiser's run is given by `lockAcquired` and
        `resultsFile`; `now` is the timestamp the record is stamped with.
        `res` is what hyperopt_run returned and `saved` the dict handed to
        the store. */
    method RunHyperopt(lockAcquired: bool, resultsFile: Option<seq<Line>>, now: string, fs: FileSystem)
      returns (r: Result<bool>, ghost res: Result<Doc>, ghost saved: Doc)
      requires fs.Valid()
      modifies fs
      ensures fs.Valid()
      ensures RunsHyperopt(RunConfig(config, dryRunWallet), lockAcquired, resultsFile, now,
                           config.userDataDir + ["mstorage"], ParamKey(botName, strategy),
                           old(fs.files), old(fs.dirs), fs.files, fs.dirs, r, res, saved)
    {
      saved := map[];
      var loaded := RunConfig(config, dryRunWallet);
      var checked := SetupChoptConfiguration(loaded);
      if checked.Err? {
        return Err(checked.error), Err(checked.error), saved;
      }
      var result := HyperoptRun(loaded, lockAcquired, resultsFile);
      res := result;
      if result.Err? {
        return Err(result.error), res, saved;
      }
      var hyperoptRes := result.value;
      if !Truthy(Get(hyperoptRes, "results_metrics", Bool(false))) {
        return Ok(false), res, saved;
      }
      var report := HumanReport(hyperoptRes);
      if report.Err? {
        return Err(report.error), res, saved;
      }
      if StrKey("params_details") !in hyperoptRes {
        return Err(KeyError("params_details")), res, saved;
      }
      var paramsJson := BuildParamsJson(hyperoptRes[StrKey("params_details")], now);
      if paramsJson.Err? {
        return Err(paramsJson.error), res, saved;
      }
      var paramsDict := paramsJson.value;
      saved := paramsDict;
      if Truthy(hyperoptRes[StrKey("params_details")]) {
        FlattenedStrKeys(hyperoptRes[StrKey("params_details")], now, paramsDict);
      }
      var stored := SaveOptedParams(paramsDict, fs);
      r := Ok(true);
    }
  }

  /** start_continuous_hyperopt: build the optimiser for `args`, use 900
      epochs and 4 jobs, and run it once; `chopt` is the optimiser built,
      `res` what its run's hyperopt_run returned and `saved` the dict it
      handed to the store. */
  method StartContinuousHyperopt(args: Args, loaded: Config, endMinute: int, timeframeMinutes: int,
                                 lockAcquired: bool, resultsFile: Option<seq<Line>>, now: string, fs: FileSystem)
    returns (r: Result<bool>, chopt: ContinuousHyperOpt?, ghost res: Result<Doc>, ghost saved: Doc)
    requires fs.Valid()
    modifies fs
    ensures fs.Valid()
    ensures !CanConstruct(loaded) ==> r == Err(SetupChoptConfiguration(loaded).error) && chopt == null
    ensures !CanConstruct(loaded) ==> fs.files == old(fs.files) && fs.dirs == old(fs.dirs)
    ensures CanConstruct(loaded) ==> chopt != null && fresh(chopt)
    ensures chopt != null ==> chopt.hyperoptEpochs == 900 && chopt.hyperoptJobs == 4
    ensures chopt != null ==> chopt.windowStart == WindowStart(args.backperiod, endMinute, timeframeMinutes)
    ensures CanConstruct(loaded) ==>
              RunsHyperopt(RunConfig(loaded, 1000), lockAcquired, resultsFile, now,
                           loaded.userDataDir + ["mstorage"], ParamKey(loaded.botName, args.strategy),
                           old(fs.files), old(fs.dirs), fs.files, fs.dirs, r, res, saved)
  {
    saved := map[];
    if !CanConstruct(loaded) {
      return Err(SetupChoptConfiguration(loaded).error), null, Err(SetupChoptConfiguration(loaded).error), saved;
    }
    chopt := new ContinuousHyperOpt(args, loaded, endMinute, timeframeMinutes);
    chopt.hyperoptEpochs := 900;
    chopt.hyperoptJobs := 4;
    r, res, saved := chopt.RunHyperopt(lockAcquired, resultsFile, now, fs);
  }
}
