# Continuous hyperopt for freqtrade, modelled in Dafny

This project models the orchestration layer of a continuous hyper-parameter
optimiser for the freqtrade trading bot. It covers four parts:

- **Hierarchical key store** (`ModelStorageChopt`, module `ModelStorage`). A
  dot-separated key such as `bot.strategy.param` names the JSON document
  `<root>/mstorage/bot/strategy/param.json`. `key_to_path` creates the
  directories along the way. A '/' inside a segment is a path separator to
  `os.path.join`, and a segment starting with '/' restarts the path at the
  file-system root; the model follows both. `save` merges a dict into the
  document, an upsert of every entry. It raises TypeError for a dict with a
  key that is not a string, and FileNotFoundError when the document's
  directory does not exist. `load` returns a copy of the document, or the empty
  dict when there is none. `updates_since` always answers True.
- **Optimiser driver** (`ContinuousHyperOpt`, module `Chopt`, with the helpers
  of module `Utils`):
  - the constructor reads the configuration and computes the look-back window;
  - `run_hyperopt` runs the optimiser (`hyperopt_run`), which picks the last
    trial flagged `is_best` from the results file;
  - when the result carries truthy `results_metrics`, `run_hyperopt` builds
    the human-readable report and flattens the `buy`, `sell` and `roi`
    parameters into one record under `default`, with `roi` keys converted by
    `int()` and values rounded to three places;
  - that record is merged into the store under `<bot>.<strategy>.param`.
  - `setup_chopt_configuration` rejects a fixed stake larger than the dry-run
    wallet.
- **Market-data download** (`DataDownload`, module `DataLoad`). Each
  configured pair is downloaded in turn. When a pair's download raises, its
  trades file is removed and the download is retried up to three times. The
  first pair that still fails ends the batch with False.
- **Look-back window** (module `Timerange`). The window is `back_period`
  candles of the configured timeframe, ending at the last closed candle. It
  is passed on as a range of calendar days.

The Python values the code handles have their own module, `Values`: dicts,
truthiness, `d[k]` with its KeyError and TypeError, and the exceptions raised.
Module `Builtins` holds the Python built-ins the core relies on:
`str.split`, `int()` on a string, and `round(x, 3)` with ties to even.

The code that updates state in place is modelled imperatively:

- the file system is a class (`FileSystem`) holding the set of directories and
  a map from paths to documents; the directories are closed under parents and
  always include the file-system root `/`;
- the store, the optimiser driver and the downloader are classes whose
  methods state the new state;
- the loops of `key_to_path`, `save`, the `roi` conversion, the best-trial
  selection and `load_data` are `while`/`for` loops with invariants.

Each loop is proved against a function or predicate of its inputs:

- `KeyPath` and `KeyDirs` for `key_to_path`;
- `Merge` for `save`;
- `IsRoiTable` and `IsFlattened` for the parameter record;
- `IsSelection` for the best trial;
- `PairRun` and `BatchRun` for the downloads.

The properties are proved as lemmas about those functions.

Outside calls are parameters of the model:

- the configuration loader: the loaded configuration (its second call in
  `run_hyperopt` is that configuration with the optimiser's wallet of 1000);
- the clock: the end of the window, the candle length and the timestamp
  string;
- the optimiser: whether its lock was free, and the lines of its results
  file;
- the download command: the set `raises`, which holds the numbers of the
  downloads of the session that raise;
- `os.remove`: the set `kept` of paths it cannot remove;
- `pair_to_filename`: a function parameter.

## Model

| member | source | states |
|---|---|---|
| Builtins.Split | model_storage.py:20 | `key.split('.')` gives at least one piece, and no piece contains a dot |
| Builtins.JoinSplit | model_storage.py:20 | re-joining the pieces of a split with the separator gives the key back |
| Builtins.SplitJoin | model_storage.py:20 | splitting a join of separator-free pieces gives the pieces back |
| Builtins.SplitConcat | model_storage.py:20 | splitting at a separator placed between two strings gives the pieces of the first followed by the pieces of the second |
| Builtins.ParseInt | chopt.py:119 | `int(s)`: a blank string raises; an accepted string is, once stripped of whitespace, digits and underscores after an optional leading sign; only a leading '-' gives a negative number |
| Builtins.ParseIntPadded | chopt.py:119 | `int()` accepts every digit string (underscores between digits allowed) with an optional '+' or '-' and surrounding whitespace, and gives its value, negated only for '-': `int(" 7 ") == 7`, `int("+5") == 5`, `int("1_000") == 1000` |
| Builtins.ParseIntToString | chopt.py:119 | `int(str(i)) == i` for every integer, negative ones included |
| Builtins.RoundHalfEven | chopt.py:119 | the result is within one half of x, and an exact tie goes to the even integer |
| Builtins.Round3 | chopt.py:119 | `round(x, 3)` is a whole number of thousandths within 0.0005 of x; on an exact tie the even thousandth wins |
| Builtins.Round3Idempotent | chopt.py:119 | rounding to three places twice is rounding once |
| Builtins.RoundValue | chopt.py:119 | `round(v, 3)` succeeds exactly on numbers and raises TypeError otherwise; a float becomes `Round3` of it, an int comes back unchanged, and a bool becomes the int 0 or 1 |
| ModelStorage.FileSystem.MakeDirs | model_storage.py:16 | `os.makedirs` adds the path and all its parents; the tree stays closed under parents |
| ModelStorage.FileSystem.EnsureDir | model_storage.py:24-25 | `if not os.path.isdir(p): os.makedirs(p)`: afterwards the path and all its parents exist, whether or not it did before; no file changes |
| ModelStorage.ModelStorageChopt.constructor | model_storage.py:13-17 | the root is `<root_folder>/mstorage`; it and its parents exist afterwards; no file changes |
| ModelStorage.FileSystem.WriteDoc | model_storage.py:36 | writing a document needs the file's directory to exist; it replaces exactly that file's content and no directory changes |
| ModelStorage.ModelStorageChopt.KeyToPath | model_storage.py:19-28 | returns `KeyPath(root, key)`, the leading segments joined one by one as `os.path.join` does (pieces between '/' become components, empty ones are dropped, a segment starting with '/' restarts at the file-system root); the directories added are exactly each folder path visited and its parents; when the last segment has no '/', the document's directory exists afterwards |
| ModelStorage.KeyDirsPlain | model_storage.py:19-28 | for a key `s1. … .sN` whose segments are non-empty and free of '.' and '/', the directories `key_to_path` leaves existing are none when N is 1, and otherwise every leading part of `root/s1/…/s(N-1)` |
| ModelStorage.KeyPathInFolder | model_storage.py:28 | when the last segment has no '/', the document `<last>.json` sits directly in the folder the leading segments lead to |
| ModelStorage.FolderCreated | model_storage.py:21-28 | when the last segment has no '/', the document's folder is the root or one of the directories resolving the key creates |
| ModelStorage.KeyPathRelative | model_storage.py:19-28 | a key with no '/' resolves under the root, each non-empty leading segment one directory |
| ModelStorage.KeyPathOfSegments | model_storage.py:19-28 | a key `s1. … .sN` whose segments are non-empty and free of '.' and '/' resolves to `root/s1/…/s(N-1)/sN.json` |
| ModelStorage.KeyPathSingle | model_storage.py:28 | a key without '.' or '/' is the file `<key>.json` directly under the root |
| ModelStorage.KeyPathInjective | model_storage.py:19-28 | two keys whose segments are all non-empty and free of '/' that resolve to the same file are the same key |
| ModelStorage.EmptySegmentShares | model_storage.py:22-28 | for names a and b, `a..b` and `a.b` resolve to the same file, `root/a/b.json` |
| ModelStorage.SlashSegmentShares | model_storage.py:22-28 | for names a, b and c, the distinct keys `a/b.c` and `a.b.c` resolve to the same file, `root/a/b/c.json` |
| ModelStorage.AbsoluteSegmentLeavesRoot | model_storage.py:22-28 | for names a and x, the key `/a.x` resolves to `/a/x.json`, outside the store's root |
| ModelStorage.Upsert | model_storage.py:34-35 | `db[k] = v` for every entry: the keys are the union; updated keys hold the new values; all other keys are unchanged |
| ModelStorage.ModelStorageChopt.Save | model_storage.py:30-36 | a non-dict value raises ValueError and changes nothing; for a dict the key's directories are created; a dict with a key that is not a string raises TypeError and writes nothing; otherwise the write succeeds exactly when the document's directory exists (always when the last segment has no '/'), merging the dict over the key's document (missing means empty) and changing only that file; a missing directory raises FileNotFoundError and no file changes |
| ModelStorage.ModelStorageChopt.Load | model_storage.py:38-40 | returns the key's document, or the empty dict when there is none; no document changes |
| ModelStorage.SaveLeavesOtherKeys | model_storage.py:30-36 | saving under one key whose segments are non-empty and free of '/' leaves the document of every other such key as it was |
| ModelStorage.SaveThenLoad | model_storage.py:30-40 | for keys whose segments are non-empty and free of '/', save then load of a key returns the old document with the saved entries written over it when every saved key is a string, and the old document otherwise; another such key still loads as before |
| ModelStorage.ModelStorageChopt.UpdatesSince | model_storage.py:42-43 | always reports an update |
| Utils.SetupChoptConfiguration | utils.py:68-85 | succeeds exactly when the stake is unlimited or at most the dry-run wallet; then returns the configuration unchanged; otherwise raises OperationalException |
| Utils.UnlimitedStakeAccepted | utils.py:78-79 | an unlimited stake passes whatever the wallet holds |
| Utils.ParseResults | utils.py:51 | every line is parsed before any record is read; the result is defined exactly when every line is valid JSON, and the first bad line raises |
| Utils.SelectBest | utils.py:52-54 | the result satisfies `IsSelection`: the first truthy record without `is_best` raises (KeyError on a dict, TypeError otherwise); else the result is the last truthy record flagged best, or `{}` when there is none |
| Utils.SelectionUnique | utils.py:52-54 | the records determine the selection: two results that both satisfy `IsSelection` are equal |
| Utils.HyperoptRun | utils.py:14-65 | a failed stake check raises; a lock held by another run gives `{}`; a missing results file raises OperationalException; otherwise it parses the file and selects the best trial |
| Utils.WinRate | utils.py:98 | falsy `total_trades` gives 1; otherwise the result is defined exactly for numbers, and the rate times the trade count is the number of wins |
| Utils.WinRateFraction | utils.py:98 | with at most as many wins as trades, the win rate lies in [0, 1] |
| Utils.SubscriptEach | utils.py:91-107 | the lookups succeed exactly when the value is a dict holding every key, and then return the values in key order |
| Utils.HumanReport | utils.py:88-114 | a report exists only for `ReportReady` inputs: `results_metrics` is a dict holding all 13 metrics, the win rate can be computed and the three `:.2f` figures are numbers; its win rate is `WinRate(wins, total_trades)`; its profit figures are the numeric metrics, times 100 for the percentages |
| Utils.HumanReportReady | utils.py:88-114 | conversely, every `ReportReady` input gets a report, so the report succeeds exactly on those inputs |
| Utils.HumanReportMissingMetric | utils.py:88-107 | a missing metric always makes the report raise |
| Utils.ZeroTradesWinRate | utils.py:98 | with zero trades the reported win rate is 1 |
| Timerange.BackPeriodAsWritten | chopt.py:36 | as written, the period is a number exactly when the option is not None, and then equals the corrected `BackPeriod`; a present None comes through as None |
| Timerange.WindowStartAsWritten | chopt.py:49-50 | as written, the window start is defined exactly when `backperiod` is not None (TypeError otherwise), and then equals the corrected `WindowStart` |
| Timerange.WindowAsWrittenFailsWithoutOption | chopt.py:36-50 | as written, a `backperiod` of None makes the window computation raise TypeError; only a missing key gets 864 |
| Timerange.WindowStart | chopt.py:49-50 | for a given `--backperiod n` the window starts `n × timeframe_minutes` minutes before its end, otherwise `864 × timeframe_minutes` minutes before; with non-negative inputs it does not start after it ends |
| Timerange.WindowStartDefault | data_load.py:36-49 | the corrected window treats a present None like a missing key; both give what the code as written computes for a missing key, 864 candles |
| Timerange.DayRange | chopt.py:51 | the timerange names the calendar day of each end of the window |
| Timerange.DayRangeOrdered | chopt.py:49-51 | a window that does not run backwards names its days in order, at most one more day apart than the whole days it lasts |
| Chopt.RoiTable | chopt.py:117-120 | the conversion succeeds exactly when every entry has an `int()`-able key and a numeric value; the table then has every converted key, each holding the rounded value of an entry with that key; otherwise the error is that of a bad entry |
| Chopt.BuildParamsJson | chopt.py:102-122 | falsy parameters give `{}`; otherwise the record satisfies `IsFlattened` (one entry `default` with the timestamp, `buy`, then `sell`, then `minimal_roi`); parameters without dict `buy`, `sell` and `roi` groups raise the `ShapeError` of the first group read (TypeError on a non-dict, KeyError for a missing group, AttributeError for a group that is not a dict); well-shaped ones succeed exactly when every roi entry converts, and otherwise raise the error of an entry that does not |
| Chopt.FlattenedStrKeys | chopt.py:102-124 | the flattened record's only key is the string 'default', so the store's `db[k] = v` accepts it |
| Chopt.ParamKeyLast | chopt.py:65 | whatever the bot and strategy names, the key's last segment is `param`, so its document is a `param.json` whose directory `save` has created |
| Chopt.ParamKeyPath | chopt.py:65 | for bot and strategy names free of '.' and '/', the parameters live in `<root>/<bot>/<strategy>/param.json` |
| Chopt.ContinuousHyperOpt.constructor | chopt.py:32-61 | every field as the constructor sets it: the dry-run configuration, the name `<bot> <strategy>`, the loss, the window, 900 epochs, 8 jobs, and so on; the constructor is called only when the stake check passes |
| Chopt.ContinuousHyperOpt.SaveOptedParams | chopt.py:63-65 | creates the store's root and the key's directories; a dict with string keys is merged into the file the key `<bot>.<strategy>.param` resolves to under `<user_data_dir>/mstorage` (`<bot>/<strategy>/param.json` for plain names) and no other file changes; any other dict raises TypeError and no file changes |
| Chopt.ContinuousHyperOpt.RunHyperopt | chopt.py:67-126 | satisfies `RunsHyperopt` for the configuration loaded again with the optimiser's wallet of 1000 (`RunConfig`): stake-check and optimiser errors propagate; False exactly when the optimiser's result has falsy or missing `results_metrics`; True exactly when, besides, the report succeeds and `params_details` is present and is falsy or has dict `buy`, `sell` and `roi` groups whose every roi entry converts; True means exactly the flattened parameters (or `{}` when they are falsy) were merged into the parameter file and the store's directories created; with truthy metrics the error is pinned (`RunErrors`): the report's error when it fails, else KeyError('params_details') when that entry is missing, else the `ShapeError` of badly shaped parameters, else the `RoiEntryError` of an roi entry that does not convert; any other outcome changes nothing |
| Chopt.StartContinuousHyperopt | chopt.py:16-27 | a configuration that fails the stake check raises, builds no optimiser and changes nothing; otherwise a new optimiser with the window of `args` runs with 900 epochs and 4 jobs, and the outcome is `RunsHyperopt` for the configuration with a wallet of 1000, the store under the loaded `user_data_dir` and the key `<bot>.<strategy>.param` |
| Chopt.StakeAboveRunWallet | chopt.py:53-89 | a fixed stake above 1000 that the configured wallet covers passes the constructor's check, but the run checks it against the wallet of 1000 and raises OperationalException, changing nothing |
| DataLoad.TradesFile | data_load.py:64-68 | the trades file of a pair lies directly in the data directory |
| DataLoad.Downloader.StartDownloadData | data_load.py:58 | a download raises exactly when `raises` says so; it is logged and counted |
| DataLoad.Downloader.RemoveFile | data_load.py:96-99 | no error escapes (OSError is ignored): a file `os.remove` cannot remove (permissions, a directory) stays, any other file is gone afterwards, whether or not it existed |
| DataLoad.DataDownload.constructor | data_load.py:34-54 | the fields as set: the dry-run configuration, the pair list, the data directory, the window and its day range, a wallet of 1000 |
| DataLoad.DataDownload.InitialArgs | data_load.py:76-83 | the download arguments: the configuration files, the one timeframe, every configured pair and the window's days, for a dry run with a wallet of 1000 |
| DataLoad.DataDownload.DownloadData | data_load.py:56-62 | an exception of the download becomes False, a completed download True |
| DataLoad.DataDownload.RetryPair | data_load.py:91-104 | the retries (remove the file, download again, stop at the first success, at most 3) do exactly what `Retries` describes |
| DataLoad.DataDownload.DownloadPair | data_load.py:87-104 | the pair's download and retries do exactly what `PairRun` describes |
| DataLoad.DataDownload.LoadData | data_load.py:70-109 | the actions, the result and the downloads used are exactly those of `BatchRun` over the configured pairs, each with `pairs` set to that pair alone |
| DataLoad.ForPairAgain | data_load.py:87 | `update({'pairs': [pair]})` overrides the previous pair's setting |
| DataLoad.RetriesShape | data_load.py:93-102 | the retries alternate removal and download; they stop at the first download that completes and after the third at the latest; a failure means every retry raised |
| DataLoad.PairRunShape | data_load.py:89-104 | a pair makes 1 to 4 downloads; each retry is preceded by removing the trades file; the run stops at the first download that completes, and fails only after 4 downloads that all raised |
| DataLoad.PairRunSucceeds | data_load.py:89-104 | a pair succeeds exactly when one of its four possible downloads completes |
| DataLoad.PairRunActions | data_load.py:87-100 | every action of a pair concerns that pair alone; a failed pair holds no completed download |
| DataLoad.TwoFailuresThenSuccess | data_load.py:89-102 | two failing downloads then a completed one: Fetch, Remove, Fetch, Remove, Fetch, and the pair succeeds |
| DataLoad.BatchActions | data_load.py:85-100 | every download of the batch is for one listed pair alone, and every removal is of a listed pair's trades file |
| DataLoad.BatchAbort | data_load.py:104-107 | a failed batch is the successful runs of the pairs before some pair j, then j's failed run; no later pair is attempted |
| DataLoad.BatchSuccessDownloadsAll | data_load.py:85-109 | in a successful batch every pair has a completed download |
| DataLoad.BatchFailureMissesPair | data_load.py:104-107 | without repeated pairs, a failed batch leaves some pair without a completed download |
| DataLoad.BatchSucceedsIffAllDownloaded | data_load.py:85-109 | without repeated pairs, `load_data` returns True exactly when every pair got a completed download |

## Findings

| source | as written | input that shows it | evidently intended | confidence | as-written member | corrected member |
|---|---|---|---|---|---|---|
| chopt.py:36-50 | `args.get("backperiod", 864)` falls back to 864 only when the key is missing. The parser declares `--backperiod` without a default (arguments.py:39-46), so the key is present with None. `None * timeframe_to_minutes(...)` then raises TypeError. data_load.py:36-49 does the same. | a command line without `--backperiod` (`backperiod: None`) | a look-back of 864 candles when the option is not given | not executed | Timerange.WindowAsWrittenFailsWithoutOption | Timerange.WindowStartDefault |

The rest of the model uses the corrected `BackPeriod` and `WindowStart`: 864
when the option is absent or None. The code as written is kept as
`Timerange.BackPeriodAsWritten` and `Timerange.WindowStartAsWritten`.

## Left out

- Serialisation by pickledb (the JSON text, and file errors other than a missing directory) is not modelled. Its `set`, which `db[k] = v` calls, raises TypeError for a key that is not a string; the model follows that library behaviour, which is not in the repository. A document is a map of Python values. Integer keys of `minimal_roi` would come back as strings after a reload; the model keeps them as integers.
- Chopt.RoiTable: dict iteration order is not modelled. The `roi` loop visits entries in some order, so a collision such as "10" and "010" leaves either value. When `buy` and `sell` share a key, the `sell` value wins, as in the code.
- Floats are exact reals. `round(x, 3)` ties to even on the exact value, not on the binary float. The report's `:.2f` text formatting is left out: `Utils.HumanReport` returns the numbers it would print.
- Utils.HumanReport: every formatting failure is the single error FormatError. Python would raise TypeError or ValueError, depending on the value.
- `int()` accepts ASCII digits, a sign, underscores between digits and surrounding whitespace. Other Unicode digits are not modelled.
- The configuration loader (`Configuration(args).get_config()`) is a parameter: the loaded configuration. The second loader call in `run_hyperopt` reads the same configuration files, so it is modelled as the first configuration with the entries its argument dict sets that the core reads back: `dry_run` and the wallet of 1000 (`Chopt.RunConfig`). The pair list it passes is the first configuration's own. `config['pairlists']` and `runmode` are not modelled, because nothing in the core reads them back.
- DataLoad.DataDownload.constructor: data_load.py:11 imports `setup_configuration`, which utils.py does not define. As written, importing data_load.py therefore raises ImportError, so no `DataDownload` is ever built and `load_data` cannot run. Since `__init__.py:6` imports data_load, importing the package fails the same way, so as written `start_continuous_hyperopt` cannot run either. The model describes the class as if that import succeeded: the constructor takes the loaded configuration and applies no stake check.
- Chopt.ContinuousHyperOpt.RunHyperopt: `hyperopt_run` loads the configuration a third time (`setup_chopt_configuration(args)` at utils.py:29, on the argument dict `run_hyperopt` built). The model assumes that reload returns `Chopt.RunConfig` again, with the same wallet of 1000 and the same stake, so its stake check always agrees with the one `run_hyperopt` made at chopt.py:74-89 and never raises on its own. A loader that gave a different answer the third time is not modelled.
- Utils.HyperoptRun: the imports of the lock and the optimiser (utils.py:21-27) are not modelled. When the hyperopt dependencies are missing they raise OperationalException before the stake check; the model takes them as installed.
- Timerange.WindowStart: integers are unbounded. `datetime` arithmetic raises OverflowError for a window reaching before year 1 or past year 9999 (chopt.py:50, data_load.py:49); that error is not modelled.
- Timerange.DayRange: day numbers are unbounded; the date range `strftime` can format is not modelled.
- The optimiser (`Hyperopt(config).start()`) and the `FileLock` are not modelled. They become two parameters: whether the lock was free within its timeout, and the lines of the results file. Concurrent runs are not modelled.
- `start_download_data` is not modelled. The set `raises` says which downloads of the session raise. The files a download writes are not modelled, so the model claims nothing about the data directory after a download.
- The clock (`timeframe_to_prev_date`, `datetime.now()`) and `timeframe_to_minutes` are parameters. The calendar formatting of `strftime` is not modelled; the model keeps day numbers.
- Logging is not modelled. `load_file` is not part of this model, because nothing in the core calls it. trend.py, start.py, arguments.py (beyond the `--backperiod` option) and `__init__.py` are not part of this model.
- Chopt.ContinuousHyperOpt.constructor: requires the stake check to pass. The case where the constructor raises is modelled in `Chopt.StartContinuousHyperopt`, which checks first.
- ModelStorage.ModelStorageChopt.constructor: errors of `os.makedirs` (permissions, a file in the way) are not modelled; directories are always created. The same holds for the directories `key_to_path` creates. A path component is never both a file and a directory in the model.
