/** Market-data download for the look-back window: one download per pair,
    and for a pair whose download fails, up to three retries, each after
    removing the pair's trades file. The first pair that still fails
    aborts the batch. */
module DataLoad {
  import opened Values
  import opened ModelStorage
  import opened Utils
  import opened Timerange

  /** The arguments handed to the download command. */
  datatype DownloadArgs = DownloadArgs(
    config: seq<string>,
    timeframes: seq<string>,
    pairs: seq<string>,
    timerange: (int, int),     // first and last day of the window
    dryRun: bool,
    dryRunWallet: int)

  /** Whether download `n` of the session completes without raising. */
  predicate Completes(raises: set<nat>, n: nat) {
    n !in raises
  }

  /** What the batch does to the outside world, in order: a download attempt
      (and whether it completed without raising) or a file removal. */
  datatype Action = Fetch(args: DownloadArgs, completed: bool) | Remove(file: Path)

  /** The download command and the data directory it writes to. The
      downloads of the session are numbered from 0, and `raises` holds the
      numbers of those that raise; `log` records every attempt and removal.
      `kept` holds the paths `os.remove` cannot remove (no permission, a
      directory at that path). */
  class Downloader {
    var log: seq<Action>
    var calls: nat
    var files: set<Path>
    const raises: set<nat>
    const kept: set<Path>

    constructor (files0: set<Path>, raises: set<nat>, kept: set<Path>)
      ensures log == [] && calls == 0 && files == files0 && this.raises == raises && this.kept == kept
    {
      log := [];
      calls := 0;
      files := files0;
      this.raises := raises;
      this.kept := kept;
    }

    /** Runs one download: raises unless `raises` says it raises. What
        it writes to the data directory is not modelled. */
    method StartDownloadData(args: DownloadArgs) returns (raised: bool)
      modifies this
      ensures raised == !Completes(raises, old(calls))
      ensures calls == old(calls) + 1 && log == old(log) + [Fetch(args, !raised)]
    {
      raised := !Completes(raises, calls);
      log := log + [Fetch(args, !raised)];
      calls := calls + 1;
    }

    /** `os.remove(file)` with OSError ignored: a missing file stays
        missing, a file `os.remove` cannot remove stays, any other file is
        gone; nothing else changes and no error escapes. */
    method RemoveFile(file: Path)
      modifies this
      ensures file in kept ==> files == old(files)
      ensures file !in kept ==> files == old(files) - {file}
      ensures calls == old(calls) && log == old(log) + [Action.Remove(file)]
    {
      if file !in kept {
        files := files - {file};
      }
      log := log + [Action.Remove(file)];
    }
  }

  // ---------------------------------------------------------------------
  // What the batch does, as a function of the download outcomes
  // ---------------------------------------------------------------------

  /** The actions of a run, whether it ended in success, and the index of the
      next download of the session. */
  datatype Run = Run(log: seq<Action>, ok: bool, next: nat)

  /** `prefix` followed by `r`. */
  function Then(prefix: seq<Action>, r: Run): Run {
    Run(prefix + r.log, r.ok, r.next)
  }

  lemma AppendAssoc(a: seq<Action>, b: seq<Action>, c: seq<Action>)
    ensures (a + b) + c == a + (b + c)
  {
  }

  lemma AppendTwo(a: seq<Action>, x: Action, y: Action)
    ensures (a + [x]) + [y] == a + [x, y]
  {
  }

  lemma ThenThen(a: seq<Action>, b: seq<Action>, r: Run)
    ensures Then(a, Then(b, r)) == Then(a + b, r)
  {
    assert a + (b + r.log) == (a + b) + r.log;
  }

  /** `datadir / f'{pair_to_filename(pair)}-trades.json.gz'` */
  function TradesFile(dataDir: Path, pairToFilename: string -> string, pair: string): (file: Path)
    ensures |file| == |dataDir| + 1 && file[..|dataDir|] == dataDir
  {
    dataDir + [pairToFilename(pair) + "-trades.json.gz"]
  }

  /** Retry `i` (of 3) and the ones after it, the first using download `n`. */
  function Retries(args: DownloadArgs, file: Path, raises: set<nat>, n: nat, i: nat): Run
    requires 1 <= i <= 3
    decreases 3 - i
  {
    var step := [Remove(file), Fetch(args, Completes(raises, n))];
    if Completes(raises, n) || i == 3 then Run(step, Completes(raises, n), n + 1)
    else Then(step, Retries(args, file, raises, n + 1, i + 1))
  }

  /** What follows retry `i` when it used download `n`: nothing when that
      download completed or it was the third retry, the next retry otherwise. */
  function RetriesAfter(args: DownloadArgs, file: Path, raises: set<nat>, n: nat, i: nat): Run
    requires 1 <= i <= 3
  {
    if Completes(raises, n) || i == 3 then Run([], Completes(raises, n), n + 1)
    else Retries(args, file, raises, n + 1, i + 1)
  }

  /** A retry is its removal and download, followed by what comes after it. */
  lemma RetriesUnfold(args: DownloadArgs, file: Path, raises: set<nat>, n: nat, i: nat)
    requires 1 <= i <= 3
    ensures Retries(args, file, raises, n, i)
              == Then([Remove(file), Fetch(args, Completes(raises, n))], RetriesAfter(args, file, raises, n, i))
  {
    var step := [Remove(file), Fetch(args, Completes(raises, n))];
    assert step + [] == step;
  }

  /** One pair: a download, and the retries when it fails. */
  function PairRun(args: DownloadArgs, file: Path, raises: set<nat>, n: nat): Run {
    var first := [Fetch(args, Completes(raises, n))];
    if Completes(raises, n) then Run(first, true, n + 1)
    else Then(first, Retries(args, file, raises, n + 1, 1))
  }

  /** The arguments for one pair: `download_args` with `pairs` set to `[pair]`. */
  function ForPair(args: DownloadArgs, pair: string): DownloadArgs {
    args.(pairs := [pair])
  }

  /** Setting `pairs` again overrides the earlier setting. */
  lemma ForPairAgain(args: DownloadArgs, previous: string, pair: string)
    ensures ForPair(args, previous).(pairs := [pair]) == ForPair(args, pair)
  {
  }

  /** The pairs in order, stopping at the first pair that still fails. */
  function BatchRun(args: DownloadArgs, pairs: seq<string>, dataDir: Path, pairToFilename: string -> string,
                    raises: set<nat>, n: nat): Run
    decreases |pairs|
  {
    if pairs == [] then Run([], true, n)
    else
      var pr := PairRun(ForPair(args, pairs[0]), TradesFile(dataDir, pairToFilename, pairs[0]), raises, n);
      if !pr.ok then pr
      else Then(pr.log, BatchRun(args, pairs[1..], dataDir, pairToFilename, raises, pr.next))
  }

  /** The batch from pair `j` on, its actions appended to `acc`, the actions
      so far. */
  function BatchFrom(args: DownloadArgs, pairs: seq<string>, j: nat, dataDir: Path, pairToFilename: string -> string,
                     raises: set<nat>, n: nat, acc: seq<Action>): Run
    decreases |pairs| - j
  {
    if j >= |pairs| then Run(acc, true, n)
    else
      var pr := PairRun(ForPair(args, pairs[j]), TradesFile(dataDir, pairToFilename, pairs[j]), raises, n);
      if !pr.ok then Run(acc + pr.log, false, pr.next)
      else BatchFrom(args, pairs, j + 1, dataDir, pairToFilename, raises, pr.next, acc + pr.log)
  }

  /** Running the pairs from `j` on after `acc` is `acc` followed by the run
      of the list that starts at `j`. */
  lemma {:induction false} BatchFromSuffix(args: DownloadArgs, pairs: seq<string>, j: nat, dataDir: Path,
                                           pairToFilename: string -> string, raises: set<nat>, n: nat, acc: seq<Action>)
    requires j <= |pairs|
    ensures BatchFrom(args, pairs, j, dataDir, pairToFilename, raises, n, acc)
              == Then(acc, BatchRun(args, pairs[j..], dataDir, pairToFilename, raises, n))
    decreases |pairs| - j
  {
    if j < |pairs| {
      assert pairs[j..][0] == pairs[j] && pairs[j..][1..] == pairs[j + 1..];
      var pr := PairRun(ForPair(args, pairs[j]), TradesFile(dataDir, pairToFilename, pairs[j]), raises, n);
      BatchFromSuffix(args, pairs, j + 1, dataDir, pairToFilename, raises, pr.next, acc + pr.log);
      if pr.ok {
        ThenThen(acc, pr.log, BatchRun(args, pairs[j + 1..], dataDir, pairToFilename, raises, pr.next));
      }
    } else {
      assert pairs[j..] == [];
      assert acc + [] == acc;
    }
  }

  // ---------------------------------------------------------------------
  // Properties of a pair's run
  // ---------------------------------------------------------------------

  /** The retries from retry `i` on: Remove, Fetch, Remove, Fetch, ..., using
      downloads n, n+1, ...; they stop at the first download that completes
      and after retry 3 at the latest. */
  lemma {:induction false} RetriesShape(args: DownloadArgs, file: Path, raises: set<nat>, n: nat, i: nat)
    requires 1 <= i <= 3
    ensures var r := Retries(args, file, raises, n, i);
      && n + 1 <= r.next <= n + 4 - i
      && |r.log| == 2 * (r.next - n)
      && (forall k :: 0 <= k < |r.log| ==>
            r.log[k] == if k % 2 == 0 then Remove(file) else Fetch(args, Completes(raises, n + k / 2)))
      && r.ok == Completes(raises, r.next - 1)
      && (forall m :: n <= m < r.next - 1 ==> !Completes(raises, m))
      && (!r.ok ==> r.next == n + 4 - i)
    decreases 3 - i
  {
    var r := Retries(args, file, raises, n, i);
    if !(Completes(raises, n) || i == 3) {
      var rest := Retries(args, file, raises, n + 1, i + 1);
      RetriesShape(args, file, raises, n + 1, i + 1);
      var step := [Remove(file), Fetch(args, Completes(raises, n))];
      assert r.log == step + rest.log;
      forall k | 2 <= k < |r.log|
        ensures r.log[k] == if k % 2 == 0 then Remove(file) else Fetch(args, Completes(raises, n + k / 2))
      {
        assert r.log[k] == rest.log[k - 2];
        assert (k - 2) % 2 == k % 2 && n + 1 + (k - 2) / 2 == n + k / 2;
      }
    }
  }

  /** A pair's run: the first download, then Remove and Fetch alternating.
      Between 1 and 4 downloads; every retry is preceded by the removal of the
      trades file; it stops at the first download that completes; it fails
      only after 4 downloads that all raised. */
  lemma PairRunShape(args: DownloadArgs, file: Path, raises: set<nat>, n: nat)
    ensures var r := PairRun(args, file, raises, n);
      && n + 1 <= r.next <= n + 4
      && |r.log| == 2 * (r.next - n) - 1
      && r.log[0] == Fetch(args, Completes(raises, n))
      && (forall k :: 1 <= k < |r.log| ==>
            r.log[k] == if k % 2 == 1 then Remove(file) else Fetch(args, Completes(raises, n + k / 2)))
      && r.ok == Completes(raises, r.next - 1)
      && (forall m :: n <= m < r.next - 1 ==> !Completes(raises, m))
      && (!r.ok ==> r.next == n + 4)
  {
    var r := PairRun(args, file, raises, n);
    if !Completes(raises, n) {
      var rest := Retries(args, file, raises, n + 1, 1);
      RetriesShape(args, file, raises, n + 1, 1);
      forall k | 1 <= k < |r.log|
        ensures r.log[k] == if k % 2 == 1 then Remove(file) else Fetch(args, Completes(raises, n + k / 2))
      {
        assert r.log[k] == rest.log[k - 1];
        assert ((k - 1) % 2 == 0) == (k % 2 == 1);
        assert k % 2 == 0 ==> n + 1 + (k - 1) / 2 == n + k / 2;
      }
    }
  }

  /** A pair succeeds exactly when one of its four possible downloads completes. */
  lemma PairRunSucceeds(args: DownloadArgs, file: Path, raises: set<nat>, n: nat)
    ensures PairRun(args, file, raises, n).ok <==> exists m :: n <= m < n + 4 && Completes(raises, m)
  {
    PairRunShape(args, file, raises, n);
  }

  /** Every action of a pair's run concerns that pair; a failed run holds no
      completed download. */
  lemma PairRunActions(args: DownloadArgs, file: Path, raises: set<nat>, n: nat)
    ensures var r := PairRun(args, file, raises, n);
      forall k :: 0 <= k < |r.log| ==>
        (r.log[k].Fetch? && r.log[k].args == args && (r.log[k].completed ==> r.ok)) || r.log[k] == Remove(file)
  {
    var r := PairRun(args, file, raises, n);
    PairRunShape(args, file, raises, n);
    forall k | 0 <= k < |r.log|
      ensures (r.log[k].Fetch? && r.log[k].args == args && (r.log[k].completed ==> r.ok)) || r.log[k] == Remove(file)
    {
      if k > 0 && k % 2 == 0 {
        assert n + k / 2 <= r.next - 1;
      }
    }
  }

  /** The example of a pair whose download raises twice and then completes:
      Fetch, Remove, Fetch, Remove, Fetch, and the pair succeeds. */
  lemma TwoFailuresThenSuccess(args: DownloadArgs, file: Path, raises: set<nat>)
    requires !Completes(raises, 0) && !Completes(raises, 1) && Completes(raises, 2)
    ensures PairRun(args, file, raises, 0)
              == Run([Fetch(args, false), Remove(file), Fetch(args, false), Remove(file), Fetch(args, true)], true, 3)
  {
  }

  // ---------------------------------------------------------------------
  // Properties of the batch
  // ---------------------------------------------------------------------

  /** `act` is a download of one pair of `pairs` (with `pairs` set to just
      that pair) or the removal of such a pair's trades file. */
  ghost predicate ActionFor(args: DownloadArgs, dataDir: Path, pairToFilename: string -> string,
                            pairs: seq<string>, act: Action) {
    match act
    case Fetch(a, _) => |a.pairs| == 1 && a.pairs[0] in pairs && a == ForPair(args, a.pairs[0])
    case Remove(f) => exists p :: p in pairs && f == TradesFile(dataDir, pairToFilename, p)
  }

  ghost predicate AllFor(args: DownloadArgs, dataDir: Path, pairToFilename: string -> string,
                         pairs: seq<string>, log: seq<Action>) {
    forall k :: 0 <= k < |log| ==> ActionFor(args, dataDir, pairToFilename, pairs, log[k])
  }

  /** Every download of the batch is for one pair of the list, and every
      removal is of a listed pair's trades file. */
  lemma {:induction false} BatchActions(args: DownloadArgs, pairs: seq<string>, dataDir: Path,
                                        pairToFilename: string -> string, raises: set<nat>, n: nat)
    ensures AllFor(args, dataDir, pairToFilename, pairs, BatchRun(args, pairs, dataDir, pairToFilename, raises, n).log)
    decreases |pairs|
  {
    if pairs != [] {
      var a := ForPair(args, pairs[0]);
      var file := TradesFile(dataDir, pairToFilename, pairs[0]);
      var pr := PairRun(a, file, raises, n);
      PairRunActions(a, file, raises, n);
      var r := BatchRun(args, pairs, dataDir, pairToFilename, raises, n);
      if pr.ok {
        var rest := BatchRun(args, pairs[1..], dataDir, pairToFilename, raises, pr.next);
        BatchActions(args, pairs[1..], dataDir, pairToFilename, raises, pr.next);
        assert r.log == pr.log + rest.log;
        forall k | 0 <= k < |r.log|
          ensures ActionFor(args, dataDir, pairToFilename, pairs, r.log[k])
        {
          if k < |pr.log| {
            assert r.log[k] == pr.log[k];
          } else {
            var act := rest.log[k - |pr.log|];
            assert r.log[k] == act;
            assert 0 <= k - |pr.log| < |rest.log|;
            assert ActionFor(args, dataDir, pairToFilename, pairs[1..], act);
            if act.Fetch? {
              assert act.args.pairs[0] in pairs;
            } else {
              var p :| p in pairs[1..] && act.file == TradesFile(dataDir, pairToFilename, p);
              assert p in pairs;
            }
          }
        }
      } else {
        forall k | 0 <= k < |r.log|
          ensures ActionFor(args, dataDir, pairToFilename, pairs, r.log[k])
        {
          assert r.log[k] == pr.log[k];
        }
      }
    }
  }

  /** The batch is the successful runs of the pairs before `j`, then the
      failed run of pair `j`, and nothing else. */
  ghost predicate FailsAt(args: DownloadArgs, pairs: seq<string>, dataDir: Path,
                          pairToFilename: string -> string, raises: set<nat>, n: nat, j: nat)
    requires j < |pairs|
  {
    var before := BatchRun(args, pairs[..j], dataDir, pairToFilename, raises, n);
    var failed := PairRun(ForPair(args, pairs[j]), TradesFile(dataDir, pairToFilename, pairs[j]), raises, before.next);
    && before.ok && !failed.ok
    && BatchRun(args, pairs, dataDir, pairToFilename, raises, n).log == before.log + failed.log
  }

  /** A failure at pair `j` of the rest of the list is a failure at pair
      `j + 1` of the whole list when its first pair succeeded. */
  lemma FailsAtCons(args: DownloadArgs, pairs: seq<string>, dataDir: Path,
                    pairToFilename: string -> string, raises: set<nat>, n: nat, j: nat)
    requires j + 1 < |pairs|
    requires PairRun(ForPair(args, pairs[0]), TradesFile(dataDir, pairToFilename, pairs[0]), raises, n).ok
    requires FailsAt(args, pairs[1..], dataDir, pairToFilename, raises,
                     PairRun(ForPair(args, pairs[0]), TradesFile(dataDir, pairToFilename, pairs[0]), raises, n).next, j)
    ensures FailsAt(args, pairs, dataDir, pairToFilename, raises, n, j + 1)
  {
    var pr := PairRun(ForPair(args, pairs[0]), TradesFile(dataDir, pairToFilename, pairs[0]), raises, n);
    var before := BatchRun(args, pairs[1..][..j], dataDir, pairToFilename, raises, pr.next);
    var failed := PairRun(ForPair(args, pairs[j + 1]), TradesFile(dataDir, pairToFilename, pairs[j + 1]), raises, before.next);
    var prefix := pairs[..j + 1];
    assert prefix[0] == pairs[0] && prefix[1..] == pairs[1..][..j];
    assert pairs[1..][j] == pairs[j + 1];
    assert BatchRun(args, prefix, dataDir, pairToFilename, raises, n) == Then(pr.log, before);
    assert pr.log + (before.log + failed.log) == (pr.log + before.log) + failed.log;
  }

  /** When the batch fails, it is the pairs before some pair j, all
      successful, then pair j's failed run, and nothing after it: the pairs
      after j are never attempted. */
  lemma {:induction false} BatchAbort(args: DownloadArgs, pairs: seq<string>, dataDir: Path,
                                      pairToFilename: string -> string, raises: set<nat>, n: nat)
    requires !BatchRun(args, pairs, dataDir, pairToFilename, raises, n).ok
    ensures exists j :: 0 <= j < |pairs| && FailsAt(args, pairs, dataDir, pairToFilename, raises, n, j)
    decreases |pairs|
  {
    var pr := PairRun(ForPair(args, pairs[0]), TradesFile(dataDir, pairToFilename, pairs[0]), raises, n);
    if !pr.ok {
      assert pairs[..0] == [];
      assert pr.log == [] + pr.log;
      assert FailsAt(args, pairs, dataDir, pairToFilename, raises, n, 0);
    } else {
      BatchAbort(args, pairs[1..], dataDir, pairToFilename, raises, pr.next);
      var j :| 0 <= j < |pairs[1..]| && FailsAt(args, pairs[1..], dataDir, pairToFilename, raises, pr.next, j);
      FailsAtCons(args, pairs, dataDir, pairToFilename, raises, n, j);
    }
  }

  /** Every pair of a successful batch has a completed download. */
  lemma {:induction false} BatchSuccessDownloadsAll(args: DownloadArgs, pairs: seq<string>, dataDir: Path,
                                                    pairToFilename: string -> string, raises: set<nat>, n: nat)
    requires BatchRun(args, pairs, dataDir, pairToFilename, raises, n).ok
    ensures forall j :: 0 <= j < |pairs| ==>
      Fetch(ForPair(args, pairs[j]), true) in BatchRun(args, pairs, dataDir, pairToFilename, raises, n).log
    decreases |pairs|
  {
    if pairs != [] {
      var a := ForPair(args, pairs[0]);
      var file := TradesFile(dataDir, pairToFilename, pairs[0]);
      var pr := PairRun(a, file, raises, n);
      PairRunShape(a, file, raises, n);
      var last := |pr.log| - 1;
      assert last == 0 || last % 2 == 0;
      assert pr.log[last] == Fetch(a, true);
      BatchSuccessDownloadsAll(args, pairs[1..], dataDir, pairToFilename, raises, pr.next);
      var r := BatchRun(args, pairs, dataDir, pairToFilename, raises, n);
      var rest := BatchRun(args, pairs[1..], dataDir, pairToFilename, raises, pr.next);
      assert r.log == pr.log + rest.log;
      forall j | 1 <= j < |pairs|
        ensures Fetch(ForPair(args, pairs[j]), true) in r.log
      {
        assert pairs[1..][j - 1] == pairs[j];
      }
    }
  }

  /** A batch that fails leaves some pair without a completed download, when
      no pair is listed twice. */
  lemma BatchFailureMissesPair(args: DownloadArgs, pairs: seq<string>, dataDir: Path,
                               pairToFilename: string -> string, raises: set<nat>, n: nat)
    requires forall i, j :: 0 <= i < j < |pairs| ==> pairs[i] != pairs[j]
    requires !BatchRun(args, pairs, dataDir, pairToFilename, raises, n).ok
    ensures exists j :: 0 <= j < |pairs| && Fetch(ForPair(args, pairs[j]), true) !in BatchRun(args, pairs, dataDir, pairToFilename, raises, n).log
  {
    var r := BatchRun(args, pairs, dataDir, pairToFilename, raises, n);
    BatchAbort(args, pairs, dataDir, pairToFilename, raises, n);
    var j :| 0 <= j < |pairs| && FailsAt(args, pairs, dataDir, pairToFilename, raises, n, j);
    var before := BatchRun(args, pairs[..j], dataDir, pairToFilename, raises, n);
    var a := ForPair(args, pairs[j]);
    var file := TradesFile(dataDir, pairToFilename, pairs[j]);
    var failed := PairRun(a, file, raises, before.next);
    assert r.log == before.log + failed.log;
    BatchActions(args, pairs[..j], dataDir, pairToFilename, raises, n);
    PairRunActions(a, file, raises, before.next);
    assert pairs[j] !in pairs[..j];
    assert Fetch(a, true) !in before.log by {
      forall k | 0 <= k < |before.log|
        ensures before.log[k] != Fetch(a, true)
      {
        assert ActionFor(args, dataDir, pairToFilename, pairs[..j], before.log[k]);
      }
    }
    assert Fetch(a, true) !in failed.log by {
      forall k | 0 <= k < |failed.log|
        ensures failed.log[k] != Fetch(a, true)
      {
      }
    }
  }

  /** For a list without repeated pairs, `load_data` reports success exactly
      when every pair got a completed download. */
  lemma BatchSucceedsIffAllDownloaded(args: DownloadArgs, pairs: seq<string>, dataDir: Path,
                                      pairToFilename: string -> string, raises: set<nat>, n: nat)
    requires forall i, j :: 0 <= i < j < |pairs| ==> pairs[i] != pairs[j]
    ensures var r := BatchRun(args, pairs, dataDir, pairToFilename, raises, n);
      r.ok <==> forall j :: 0 <= j < |pairs| ==> Fetch(ForPair(args, pairs[j]), true) in r.log
  {
    if BatchRun(args, pairs, dataDir, pairToFilename, raises, n).ok {
      BatchSuccessDownloadsAll(args, pairs, dataDir, pairToFilename, raises, n);
    } else {
      BatchFailureMissesPair(args, pairs, dataDir, pairToFilename, raises, n);
    }
  }

  // ---------------------------------------------------------------------
  // DataDownload
  // ---------------------------------------------------------------------

  class DataDownload {
    const configFiles: seq<string>
    const backPeriod: int
    const config: Config
    const botName: string
    const timeframe: string
    const pairList: seq<string>
    const dataDir: Path
    const name: string
    const windowStart: int
    const windowEnd: int
    const timerange: (int, int)
    const dryRunWallet: int
    /** The exchange library's pair-to-filename mapping. */
    const pairToFilename: string -> string

    /** `loaded` is the configuration read for `args`; `endMinute` is the
        start of the last closed candle, `timeframeMinutes` the candle length. */
    constructor (args: Args, loaded: Config, endMinute: int, timeframeMinutes: int, pairToFilename: string -> string)
      ensures configFiles == args.config && backPeriod == BackPeriod(args.backperiod)
      ensures config == loaded.(dryRun := true)
      ensures botName == loaded.botName && timeframe == loaded.timeframe
      ensures pairList == loaded.pairs && dataDir == loaded.datadir && name == loaded.botName
      ensures windowEnd == endMinute && windowStart == WindowStart(args.backperiod, endMinute, timeframeMinutes)
      ensures timerange == DayRange(windowStart, windowEnd)
      ensures dryRunWallet == 1000 && this.pairToFilename == pairToFilename
    {
      configFiles := args.config;
      backPeriod := BackPeriod(args.backperiod);
      config := loaded.(dryRun := true);
      botName := loaded.botName;
      timeframe := loaded.timeframe;
      pairList := loaded.pairs;
      dataDir := loaded.datadir;
      name := loaded.botName;
      windowEnd := endMinute;
      windowStart := WindowStart(args.backperiod, endMinute, timeframeMinutes);
      timerange := DayRange(WindowStart(args.backperiod, endMinute, timeframeMinutes), endMinute);
      dryRunWallet := 1000;
      this.pairToFilename := pairToFilename;
    }

    /** The initial `download_args`: the configuration files, the one
        timeframe, every configured pair and the window's days, for a dry run
        with a wallet of 1000. */
    function InitialArgs(): (a: DownloadArgs)
      ensures a.config == configFiles && a.timeframes == [timeframe] && a.pairs == config.pairs
      ensures a.timerange == timerange && a.dryRun && a.dryRunWallet == 1000
    {
      DownloadArgs(configFiles, [timeframe], config.pairs, timerange, true, 1000)
    }

    function PairTradesFilename(datadir: Path, pair: string): Path {
      TradesFile(datadir, pairToFilename, pair)
    }

    /** _download_data: an exception of the download becomes False. */
    method DownloadData(dl: Downloader, args: DownloadArgs) returns (completed: bool)
      modifies dl
      ensures completed == Completes(dl.raises, old(dl.calls))
      ensures dl.calls == old(dl.calls) + 1 && dl.log == old(dl.log) + [Fetch(args, completed)]
    {
      var raised := dl.StartDownloadData(args);
      completed := !raised;
    }

    /** The retries of a pair whose first download failed. */
    method RetryPair(dl: Downloader, args: DownloadArgs, pair: string) returns (dataDownloaded: bool)
      modifies dl
      ensures var r := Retries(args, PairTradesFilename(dataDir, pair), dl.raises, old(dl.calls), 1);
        dataDownloaded == r.ok && dl.log == old(dl.log) + r.log && dl.calls == r.next
    {
      var dataFileName := PairTradesFilename(dataDir, pair);
      dataDownloaded := false;
      ghost var total := Retries(args, dataFileName, dl.raises, dl.calls, 1);
      ghost var done: seq<Action> := [];
      for i := 1 to 4
        invariant !dataDownloaded
        invariant dl.log == old(dl.log) + done
        invariant total == Then(done, if i <= 3 then Retries(args, dataFileName, dl.raises, dl.calls, i)
                                      else Run([], false, dl.calls))
      {
        ghost var n := dl.calls;
        ghost var step := [Remove(dataFileName), Fetch(args, Completes(dl.raises, n))];
        RetriesUnfold(args, dataFileName, dl.raises, n, i);
        ThenThen(done, step, RetriesAfter(args, dataFileName, dl.raises, n, i));
        ghost var before := dl.log;
        dl.RemoveFile(dataFileName);
        dataDownloaded := DownloadData(dl, args);
        AppendTwo(before, Remove(dataFileName), Fetch(args, dataDownloaded));
        AppendAssoc(old(dl.log), done, step);
        done := done + step;
        if dataDownloaded {
          break;
        }
      }
      assert total == Then(done, Run([], dataDownloaded, dl.calls));
      assert done + [] == done;
    }

    /** One pair: a download, and the retries when it fails; whether the
        pair's data ended up downloaded. */
    method DownloadPair(dl: Downloader, args: DownloadArgs, pair: string) returns (downloaded: bool)
      modifies dl
      ensures var r := PairRun(args, PairTradesFilename(dataDir, pair), dl.raises, old(dl.calls));
        downloaded == r.ok && dl.log == old(dl.log) + r.log && dl.calls == r.next
    {
      ghost var file := PairTradesFilename(dataDir, pair);
      ghost var log0, n0 := dl.log, dl.calls;
      downloaded := DownloadData(dl, args);
      if !downloaded {
        ghost var log1 := dl.log;
        downloaded := RetryPair(dl, args, pair);
        ghost var rest := Retries(args, file, dl.raises, n0 + 1, 1);
        assert PairRun(args, file, dl.raises, n0) == Then([Fetch(args, false)], rest);
        AppendAssoc(log0, [Fetch(args, false)], rest.log);
      }
    }

    /** load_data: download every configured pair in order, retrying a
        failed pair up to three times; the first pair that still fails ends
        the batch with False. */
    method LoadData(dl: Downloader) returns (ok: bool)
      modifies dl
      ensures var r := BatchRun(InitialArgs(), config.pairs, dataDir, pairToFilename, dl.raises, old(dl.calls));
        ok == r.ok && dl.log == old(dl.log) + r.log && dl.calls == r.next
    {
      var downloadArgs := InitialArgs();
      var pairs := config.pairs;
      ghost var initial := downloadArgs;
      ghost var total := BatchFrom(initial, pairs, 0, dataDir, pairToFilename, dl.raises, dl.calls, dl.log);
      BatchFromSuffix(initial, pairs, 0, dataDir, pairToFilename, dl.raises, dl.calls, dl.log);
      assert pairs[0..] == pairs;
      for j := 0 to |pairs|
        invariant j == 0 ==> downloadArgs == initial
        invariant j > 0 ==> downloadArgs == ForPair(initial, pairs[j - 1])
        invariant total == BatchFrom(initial, pairs, j, dataDir, pairToFilename, dl.raises, dl.calls, dl.log)
      {
        var pair := pairs[j];
        if j > 0 {
          ForPairAgain(initial, pairs[j - 1], pair);
        }
        downloadArgs := downloadArgs.(pairs := [pair]);
        var downloaded := DownloadPair(dl, downloadArgs, pair);
        if !downloaded {
          return false;
        }
      }
      ok := true;
    }
  }
}
