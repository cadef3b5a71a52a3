/** The helpers around the optimiser: the stake-versus-wallet check on a
    loaded configuration, the selection of the best trial from the optimiser's
    results file, and the win rate of the human-readable report. */
module Utils {
  import opened Values
  import opened ModelStorage

  /** `stake_amount`: the marker "unlimited" or a fixed amount. */
  datatype Stake = Unlimited | Amount(amount: real)

  /** The entries of a loaded configuration the orchestration code reads. */
  datatype Config = Config(
    botName: string,
    timeframe: string,
    pairs: seq<string>,
    datadir: Path,
    userDataDir: Path,
    stakeAmount: Stake,
    dryRunWallet: real,
    stakeCurrency: string,
    dryRun: bool)

  /** A fixed stake that the dry-run wallet cannot cover. */
  predicate StakeExceedsWallet(config: Config) {
    config.stakeAmount.Amount? && config.stakeAmount.amount > config.dryRunWallet
  }

  /** setup_chopt_configuration: the loaded configuration, rejected when a
      fixed stake is larger than the dry-run wallet. */
  function SetupChoptConfiguration(loaded: Config): (r: Result<Config>)
    ensures r.Ok? <==> loaded.stakeAmount.Unlimited? || loaded.stakeAmount.amount <= loaded.dryRunWallet
    ensures r.Ok? ==> r.value == loaded
    ensures r.Err? ==> r.error.OperationalException?
  {
    if StakeExceedsWallet(loaded) then
      Err(OperationalException("Starting balance is smaller than stake_amount."))
    else Ok(loaded)
  }

  /** An unlimited stake passes whatever the wallet holds. */
  lemma UnlimitedStakeAccepted(loaded: Config)
    requires loaded.stakeAmount.Unlimited?
    ensures SetupChoptConfiguration(loaded) == Ok(loaded)
  {
  }

  // ---------------------------------------------------------------------
  // Best-trial selection in hyperopt_run
  // ---------------------------------------------------------------------

  /** One line of the results file: a JSON value, or text rapidjson rejects
      (an empty line among them). */
  datatype Line = Parsed(v: Value) | Malformed

  /** `[rapidjson.loads(line.rstrip()) for line in f]`: every line is parsed
      before any record is looked at, and the first bad line raises. */
  function ParseResults(lines: seq<Line>): (r: Result<seq<Value>>)
    ensures r.Ok? <==> forall i :: 0 <= i < |lines| ==> lines[i].Parsed?
    ensures r.Ok? ==> |r.value| == |lines| && forall i :: 0 <= i < |lines| ==> r.value[i] == lines[i].v
    ensures r.Err? ==> r.error == ParseError
  {
    if lines == [] then Ok([])
    else if lines[0].Malformed? then Err(ParseError)
    else
      match ParseResults(lines[1..])
      case Err(e) => Err(e)
      case Ok(rest) => Ok([lines[0].v] + rest)
  }

  /** A record `hyperopt_run` adopts: truthy and with a truthy `is_best`. */
  predicate IsBest(v: Value) {
    Truthy(v) && v.Dict? && StrKey("is_best") in v.entries && Truthy(v.entries[StrKey("is_best")])
  }

  /** A truthy record on which `r['is_best']` raises. */
  predicate Unreadable(v: Value) {
    Truthy(v) && !(v.Dict? && StrKey("is_best") in v.entries)
  }

  /** What `r['is_best']` raises on an unreadable record. */
  function ReadError(v: Value): Error {
    if v.Dict? then KeyError("is_best") else TypeError
  }

  /** The outcome of the selection loop over `records`: the first unreadable
      record raises; otherwise the result is the last record in file order
      that is truthy and flagged best, or the empty dict when none is. */
  ghost predicate IsSelection(records: seq<Value>, r: Result<Doc>) {
    && (r.Ok? <==> forall i :: 0 <= i < |records| ==> !Unreadable(records[i]))
    && (r.Err? ==>
          exists i :: 0 <= i < |records| && Unreadable(records[i]) && r.error == ReadError(records[i])
                      && forall j :: 0 <= j < i ==> !Unreadable(records[j]))
    && (r.Ok? && r.value == map[] ==> forall i :: 0 <= i < |records| ==> !IsBest(records[i]))
    && (r.Ok? && r.value != map[] ==>
          exists i :: 0 <= i < |records| && IsBest(records[i]) && r.value == records[i].entries
                      && forall j :: i < j < |records| ==> !IsBest(records[j]))
  }

  /** The selection is determined by the records: two outcomes that both fit are equal. */
  lemma SelectionUnique(records: seq<Value>, r1: Result<Doc>, r2: Result<Doc>)
    requires IsSelection(records, r1) && IsSelection(records, r2)
    ensures r1 == r2
  {
    if r1.Err? {
      var i1 :| 0 <= i1 < |records| && Unreadable(records[i1]) && r1.error == ReadError(records[i1])
                && forall j :: 0 <= j < i1 ==> !Unreadable(records[j]);
      var i2 :| 0 <= i2 < |records| && Unreadable(records[i2]) && r2.error == ReadError(records[i2])
                && forall j :: 0 <= j < i2 ==> !Unreadable(records[j]);
      assert i1 == i2;
    } else if r1.value != map[] && r2.value != map[] {
      var i1 :| 0 <= i1 < |records| && IsBest(records[i1]) && r1.value == records[i1].entries
                && forall j :: i1 < j < |records| ==> !IsBest(records[j]);
      var i2 :| 0 <= i2 < |records| && IsBest(records[i2]) && r2.value == records[i2].entries
                && forall j :: i2 < j < |records| ==> !IsBest(records[j]);
      assert i1 == i2;
    }
  }

  /** The loop `for r in hyperopts: if r and r['is_best']: hyperopt_res = r`. */
  method SelectBest(records: seq<Value>) returns (r: Result<Doc>)
    ensures IsSelection(records, r)
  {
    var best: Doc := map[];
    ghost var at := -1;
    for i := 0 to |records|
      invariant forall j :: 0 <= j < i ==> !Unreadable(records[j])
      invariant at == -1 ==> best == map[] && forall j :: 0 <= j < i ==> !IsBest(records[j])
      invariant at != -1 ==> 0 <= at < i && IsBest(records[at]) && best == records[at].entries
                             && forall j :: at < j < i ==> !IsBest(records[j])
    {
      var rec := records[i];
      if Truthy(rec) {
        var flag := Subscript(rec, "is_best");
        if flag.Err? {
          return Err(flag.error);
        }
        if Truthy(flag.value) {
          best := rec.entries;
          at := i;
        }
      }
    }
    r := Ok(best);
  }

  /** What hyperopt_run returns or raises, given the loaded configuration,
      whether the run lock was free within its one-second timeout, and the
      lines of the results file (None: the optimiser left no results file). */
  ghost predicate HyperoptOutcome(loaded: Config, lockAcquired: bool, resultsFile: Option<seq<Line>>, r: Result<Doc>) {
    if SetupChoptConfiguration(loaded).Err? then r == Err(SetupChoptConfiguration(loaded).error)
    else if !lockAcquired then r == Ok(map[])
    else if resultsFile.None? then r == Err(OperationalException("No hyperopt result file found."))
    else
      match ParseResults(resultsFile.value)
      case Err(e) => r == Err(e)
      case Ok(records) => IsSelection(records, r)
  }

  /** hyperopt_run: check the configuration, take the run lock, and pick the
      best trial from the results file. The optimiser itself is an oracle:
      its run is not modelled, only the results file it leaves. */
  method HyperoptRun(loaded: Config, lockAcquired: bool, resultsFile: Option<seq<Line>>) returns (r: Result<Doc>)
    ensures HyperoptOutcome(loaded, lockAcquired, resultsFile, r)
    ensures SetupChoptConfiguration(loaded).Ok? && !lockAcquired ==> r == Ok(map[])
  {
    var config := SetupChoptConfiguration(loaded);
    if config.Err? {
      return Err(config.error);
    }
    if !lockAcquired {
      // Timeout: another instance holds the lock; the empty result is returned
      return Ok(map[]);
    }
    if resultsFile.None? {
      return Err(OperationalException("No hyperopt result file found."));
    }
    var parsed := ParseResults(resultsFile.value);
    if parsed.Err? {
      return Err(parsed.error);
    }
    r := SelectBest(parsed.value);
  }

  // ---------------------------------------------------------------------
  // human_report_hyperopt
  // ---------------------------------------------------------------------

  /** `wins / total_trades if total_trades else 1` */
  function WinRate(wins: Value, totalTrades: Value): (r: Result<real>)
    ensures !Truthy(totalTrades) ==> r == Ok(1.0)
    ensures Truthy(totalTrades) ==> (r.Ok? <==> AsNumber(wins).Some? && AsNumber(totalTrades).Some?)
    ensures Truthy(totalTrades) && r.Ok? ==>
              AsNumber(totalTrades).value != 0.0
              && r.value * AsNumber(totalTrades).value == AsNumber(wins).value
  {
    if !Truthy(totalTrades) then Ok(1.0)
    else
      match (AsNumber(wins), AsNumber(totalTrades))
      case (Some(w), Some(t)) => Ok(w / t)
      case _ => Err(TypeError)
  }

  /** With no more wins than trades, the win rate is a fraction. */
  lemma WinRateFraction(wins: nat, totalTrades: nat)
    requires wins <= totalTrades
    ensures WinRate(Int(wins), Int(totalTrades)).Ok?
    ensures 0.0 <= WinRate(Int(wins), Int(totalTrades)).value <= 1.0
  {
    if totalTrades != 0 {
      var w, t := wins as real, totalTrades as real;
      assert w / t <= t / t;
    }
  }

  /** The numbers the report prints with two decimals. */
  datatype Report = Report(winRate: real, profitTotalAbs: real, profitTotalPct: real, profitMeanPct: real)

  /** The counts read before the win rate is computed. */
  const CountKeys: seq<string> := ["total_trades", "trades_per_day", "wins", "draws", "losses"]

  /** The profit and holding figures read after it. */
  const ProfitKeys: seq<string> := [
    "profit_mean", "profit_median", "profit_total", "profit_total_abs",
    "winner_holding_avg", "holding_avg", "loser_holding_avg"]

  /** Every metric the report reads. */
  const ReportKeys: seq<string> := CountKeys + ProfitKeys + ["stake_currency"]

  /** `d[k]` for each key in turn, stopping at the first lookup that raises. */
  function SubscriptEach(d: Value, keys: seq<string>): (r: Result<seq<Value>>)
    ensures r.Ok? <==> forall k :: k in keys ==> d.Dict? && StrKey(k) in d.entries
    ensures r.Ok? ==> |r.value| == |keys| && forall i :: 0 <= i < |keys| ==> d.Dict? && r.value[i] == d.entries[StrKey(keys[i])]
  {
    if keys == [] then Ok([])
    else
      assert keys[0] in keys && forall k :: k in keys <==> k == keys[0] || k in keys[1..];
      var v :- Subscript(d, keys[0]);
      var rest :- SubscriptEach(d, keys[1..]);
      Ok([v] + rest)
  }

  /** A value formatted with ':.2f'. */
  function Fixed(v: Value): Result<real> {
    match AsNumber(v)
    case Some(x) => Ok(x)
    case None => Err(FormatError)
  }

  /** What the report needs: a `results_metrics` dict holding every metric
      it reads, a win rate that can be computed, and numbers for the three
      figures formatted with ':.2f'. */
  predicate ReportReady(res: Doc) {
    && StrKey("results_metrics") in res && res[StrKey("results_metrics")].Dict?
    && var m := res[StrKey("results_metrics")].entries;
       && (forall k :: k in ReportKeys ==> StrKey(k) in m)
       && StrKey("wins") in m && StrKey("total_trades") in m
       && StrKey("profit_total_abs") in m && StrKey("profit_total") in m && StrKey("profit_mean") in m
       && WinRate(m[StrKey("wins")], m[StrKey("total_trades")]).Ok?
       && AsNumber(m[StrKey("profit_total_abs")]).Some?
       && AsNumber(m[StrKey("profit_total")]).Some?
       && AsNumber(m[StrKey("profit_mean")]).Some?
  }

  /** human_report_hyperopt: the win rate and profit figures of the chosen
      trial; raises when a metric is missing or cannot be formatted. */
  function HumanReport(res: Doc): (r: Result<Report>)
    ensures r.Ok? ==>
      && ReportReady(res)
      && (var m := res[StrKey("results_metrics")].entries;
          && WinRate(m[StrKey("wins")], m[StrKey("total_trades")]) == Ok(r.value.winRate)
          && AsNumber(m[StrKey("profit_total_abs")]) == Some(r.value.profitTotalAbs)
          && r.value.profitTotalPct == AsNumber(m[StrKey("profit_total")]).value * 100.0
          && r.value.profitMeanPct == AsNumber(m[StrKey("profit_mean")]).value * 100.0)
  {
    var metrics :- Subscript(Dict(res), "results_metrics");
    var counts :- SubscriptEach(metrics, CountKeys);
    var totalTrades, wins := counts[0], counts[2];
    var winRate :- WinRate(wins, totalTrades);
    var profits :- SubscriptEach(metrics, ProfitKeys);
    var profitMean, profitTotal, profitTotalAbs := profits[0], profits[2], profits[3];
    // the f-string formats profit_total_abs, then reads stake_currency,
    // then formats profit_total * 100 and profit_mean * 100
    var abs :- Fixed(profitTotalAbs);
    var currency :- Subscript(metrics, "stake_currency");
    var total :- Fixed(profitTotal);
    var mean :- Fixed(profitMean);
    assert CountKeys[0] == "total_trades" && CountKeys[2] == "wins";
    assert ProfitKeys[0] == "profit_mean" && ProfitKeys[2] == "profit_total" && ProfitKeys[3] == "profit_total_abs";
    Ok(Report(winRate, abs, total * 100.0, mean * 100.0))
  }

  /** Whenever the metrics are all there and numeric where formatted, the
      report is written: with `HumanReport`'s own contract, the report
      succeeds exactly on `ReportReady` inputs. */
  lemma HumanReportReady(res: Doc)
    requires ReportReady(res)
    ensures HumanReport(res).Ok?
  {
  }

  /** A report is refused whenever a metric it reads is missing. */
  lemma HumanReportMissingMetric(res: Doc, k: string)
    requires StrKey("results_metrics") in res && res[StrKey("results_metrics")].Dict?
    requires k in ReportKeys && StrKey(k) !in res[StrKey("results_metrics")].entries
    ensures HumanReport(res).Err?
  {
  }

  /** A report with no trades shows a win rate of 1. */
  lemma ZeroTradesWinRate(res: Doc)
    requires HumanReport(res).Ok?
    requires res[StrKey("results_metrics")].entries[StrKey("total_trades")] == Int(0)
    ensures HumanReport(res).value.winRate == 1.0
  {
  }
}
