/** The look-back window both the optimiser and the data download cover:
    `back_period` candles of the configured timeframe, ending at the last
    closed candle. Times are whole minutes. */
module Timerange {
  import opened Values

  /** The `backperiod` entry of the parsed command line: left out of the
      dict, present with value None, or given. */
  datatype ArgValue = Absent | NoneValue | Given(n: int)

  /** The command-line arguments the constructors read. */
  datatype Args = Args(strategy: string, config: seq<string>, backperiod: ArgValue)

  const DefaultBackPeriod: int := 864

  /** `args.get("backperiod", 864)` as written: the default only applies when
      the key is missing, so a present None comes through as None. */
  function BackPeriodAsWritten(arg: ArgValue): (v: Value)
    ensures v.Int? <==> !arg.NoneValue?
    ensures v.Int? ==> v.i == BackPeriod(arg)
    ensures !v.Int? ==> !Truthy(v)
    ensures arg.NoneValue? ==> v == Null
  {
    match arg
    case Absent => Int(DefaultBackPeriod)
    case NoneValue => Null
    case Given(n) => Int(n)
  }

  /** `end - timedelta(minutes=back_period * timeframe_minutes)` as written,
      in minutes: `None * minutes` raises TypeError. */
  function WindowStartAsWritten(arg: ArgValue, endMinute: int, timeframeMinutes: int): (r: Result<int>)
    ensures r.Ok? <==> !arg.NoneValue?
    ensures r.Err? ==> r.error == TypeError
    ensures r.Ok? ==> r.value == WindowStart(arg, endMinute, timeframeMinutes)
  {
    match BackPeriodAsWritten(arg)
    case Int(n) => Ok(endMinute - n * timeframeMinutes)
    case _ => Err(TypeError)
  }

  /** The parser declares `--backperiod` without a default, so a command line
      without the option yields `backperiod: None`, and the window cannot be
      computed. */
  lemma WindowAsWrittenFailsWithoutOption(endMinute: int, timeframeMinutes: int)
    ensures WindowStartAsWritten(NoneValue, endMinute, timeframeMinutes) == Err(TypeError)
    ensures WindowStartAsWritten(Absent, endMinute, timeframeMinutes).Ok?
  {
  }

  /** The look-back period in candles: the option when given, 864 otherwise. */
  function BackPeriod(arg: ArgValue): int {
    if arg.Given? then arg.n else DefaultBackPeriod
  }

  /** The first minute of the window that ends at `endMinute`. */
  function WindowStart(arg: ArgValue, endMinute: int, timeframeMinutes: int): (start: int)
    ensures arg.Given? ==> start == endMinute - arg.n * timeframeMinutes
    ensures !arg.Given? ==> start == endMinute - 864 * timeframeMinutes
    ensures timeframeMinutes >= 0 && BackPeriod(arg) >= 0 ==> start <= endMinute
  {
    endMinute - BackPeriod(arg) * timeframeMinutes
  }

  /** With the option not given, the corrected window treats a present None
      like a missing key, and both are the window the code as written
      computes for a missing key: 864 candles. */
  lemma WindowStartDefault(endMinute: int, timeframeMinutes: int)
    ensures WindowStart(NoneValue, endMinute, timeframeMinutes) == WindowStart(Absent, endMinute, timeframeMinutes)
    ensures WindowStartAsWritten(Absent, endMinute, timeframeMinutes)
         == Ok(WindowStart(NoneValue, endMinute, timeframeMinutes))
    ensures WindowStart(NoneValue, endMinute, timeframeMinutes) == endMinute - DefaultBackPeriod * timeframeMinutes
  {
  }

  /** Minutes in a day. */
  const MinutesPerDay: int := 1440

  /** The timerange string `%Y%m%d-%Y%m%d` names the calendar days of the
      window's two ends; the model keeps their day numbers (whole days since
      the epoch, rounded down) and leaves the date formatting out. */
  function DayRange(start: int, end: int): (days: (int, int))
    ensures days.0 * MinutesPerDay <= start < (days.0 + 1) * MinutesPerDay
    ensures days.1 * MinutesPerDay <= end < (days.1 + 1) * MinutesPerDay
  {
    (start / MinutesPerDay, end / MinutesPerDay)
  }

  /** A window that does not run backwards names its days in order, and at
      most one day more than the whole days it lasts. */
  lemma DayRangeOrdered(start: int, end: int)
    requires start <= end
    ensures DayRange(start, end).0 <= DayRange(start, end).1
    ensures DayRange(start, end).1 - DayRange(start, end).0 <= (end - start) / MinutesPerDay + 1
  {
    var days := DayRange(start, end);
    var q := (end - start) / MinutesPerDay;
    assert q * MinutesPerDay <= end - start < (q + 1) * MinutesPerDay;
    assert (days.1 - days.0 - 1) * MinutesPerDay < (q + 1) * MinutesPerDay;
  }
}
