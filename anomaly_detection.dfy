/** `detect_anomalies`: validates the columns of a frame of daily metrics,
    sorts the days, computes 7-day rolling-median baselines and derives the
    threshold flags, `is_anomalous` and `anomaly_severity` of every day.
    Both handler versions carry the same code, so one module models both. */
module AnomalyDetection {
  import opened Wrappers
  import opened Text
  import opened Dates
  import opened PyValue
  import opened RollingMedian

  datatype Metric = Hrv | RestingHr | SleepScore | Steps | RecoveryIndex | MovementIndex

  datatype Column = DateColumn | MetricColumn(metric: Metric)

  function ColumnName(c: Column): string {
    match c
    case DateColumn => "date"
    case MetricColumn(m) =>
      match m
      case Hrv => "hrv"
      case RestingHr => "resting_hr"
      case SleepScore => "sleep_score"
      case Steps => "steps"
      case RecoveryIndex => "recovery_index"
      case MovementIndex => "movement_index"
  }

  /** One day of metrics; a value is None where the cell is missing. */
  datatype DayRow = DayRow(
    date: Date,
    hrv: Option<real>,
    restingHr: Option<real>,
    sleepScore: Option<real>,
    steps: Option<real>,
    recoveryIndex: Option<real>,
    movementIndex: Option<real>)
  {
    function Value(m: Metric): Option<real> {
      match m
      case Hrv => hrv
      case RestingHr => restingHr
      case SleepScore => sleepScore
      case Steps => steps
      case RecoveryIndex => recoveryIndex
      case MovementIndex => movementIndex
    }
  }

  /** A data frame: the columns it has and its rows, in the caller's order. */
  datatype Frame = Frame(columns: set<Column>, rows: seq<DayRow>)

  // ---------------------------------------------------------------------
  // Column validation

  const RequiredColumns: seq<Column> :=
    [DateColumn, MetricColumn(Hrv), MetricColumn(RestingHr), MetricColumn(SleepScore), MetricColumn(Steps)]

  function MissingAmong(wanted: seq<Column>, columns: set<Column>): (missing: seq<Column>)
    ensures forall c :: c in missing <==> c in wanted && c !in columns
    ensures |missing| <= |wanted|
  {
    if wanted == [] then []
    else (if wanted[0] in columns then [] else [wanted[0]]) + MissingAmong(wanted[1..], columns)
  }

  /** The required columns the frame lacks, in the order they are required. */
  function MissingColumns(columns: set<Column>): (missing: seq<Column>)
    ensures forall c :: c in missing <==> c in RequiredColumns && c !in columns
  {
    MissingAmong(RequiredColumns, columns)
  }

  /** Python's text of a list of strings: `['a', 'b']`. */
  function QuotedNames(cs: seq<Column>): (qs: seq<string>)
    ensures |qs| == |cs|
    ensures forall i :: 0 <= i < |cs| ==> qs[i] == "'" + ColumnName(cs[i]) + "'"
  {
    seq(|cs|, i requires 0 <= i < |cs| => "'" + ColumnName(cs[i]) + "'")
  }

  function MissingColumnsMessage(missing: seq<Column>): string {
    "Missing required columns: [" + Join(", ", QuotedNames(missing)) + "]"
  }

  /** The error names every missing column, not only the first. */
  lemma MissingMessageNamesEvery(missing: seq<Column>, c: Column)
    requires c in missing
    ensures Contains(MissingColumnsMessage(missing), "'" + ColumnName(c) + "'")
  {
    var k :| 0 <= k < |missing| && missing[k] == c;
    var qs := QuotedNames(missing);
    JoinContainsPart(", ", qs, k);
    ContainsInSuffix("Missing required columns: [", Join(", ", qs), qs[k]);
    ContainsInPrefix("Missing required columns: [" + Join(", ", qs), "]", qs[k]);
  }

  // ---------------------------------------------------------------------
  // Sorting by date

  /** Ascending by date, stated between neighbours. */
  predicate SortedByDate(days: seq<DayRow>) {
    |days| < 2 || (OnOrBefore(days[0].date, days[1].date) && SortedByDate(days[1..]))
  }

  /** Ascending by date, stated between every pair of positions. */
  lemma {:induction false} SortedByDateOrdered(days: seq<DayRow>)
    requires SortedByDate(days)
    ensures forall i, j :: 0 <= i < j < |days| ==> OnOrBefore(days[i].date, days[j].date)
    decreases |days|
  {
    if |days| >= 2 {
      SortedByDateOrdered(days[1..]);
      forall i, j | 0 <= i < j < |days| ensures OnOrBefore(days[i].date, days[j].date) {
        if i > 0 {
          assert days[i] == days[1..][i - 1] && days[j] == days[1..][j - 1];
        } else if j > 1 {
          assert days[j] == days[1..][j - 1] && days[1] == days[1..][0];
          OnOrBeforeTransitive(days[0].date, days[1].date, days[j].date);
        }
      }
    }
  }

  function InsertByDate(s: seq<DayRow>, x: DayRow): (r: seq<DayRow>)
    requires SortedByDate(s)
    ensures SortedByDate(r)
    ensures multiset(r) == multiset(s) + multiset{x}
    ensures |r| == |s| + 1
    ensures r[0] == x || (s != [] && r[0] == s[0])
  {
    if s == [] then [x]
    else if OnOrBefore(x.date, s[0].date) then [x] + s
    else
      OnOrBeforeTotal(x.date, s[0].date);
      var tail := InsertByDate(s[1..], x);
      assert s == [s[0]] + s[1..];
      assert ([s[0]] + tail)[1..] == tail;
      [s[0]] + tail
  }

  /** `sort_values("date")`: the rows in ascending date order. */
  function SortByDate(rows: seq<DayRow>): (days: seq<DayRow>)
    ensures SortedByDate(days)
    ensures multiset(days) == multiset(rows)
    ensures |days| == |rows|
  {
    if rows == [] then []
    else
      assert rows == rows[..|rows| - 1] + [rows[|rows| - 1]];
      InsertByDate(SortByDate(rows[..|rows| - 1]), rows[|rows| - 1])
  }

  // ---------------------------------------------------------------------
  // Baselines and flags

  /** A metric's column over the sorted days. */
  function ColumnValues(days: seq<DayRow>, m: Metric): (col: seq<Option<real>>)
    ensures |col| == |days|
    ensures forall i :: 0 <= i < |days| ==> col[i] == days[i].Value(m)
  {
    seq(|days|, i requires 0 <= i < |days| => days[i].Value(m))
  }

  /** The 7-day rolling median of a metric at sorted position `i`. */
  function Baseline(days: seq<DayRow>, m: Metric, i: nat): Option<real>
    requires i < |days|
  {
    Median(WindowValues(ColumnValues(days, m), i))
  }

  const AllMetrics: set<Metric> := {Hrv, RestingHr, SleepScore, Steps, RecoveryIndex, MovementIndex}

  /** The metrics that get a baseline column: hrv and resting_hr always,
      recovery_index, movement_index and steps when the frame has them. */
  predicate HasBaseline(m: Metric, columns: set<Column>) {
    match m
    case Hrv => true
    case RestingHr => true
    case SleepScore => false
    case _ => MetricColumn(m) in columns
  }

  function BaselineMetrics(columns: set<Column>): (ms: set<Metric>)
    ensures forall m :: m in ms <==> HasBaseline(m, columns)
  {
    set m | m in AllMetrics && HasBaseline(m, columns)
  }

  datatype Flag = LowHrv | HighRhr | LowSleep | LowRecovery | LowMovement | LowSteps

  /** The flag columns, in the order they are appended. */
  function FlagColumnsFor(columns: set<Column>): seq<Flag> {
    [LowHrv, HighRhr, LowSleep]
    + (if MetricColumn(RecoveryIndex) in columns then [LowRecovery] else [])
    + (if MetricColumn(MovementIndex) in columns then [LowMovement] else [])
    + (if MetricColumn(Steps) in columns then [LowSteps] else [])
  }

  /** The metric a flag tests. */
  function FlagMetric(f: Flag): Metric {
    match f
    case LowHrv => Hrv
    case HighRhr => RestingHr
    case LowSleep => SleepScore
    case LowRecovery => RecoveryIndex
    case LowMovement => MovementIndex
    case LowSteps => Steps
  }

  /** `a < b` on pandas cells: false when either side is missing. */
  predicate Below(a: Option<real>, b: Option<real>) {
    a.Some? && b.Some? && a.value < b.value
  }

  function Scaled(b: Option<real>, factor: real): Option<real> {
    if b.Some? then Some(b.value * factor) else None
  }

  function BaselineIn(baselines: map<Metric, Option<real>>, m: Metric): Option<real> {
    if m in baselines then baselines[m] else None
  }

  /** The flag rules: hrv below 0.7 of its baseline, resting_hr above 1.15
      of its baseline, sleep_score below 60, recovery_index below 50,
      movement_index below 40, steps below 0.6 of its baseline. */
  predicate FlagHolds(f: Flag, day: DayRow, baselines: map<Metric, Option<real>>) {
    match f
    case LowHrv => Below(day.hrv, Scaled(BaselineIn(baselines, Hrv), 0.7))
    case HighRhr => Below(Scaled(BaselineIn(baselines, RestingHr), 1.15), day.restingHr)
    case LowSleep => Below(day.sleepScore, Some(60.0))
    case LowRecovery => Below(day.recoveryIndex, Some(50.0))
    case LowMovement => Below(day.movementIndex, Some(40.0))
    case LowSteps => Below(day.steps, Scaled(BaselineIn(baselines, Steps), 0.6))
  }

  /** A missing value never sets a flag. */
  lemma MissingValueNeverFlags(f: Flag, day: DayRow, baselines: map<Metric, Option<real>>)
    requires day.Value(FlagMetric(f)).None?
    ensures !FlagHolds(f, day, baselines)
  {
  }

  /** The row's flag values, one per flag column. */
  function FlagRow(fc: seq<Flag>, day: DayRow, baselines: map<Metric, Option<real>>): (bs: seq<bool>)
    ensures |bs| == |fc|
    ensures forall j :: 0 <= j < |fc| ==> (bs[j] <==> FlagHolds(fc[j], day, baselines))
  {
    seq(|fc|, j requires 0 <= j < |fc| => FlagHolds(fc[j], day, baselines))
  }

  /** `astype(int).sum(axis=1)`. */
  function CountTrue(bs: seq<bool>): (n: nat)
    ensures n <= |bs|
  {
    if bs == [] then 0
    else CountTrue(bs[..|bs| - 1]) + (if bs[|bs| - 1] then 1 else 0)
  }

  /** `any(axis=1)`. */
  predicate AnyTrue(bs: seq<bool>) {
    exists j | 0 <= j < |bs| :: bs[j]
  }

  /** `is_anomalous` holds exactly when the severity is positive. */
  lemma {:induction false} AnyIffCountPositive(bs: seq<bool>)
    ensures AnyTrue(bs) <==> CountTrue(bs) > 0
    decreases |bs|
  {
    if bs != [] {
      var init := bs[..|bs| - 1];
      AnyIffCountPositive(init);
      assert forall j :: 0 <= j < |init| ==> init[j] == bs[j];
      if AnyTrue(bs) && !bs[|bs| - 1] {
        var j :| 0 <= j < |bs| && bs[j];
        assert init[j];
      }
    }
  }

  /** An enriched row: the day, its baselines, its flags, `is_anomalous` and
      `anomaly_severity`. */
  datatype EnrichedRow = EnrichedRow(
    day: DayRow,
    baselines: map<Metric, Option<real>>,
    flags: map<Flag, bool>,
    isAnomalous: bool,
    severity: nat)

  datatype Enriched = Enriched(flagColumns: seq<Flag>, rows: seq<EnrichedRow>)

  function Days(rows: seq<EnrichedRow>): (days: seq<DayRow>)
    ensures |days| == |rows|
    ensures forall i :: 0 <= i < |rows| ==> days[i] == rows[i].day
  {
    seq(|rows|, i requires 0 <= i < |rows| => rows[i].day)
  }

  /** A day with its baselines, enriched with the flags of the flag columns. */
  function EnrichRow(day: DayRow, baselines: map<Metric, Option<real>>, fc: seq<Flag>): EnrichedRow {
    var bs := FlagRow(fc, day, baselines);
    EnrichedRow(day, baselines, map f | f in fc :: FlagHolds(f, day, baselines), AnyTrue(bs), CountTrue(bs))
  }

  function BaselinesAt(days: seq<DayRow>, i: nat, columns: set<Column>): map<Metric, Option<real>>
    requires i < |days|
  {
    map m | m in BaselineMetrics(columns) :: Baseline(days, m, i)
  }

  /** What sorted position `i` of the result holds. */
  function EnrichAt(days: seq<DayRow>, i: nat, columns: set<Column>): EnrichedRow
    requires i < |days|
  {
    EnrichRow(days[i], BaselinesAt(days, i, columns), FlagColumnsFor(columns))
  }

  // ---------------------------------------------------------------------
  // The operation

  method DetectAnomalies(frame: Frame) returns (r: Result<Enriched, Exception>)
    ensures r.Failure? <==> MissingColumns(frame.columns) != []
    ensures r.Failure? ==> r.error == ValueError(MissingColumnsMessage(MissingColumns(frame.columns)))
    ensures r.Success? ==> r.value.flagColumns == FlagColumnsFor(frame.columns)
    ensures r.Success? ==> |r.value.rows| == |frame.rows|
    ensures r.Success? ==> SortedByDate(Days(r.value.rows))
    ensures r.Success? ==> multiset(Days(r.value.rows)) == multiset(frame.rows)
    ensures r.Success? ==> forall i :: 0 <= i < |r.value.rows| ==>
      r.value.rows[i] == EnrichAt(Days(r.value.rows), i, frame.columns)
  {
    var missing := MissingColumns(frame.columns);
    if missing != [] {
      return Failure(ValueError(MissingColumnsMessage(missing)));
    }
    var days := SortByDate(frame.rows);
    var baselineColumns, flagColumns := AddBaselinesAndFlagColumns(days, frame.columns);
    var rows := EnrichDays(days, frame.columns, baselineColumns, flagColumns);
    return Success(Enriched(flagColumns, rows));
  }

  /** `col` holds the baseline of metric `m` at every sorted position. */
  predicate IsBaselineColumn(days: seq<DayRow>, m: Metric, col: seq<Option<real>>) {
    |col| == |days| && forall i :: 0 <= i < |days| ==> col[i] == Baseline(days, m, i)
  }

  method BaselineColumn(days: seq<DayRow>, m: Metric) returns (col: seq<Option<real>>)
    ensures IsBaselineColumn(days, m, col)
  {
    col := RollingMedianColumn(ColumnValues(days, m));
    forall i | 0 <= i < |days| ensures col[i] == Baseline(days, m, i) {
      assert IsBaselineAt(ColumnValues(days, m), i, col[i]);
    }
  }

  /** The baseline columns, and the flag columns appended as the optional
      metrics are found. */
  method AddBaselinesAndFlagColumns(days: seq<DayRow>, columns: set<Column>)
    returns (baselineColumns: map<Metric, seq<Option<real>>>, flagColumns: seq<Flag>)
    ensures baselineColumns.Keys == BaselineMetrics(columns)
    ensures forall m :: m in baselineColumns ==> IsBaselineColumn(days, m, baselineColumns[m])
    ensures flagColumns == FlagColumnsFor(columns)
  {
    baselineColumns := map[];
    var b := BaselineColumn(days, Hrv);
    baselineColumns := baselineColumns[Hrv := b];
    b := BaselineColumn(days, RestingHr);
    baselineColumns := baselineColumns[RestingHr := b];
    flagColumns := [LowHrv, HighRhr, LowSleep];
    if MetricColumn(RecoveryIndex) in columns {
      b := BaselineColumn(days, RecoveryIndex);
      baselineColumns := baselineColumns[RecoveryIndex := b];
      flagColumns := flagColumns + [LowRecovery];
    }
    if MetricColumn(MovementIndex) in columns {
      b := BaselineColumn(days, MovementIndex);
      baselineColumns := baselineColumns[MovementIndex := b];
      flagColumns := flagColumns + [LowMovement];
    }
    if MetricColumn(Steps) in columns {
      b := BaselineColumn(days, Steps);
      baselineColumns := baselineColumns[Steps := b];
      flagColumns := flagColumns + [LowSteps];
    }
  }

  /** The enriched rows, day by day, from the baseline columns. */
  method EnrichDays(days: seq<DayRow>, columns: set<Column>,
                    baselineColumns: map<Metric, seq<Option<real>>>, flagColumns: seq<Flag>)
    returns (rows: seq<EnrichedRow>)
    requires baselineColumns.Keys == BaselineMetrics(columns)
    requires forall m :: m in baselineColumns ==> IsBaselineColumn(days, m, baselineColumns[m])
    requires flagColumns == FlagColumnsFor(columns)
    ensures Days(rows) == days
    ensures forall i :: 0 <= i < |rows| ==> rows[i] == EnrichAt(days, i, columns)
  {
    rows := [];
    var i := 0;
    while i < |days|
      invariant 0 <= i <= |days|
      invariant |rows| == i
      invariant forall k :: 0 <= k < i ==> rows[k] == EnrichAt(days, k, columns)
    {
      var baselines := map m | m in baselineColumns :: baselineColumns[m][i];
      assert baselines == BaselinesAt(days, i, columns);
      rows := rows + [EnrichRow(days[i], baselines, flagColumns)];
      i := i + 1;
    }
    assert Days(rows) == days;
  }

  // ---------------------------------------------------------------------
  // Properties of the enriched rows

  /** The flag columns: the three core flags first, then one flag per
      optional column present; so between 3 and 6 of them, and the steps
      flag whenever the steps column (which is required) exists. */
  lemma FlagColumnsShape(columns: set<Column>)
    ensures FlagColumnsFor(columns)[..3] == [LowHrv, HighRhr, LowSleep]
    ensures 3 <= |FlagColumnsFor(columns)| <= 6
    ensures LowRecovery in FlagColumnsFor(columns) <==> MetricColumn(RecoveryIndex) in columns
    ensures LowMovement in FlagColumnsFor(columns) <==> MetricColumn(MovementIndex) in columns
    ensures LowSteps in FlagColumnsFor(columns) <==> MetricColumn(Steps) in columns
    ensures MissingColumns(columns) == [] ==> 4 <= |FlagColumnsFor(columns)|
  {
    if MissingColumns(columns) == [] {
      assert MetricColumn(Steps) in RequiredColumns;
    }
  }

  /** Severity counts the true flags, is bounded by the number of flag
      columns, and the row is anomalous exactly when it is positive. */
  lemma SeverityAndAnomalous(days: seq<DayRow>, i: nat, columns: set<Column>)
    requires i < |days|
    ensures EnrichAt(days, i, columns).severity <= |FlagColumnsFor(columns)| <= 6
    ensures EnrichAt(days, i, columns).isAnomalous <==> EnrichAt(days, i, columns).severity > 0
    ensures forall f :: f in FlagColumnsFor(columns) ==>
      (EnrichAt(days, i, columns).flags[f] <==> FlagHolds(f, days[i], BaselinesAt(days, i, columns)))
  {
    FlagColumnsShape(columns);
    AnyIffCountPositive(FlagRow(FlagColumnsFor(columns), days[i], BaselinesAt(days, i, columns)));
  }

  /** Baselines of the result: the median of the present values among the
      day and the six days before it in sorted order, for each metric that
      has a baseline column. */
  lemma BaselineIsWindowMedian(days: seq<DayRow>, i: nat, columns: set<Column>, m: Metric)
    requires i < |days| && HasBaseline(m, columns)
    ensures m in EnrichAt(days, i, columns).baselines
    ensures EnrichAt(days, i, columns).baselines[m] == Median(WindowValues(ColumnValues(days, m), i))
  {
  }

  lemma BaselineInBaselines(days: seq<DayRow>, i: nat, columns: set<Column>, m: Metric)
    requires i < |days| && HasBaseline(m, columns)
    ensures BaselineIn(BaselinesAt(days, i, columns), m) == Baseline(days, m, i)
  {
  }

  /** A day whose value is present has a present baseline, so each relative
      flag compares the value with its scaled 7-day median. */
  lemma LowHrvRule(days: seq<DayRow>, i: nat, columns: set<Column>)
    requires i < |days| && days[i].hrv.Some?
    ensures Baseline(days, Hrv, i).Some?
    ensures FlagHolds(LowHrv, days[i], BaselinesAt(days, i, columns)) <==>
      days[i].hrv.value < Baseline(days, Hrv, i).value * 0.7
  {
    BaselineInBaselines(days, i, columns, Hrv);
    CurrentValueInWindow(ColumnValues(days, Hrv), i);
  }

  lemma HighRhrRule(days: seq<DayRow>, i: nat, columns: set<Column>)
    requires i < |days| && days[i].restingHr.Some?
    ensures Baseline(days, RestingHr, i).Some?
    ensures FlagHolds(HighRhr, days[i], BaselinesAt(days, i, columns)) <==>
      days[i].restingHr.value > Baseline(days, RestingHr, i).value * 1.15
  {
    BaselineInBaselines(days, i, columns, RestingHr);
    CurrentValueInWindow(ColumnValues(days, RestingHr), i);
  }

  lemma LowStepsRule(days: seq<DayRow>, i: nat, columns: set<Column>)
    requires i < |days| && days[i].steps.Some? && MetricColumn(Steps) in columns
    ensures Baseline(days, Steps, i).Some?
    ensures FlagHolds(LowSteps, days[i], BaselinesAt(days, i, columns)) <==>
      days[i].steps.value < Baseline(days, Steps, i).value * 0.6
  {
    BaselineInBaselines(days, i, columns, Steps);
    CurrentValueInWindow(ColumnValues(days, Steps), i);
  }

  /** With a single day every baseline is that day's own value, so for a
      non-negative value the relative flags (hrv, resting heart rate, steps)
      cannot fire. */
  lemma SingleDayNoLowHrv(day: DayRow, columns: set<Column>)
    requires day.hrv.Some? ==> day.hrv.value >= 0.0
    ensures !FlagHolds(LowHrv, day, BaselinesAt([day], 0, columns))
  {
    if day.hrv.Some? {
      LowHrvRule([day], 0, columns);
      SingleDayBaseline(day, Hrv);
    }
  }

  lemma SingleDayNoHighRhr(day: DayRow, columns: set<Column>)
    requires day.restingHr.Some? ==> day.restingHr.value >= 0.0
    ensures !FlagHolds(HighRhr, day, BaselinesAt([day], 0, columns))
  {
    if day.restingHr.Some? {
      HighRhrRule([day], 0, columns);
      SingleDayBaseline(day, RestingHr);
    }
  }

  lemma SingleDayNoLowSteps(day: DayRow, columns: set<Column>)
    requires day.steps.Some? ==> day.steps.value >= 0.0
    ensures !FlagHolds(LowSteps, day, BaselinesAt([day], 0, columns))
  {
    if day.steps.Some? {
      if MetricColumn(Steps) in columns {
        LowStepsRule([day], 0, columns);
        SingleDayBaseline(day, Steps);
      } else {
        assert !HasBaseline(Steps, columns);
      }
    }
  }

  /** With a single day, a baseline is the day's own value. */
  lemma SingleDayBaseline(day: DayRow, m: Metric)
    ensures Baseline([day], m, 0) == day.Value(m)
  {
    SingleRowBaseline(ColumnValues([day], m));
  }
}
