/** The processing lambda's own logic: the numeric filter over a `values`
    array, the extraction of one day's metrics from the wearable's raw
    payload, the NaN cleaner applied before upload, and the choice of the
    current day's row among the enriched rows. */
module ProcessMetrics {
  import opened Wrappers
  import opened Text
  import opened Dates
  import opened PyValue
  import AnomalyDetection

  // ---------------------------------------------------------------------
  // Numbers and the numeric filter

  /** `isinstance(v, (int, float))`; a bool is an int in Python. */
  predicate IsNumber(v: Value) {
    v.Bool? || v.Int? || v.Float? || v.NaN?
  }

  /** A Python float: finite or NaN. */
  predicate IsFloat(v: Value) {
    v.Float? || v.NaN?
  }

  /** `float(v)` of a number. */
  function ToFloat(v: Value): (f: Value)
    requires IsNumber(v)
    ensures IsFloat(f)
    ensures f.NaN? <==> v.NaN?
  {
    match v
    case Bool(b) => Float(if b then 1.0 else 0.0)
    case Int(i) => Float(i as real)
    case Float(_) => v
    case NaN => NaN
  }

  /** `item.get("value") or item.get("val") or item.get("data")`. */
  function DictReading(entries: seq<Entry>): Value {
    Or(Or(Get(entries, "value"), Get(entries, "val")), Get(entries, "data"))
  }

  /** What one item of a `values` array contributes: a number itself, the
      number a dictionary holds under its first truthy reading key, or
      nothing. */
  function NumericOf(item: Value): (r: seq<Value>)
    ensures |r| <= 1
    ensures forall j :: 0 <= j < |r| ==> IsFloat(r[j])
  {
    if IsNumber(item) then [ToFloat(item)]
    else if item.Dict? && IsNumber(DictReading(item.entries)) then [ToFloat(DictReading(item.entries))]
    else []
  }

  /** The numbers of a `values` array, in order. */
  function NumericValues(values: seq<Value>): (r: seq<Value>)
    ensures |r| <= |values|
    ensures forall j :: 0 <= j < |r| ==> IsFloat(r[j])
  {
    if values == [] then []
    else NumericValues(values[..|values| - 1]) + NumericOf(values[|values| - 1])
  }

  /** `_extract_numeric_values`. */
  method ExtractNumericValues(values: seq<Value>) returns (numeric: seq<Value>)
    ensures numeric == NumericValues(values)
  {
    numeric := [];
    var k := 0;
    while k < |values|
      invariant 0 <= k <= |values|
      invariant numeric == NumericValues(values[..k])
    {
      var item := values[k];
      assert values[..k + 1][..k] == values[..k];
      if IsNumber(item) {
        numeric := numeric + [ToFloat(item)];
      } else if item.Dict? {
        var value := DictReading(item.entries);
        if IsNumber(value) {
          numeric := numeric + [ToFloat(value)];
        }
      }
      k := k + 1;
    }
    assert values[..k] == values;
  }

  /** The filter keeps the input order: it distributes over concatenation. */
  lemma {:induction false} NumericValuesAppend(a: seq<Value>, b: seq<Value>)
    ensures NumericValues(a + b) == NumericValues(a) + NumericValues(b)
    decreases |b|
  {
    if b == [] {
      assert a + b == a;
    } else {
      var b' := b[..|b| - 1];
      assert (a + b)[..|a + b| - 1] == a + b';
      NumericValuesAppend(a, b');
    }
  }

  /** Plain numbers pass through, as floats. */
  lemma {:induction false} NumbersPassThrough(values: seq<Value>)
    requires forall j :: 0 <= j < |values| ==> IsNumber(values[j])
    ensures |NumericValues(values)| == |values|
    ensures forall j :: 0 <= j < |values| ==> NumericValues(values)[j] == ToFloat(values[j])
    decreases |values|
  {
    if values != [] {
      NumbersPassThrough(values[..|values| - 1]);
    }
  }

  /** The truthiness quirk: a reading of 0 under "value" is skipped, so the
      dictionary contributes nothing, while the same 0 under "data" (the
      last key tried) is kept. */
  lemma ZeroReadingQuirk()
    ensures NumericOf(Dict([Entry("value", Int(0))])) == []
    ensures NumericOf(Dict([Entry("data", Int(0))])) == [Float(0.0)]
  {
    assert Get([Entry("value", Int(0))], "val") == Null;
    assert Get([Entry("data", Int(0))], "value") == Null;
  }

  // ---------------------------------------------------------------------
  // Sums and means of Python floats

  predicate HasNaN(xs: seq<Value>) {
    exists j | 0 <= j < |xs| :: xs[j].NaN?
  }

  /** The sum of the finite elements. */
  function RealSum(xs: seq<Value>): real {
    if xs == [] then 0.0
    else RealSum(xs[..|xs| - 1]) + (if xs[|xs| - 1].Float? then xs[|xs| - 1].x else 0.0)
  }

  /** `sum(xs)` of floats: NaN as soon as one element is NaN. */
  function SumOf(xs: seq<Value>): (s: Value)
    ensures IsFloat(s)
    ensures s.NaN? <==> HasNaN(xs)
  {
    if HasNaN(xs) then NaN else Float(RealSum(xs))
  }

  /** `sum(xs) / len(xs)`. */
  function MeanOf(xs: seq<Value>): (m: Value)
    requires xs != []
    ensures IsFloat(m)
    ensures m.NaN? <==> HasNaN(xs)
  {
    if HasNaN(xs) then NaN else Float(RealSum(xs) / (|xs| as real))
  }

  /** The mean of finite floats lies between their least and greatest. */
  lemma {:induction false} MeanWithinBounds(xs: seq<Value>, lo: real, hi: real)
    requires xs != [] && !HasNaN(xs)
    requires forall j :: 0 <= j < |xs| ==> xs[j].Float? && lo <= xs[j].x <= hi
    ensures lo <= MeanOf(xs).x <= hi
  {
    RealSumBounds(xs, lo, hi);
    var n := |xs| as real;
    assert lo * n <= RealSum(xs) <= hi * n;
    assert RealSum(xs) / n >= lo by {
      assert RealSum(xs) >= lo * n;
    }
  }

  lemma {:induction false} RealSumBounds(xs: seq<Value>, lo: real, hi: real)
    requires forall j :: 0 <= j < |xs| ==> xs[j].Float? && lo <= xs[j].x <= hi
    ensures lo * (|xs| as real) <= RealSum(xs) <= hi * (|xs| as real)
    decreases |xs|
  {
    if xs != [] {
      RealSumBounds(xs[..|xs| - 1], lo, hi);
    }
  }

  // ---------------------------------------------------------------------
  // Extraction of one day's metrics

  /** The extracted day: `date` and the seven metric fields, each None
      until an item of its type sets it. */
  datatype Metrics = Metrics(
    date: string,
    hrv: Value,
    restingHr: Value,
    sleepRhr: Value,
    sleepScore: Value,
    steps: Value,
    recoveryIndex: Value,
    movementIndex: Value)

  function InitialMetrics(d: Date): Metrics {
    Metrics(IsoFormat(d), Null, Null, Null, Null, Null, Null, Null)
  }

  /** The metrics and, under `raw_data`, the whole payload. */
  datatype Extracted = Extracted(metrics: Metrics, rawData: Value)

  /** `metric_object.get("values", [])` filtered to numbers: empty when the
      array is falsy; an error when the object is not a dictionary or the
      array is not iterable. */
  function ObjectNumbers(obj: Value): (r: Result<seq<Value>, Exception>)
    ensures r.Success? ==> forall j :: 0 <= j < |r.value| ==> IsFloat(r.value[j])
  {
    if !obj.Dict? then Failure(AttributeError)
    else
      var values := Get(obj.entries, "values", List([]));
      if !Truthy(values) then Success([])
      else
        match Iterate(values)
        case Failure(e) => Failure(e)
        case Success(items) => Success(NumericValues(items))
  }

  function ItemType(item: Value): Value
    requires item.Dict?
  {
    Get(item.entries, "type")
  }

  function ItemObject(item: Value): Value
    requires item.Dict?
  {
    Get(item.entries, "object", Dict([]))
  }

  /** The effect of one item of `metric_data` on the metrics. */
  function ApplyItem(m: Metrics, item: Value): (r: Result<Metrics, Exception>)
    ensures r.Success? ==> r.value.date == m.date
  {
    if !item.Dict? then Failure(AttributeError)
    else
      var t := ItemType(item);
      var obj := ItemObject(item);
      if t == Str("hrv") || t == Str("night_rhr") || t == Str("sleep_rhr") || t == Str("steps") then
        match ObjectNumbers(obj)
        case Failure(e) => Failure(e)
        case Success(nums) =>
          if t == Str("hrv") then
            Success(if nums != [] then m.(hrv := MeanOf(nums)) else m)
          else if t == Str("night_rhr") then
            Success(if nums != [] then m.(restingHr := MeanOf(nums)) else m)
          else if t == Str("sleep_rhr") then
            var m1 := if nums != [] then m.(sleepRhr := MeanOf(nums)) else m;
            Success(if m1.restingHr == Null && m1.sleepRhr != Null then m1.(restingHr := m1.sleepRhr) else m1)
          else
            Success(if nums != [] then m.(steps := SumOf(nums)) else m)
      else if t == Str("Sleep") then
        if !obj.Dict? then Failure(AttributeError)
        else
          var scoreObj := Get(obj.entries, "sleep_score", Dict([]));
          Success(if scoreObj.Dict? then m.(sleepScore := Get(scoreObj.entries, "score")) else m)
      else if t == Str("movement_index") then
        if !obj.Dict? then Failure(AttributeError) else Success(m.(movementIndex := Get(obj.entries, "value")))
      else if t == Str("recovery_index") then
        if !obj.Dict? then Failure(AttributeError) else Success(m.(recoveryIndex := Get(obj.entries, "value")))
      else Success(m)
  }

  /** The metrics after the items, in order; the first error stops it. */
  function ApplyItems(m: Metrics, items: seq<Value>): (r: Result<Metrics, Exception>)
    ensures r.Success? ==> r.value.date == m.date
  {
    if items == [] then Success(m)
    else
      match ApplyItems(m, items[..|items| - 1])
      case Failure(e) => Failure(e)
      case Success(m') => ApplyItem(m', items[|items| - 1])
  }

  /** The items of `raw_data.get("data", {}).get("metric_data", [])`. */
  function MetricItems(raw: Value): Result<seq<Value>, Exception> {
    if !raw.Dict? then Failure(AttributeError)
    else
      var data := Get(raw.entries, "data", Dict([]));
      if !data.Dict? then Failure(AttributeError)
      else Iterate(Get(data.entries, "metric_data", List([])))
  }

  /** What `extract_metrics_from_raw` returns or raises. */
  function ExtractMetrics(raw: Value, d: Date): (r: Result<Extracted, Exception>)
    ensures r.Success? ==> r.value.metrics.date == IsoFormat(d) && r.value.rawData == raw
  {
    match MetricItems(raw)
    case Failure(e) => Failure(e)
    case Success(items) =>
      match ApplyItems(InitialMetrics(d), items)
      case Failure(e) => Failure(e)
      case Success(m) => Success(Extracted(m, raw))
  }

  /** `extract_metrics_from_raw`: one pass over `metric_data`, overwriting
      the fields of `metrics`. */
  method ExtractMetricsFromRaw(raw: Value, d: Date) returns (r: Result<Extracted, Exception>)
    ensures r == ExtractMetrics(raw, d)
  {
    var itemsOrError := MetricItems(raw);
    if itemsOrError.Failure? {
      return Failure(itemsOrError.error);
    }
    var items := itemsOrError.value;
    var metrics := InitialMetrics(d);
    var k := 0;
    while k < |items|
      invariant 0 <= k <= |items|
      invariant ApplyItems(InitialMetrics(d), items[..k]) == Success(metrics)
    {
      assert items[..k + 1][..k] == items[..k];
      var next := ApplyMetricItem(metrics, items[k]);
      if next.Failure? {
        FailureSticks(InitialMetrics(d), items, k + 1);
        return Failure(next.error);
      }
      metrics := next.value;
      k := k + 1;
    }
    assert items[..k] == items;
    return Success(Extracted(metrics, raw));
  }

  /** Once an item raises, the rest of the items are not looked at. */
  lemma {:induction false} FailureSticks(m: Metrics, items: seq<Value>, k: nat)
    requires k <= |items| && ApplyItems(m, items[..k]).Failure?
    ensures ApplyItems(m, items) == ApplyItems(m, items[..k])
    decreases |items| - k
  {
    if k < |items| {
      assert items[..k + 1][..k] == items[..k];
      FailureSticks(m, items, k + 1);
    } else {
      assert items[..k] == items;
    }
  }

  /** The body of the loop over `metric_data`, for one item. */
  method ApplyMetricItem(metrics: Metrics, item: Value) returns (r: Result<Metrics, Exception>)
    ensures r == ApplyItem(metrics, item)
  {
    if !item.Dict? {
      return Failure(AttributeError);
    }
    var m := metrics;
    var metricType := ItemType(item);
    var metricObject := ItemObject(item);
    if metricType == Str("hrv") || metricType == Str("night_rhr")
      || metricType == Str("sleep_rhr") || metricType == Str("steps")
    {
      var numbers := ObjectNumbers(metricObject);
      if numbers.Failure? {
        return Failure(numbers.error);
      }
      var nums := numbers.value;
      if metricType == Str("hrv") {
        if nums != [] {
          m := m.(hrv := MeanOf(nums));
        }
      } else if metricType == Str("night_rhr") {
        if nums != [] {
          m := m.(restingHr := MeanOf(nums));
        }
      } else if metricType == Str("sleep_rhr") {
        if nums != [] {
          m := m.(sleepRhr := MeanOf(nums));
        }
        if m.restingHr == Null && m.sleepRhr != Null {
          m := m.(restingHr := m.sleepRhr);
        }
      } else {
        if nums != [] {
          m := m.(steps := SumOf(nums));
        }
      }
    } else if metricType == Str("Sleep") {
      if !metricObject.Dict? {
        return Failure(AttributeError);
      }
      var scoreObj := Get(metricObject.entries, "sleep_score", Dict([]));
      if scoreObj.Dict? {
        m := m.(sleepScore := Get(scoreObj.entries, "score"));
      }
    } else if metricType == Str("movement_index") {
      if !metricObject.Dict? {
        return Failure(AttributeError);
      }
      m := m.(movementIndex := Get(metricObject.entries, "value"));
    } else if metricType == Str("recovery_index") {
      if !metricObject.Dict? {
        return Failure(AttributeError);
      }
      m := m.(recoveryIndex := Get(metricObject.entries, "value"));
    }
    return Success(m);
  }

  // ---------------------------------------------------------------------
  // Properties of the extraction

  /** The mean an item of type `name` sets, when it sets one. */
  function MeanSetBy(item: Value, name: string): Option<Value> {
    if item.Dict? && ItemType(item) == Str(name) then
      match ObjectNumbers(ItemObject(item))
      case Success(nums) => if nums != [] then Some(MeanOf(nums)) else None
      case Failure(_) => None
    else None
  }

  /** The mean set by the last item of type `name` that has numbers. */
  function LastMean(items: seq<Value>, name: string): Option<Value> {
    if items == [] then None
    else
      var here := MeanSetBy(items[|items| - 1], name);
      if here.Some? then here else LastMean(items[..|items| - 1], name)
  }

  /** The mean set by the first item of type `name` that has numbers. */
  function FirstMean(items: seq<Value>, name: string): Option<Value> {
    if items == [] then None
    else
      var before := FirstMean(items[..|items| - 1], name);
      if before.Some? then before else MeanSetBy(items[|items| - 1], name)
  }

  /** The resting heart rate the extraction reports. */
  function ExpectedRestingHr(items: seq<Value>): Value {
    if LastMean(items, "night_rhr").Some? then LastMean(items, "night_rhr").value
    else if FirstMean(items, "sleep_rhr").Some? then FirstMean(items, "sleep_rhr").value
    else Null
  }

  /** resting_hr is the mean of the last night_rhr item with numbers,
      whatever the order of the items; sleep_rhr's mean stands in only when
      no night_rhr item has numbers, and then it is the first one's. */
  lemma {:induction false} RestingHrFallback(d: Date, items: seq<Value>)
    requires ApplyItems(InitialMetrics(d), items).Success?
    ensures ApplyItems(InitialMetrics(d), items).value.restingHr == ExpectedRestingHr(items)
    ensures ApplyItems(InitialMetrics(d), items).value.sleepRhr == LastMean(items, "sleep_rhr").GetOr(Null)
    decreases |items|
  {
    if items != [] {
      var init := items[..|items| - 1];
      var item := items[|items| - 1];
      RestingHrFallback(d, init);
      var m := ApplyItems(InitialMetrics(d), init).value;
      var m' := ApplyItems(InitialMetrics(d), items).value;
      assert ApplyItem(m, item) == Success(m');
      ApplyItemRates(m, item);
      LastMeanNotNull(init, "night_rhr");
      LastMeanNotNull(init, "sleep_rhr");
      FirstMeanNotNull(init, "sleep_rhr");
      LastFirstAgree(init, "sleep_rhr");
      var sleepMean := MeanSetBy(item, "sleep_rhr");
      var nightMean := MeanSetBy(item, "night_rhr");
      assert sleepMean.Some? ==> nightMean.None?;
      assert LastMean(items, "night_rhr") == if nightMean.Some? then nightMean else LastMean(init, "night_rhr");
      assert LastMean(items, "sleep_rhr") == if sleepMean.Some? then sleepMean else LastMean(init, "sleep_rhr");
      assert FirstMean(items, "sleep_rhr") ==
        if FirstMean(init, "sleep_rhr").Some? then FirstMean(init, "sleep_rhr") else sleepMean;
    }
  }

  /** How one item changes the two heart-rate fields. */
  lemma ApplyItemRates(m: Metrics, item: Value)
    requires ApplyItem(m, item).Success?
    ensures ApplyItem(m, item).value.sleepRhr ==
      if MeanSetBy(item, "sleep_rhr").Some? then MeanSetBy(item, "sleep_rhr").value else m.sleepRhr
    ensures ApplyItem(m, item).value.restingHr ==
      if MeanSetBy(item, "night_rhr").Some? then MeanSetBy(item, "night_rhr").value
      else if item.Dict? && ItemType(item) == Str("sleep_rhr") && m.restingHr == Null
      then ApplyItem(m, item).value.sleepRhr
      else m.restingHr
  {
  }

  lemma {:induction false} LastMeanNotNull(items: seq<Value>, name: string)
    ensures LastMean(items, name).Some? ==> IsFloat(LastMean(items, name).value)
    decreases |items|
  {
    if items != [] {
      LastMeanNotNull(items[..|items| - 1], name);
    }
  }

  lemma {:induction false} FirstMeanNotNull(items: seq<Value>, name: string)
    ensures FirstMean(items, name).Some? ==> IsFloat(FirstMean(items, name).value)
    decreases |items|
  {
    if items != [] {
      FirstMeanNotNull(items[..|items| - 1], name);
    }
  }

  /** Some item of the type has numbers exactly when a first one does and
      exactly when a last one does. */
  lemma {:induction false} LastFirstAgree(items: seq<Value>, name: string)
    ensures LastMean(items, name).Some? <==> FirstMean(items, name).Some?
    decreases |items|
  {
    if items != [] {
      LastFirstAgree(items[..|items| - 1], name);
    }
  }

  /** A type none of whose items has numbers leaves hrv None. */
  lemma {:induction false} HrvIsLastMean(d: Date, items: seq<Value>)
    requires ApplyItems(InitialMetrics(d), items).Success?
    ensures ApplyItems(InitialMetrics(d), items).value.hrv == LastMean(items, "hrv").GetOr(Null)
    decreases |items|
  {
    if items != [] {
      var init := items[..|items| - 1];
      HrvIsLastMean(d, init);
      var m := ApplyItems(InitialMetrics(d), init).value;
      ApplyItemHrv(m, items[|items| - 1]);
    }
  }

  lemma ApplyItemHrv(m: Metrics, item: Value)
    requires ApplyItem(m, item).Success?
    ensures ApplyItem(m, item).value.hrv ==
      if MeanSetBy(item, "hrv").Some? then MeanSetBy(item, "hrv").value else m.hrv
  {
  }

  /** The sum an item of type "steps" sets, when it sets one. */
  function StepsSetBy(item: Value): Option<Value> {
    if item.Dict? && ItemType(item) == Str("steps") then
      match ObjectNumbers(ItemObject(item))
      case Success(nums) => if nums != [] then Some(SumOf(nums)) else None
      case Failure(_) => None
    else None
  }

  function LastSteps(items: seq<Value>): Option<Value> {
    if items == [] then None
    else
      var here := StepsSetBy(items[|items| - 1]);
      if here.Some? then here else LastSteps(items[..|items| - 1])
  }

  /** steps is the sum (not the mean) of the last steps item with numbers,
      and None when there is none. */
  lemma {:induction false} StepsIsLastSum(d: Date, items: seq<Value>)
    requires ApplyItems(InitialMetrics(d), items).Success?
    ensures ApplyItems(InitialMetrics(d), items).value.steps == LastSteps(items).GetOr(Null)
    decreases |items|
  {
    if items != [] {
      var init := items[..|items| - 1];
      StepsIsLastSum(d, init);
      var m := ApplyItems(InitialMetrics(d), init).value;
      ApplyItemSteps(m, items[|items| - 1]);
    }
  }

  lemma ApplyItemSteps(m: Metrics, item: Value)
    requires ApplyItem(m, item).Success?
    ensures ApplyItem(m, item).value.steps ==
      if StepsSetBy(item).Some? then StepsSetBy(item).value else m.steps
  {
  }

  /** The score a "Sleep" item sets when its `sleep_score` is a
      dictionary: that dictionary's "score", None when it has none. */
  function SleepScoreSetBy(item: Value): Option<Value> {
    if item.Dict? && ItemType(item) == Str("Sleep") && ItemObject(item).Dict? then
      var scoreObj := Get(ItemObject(item).entries, "sleep_score", Dict([]));
      if scoreObj.Dict? then Some(Get(scoreObj.entries, "score")) else None
    else None
  }

  function LastSleepScore(items: seq<Value>): Option<Value> {
    if items == [] then None
    else
      var here := SleepScoreSetBy(items[|items| - 1]);
      if here.Some? then here else LastSleepScore(items[..|items| - 1])
  }

  /** The "value" an item of type `name` sets, None when it has none. */
  function ValueSetBy(item: Value, name: string): Option<Value> {
    if item.Dict? && ItemType(item) == Str(name) && ItemObject(item).Dict? then
      Some(Get(ItemObject(item).entries, "value"))
    else None
  }

  function LastValue(items: seq<Value>, name: string): Option<Value> {
    if items == [] then None
    else
      var here := ValueSetBy(items[|items| - 1], name);
      if here.Some? then here else LastValue(items[..|items| - 1], name)
  }

  /** sleep_score is the "score" of the last Sleep item whose sleep_score
      is a dictionary, and None when there is none. */
  lemma {:induction false} SleepScoreIsLast(d: Date, items: seq<Value>)
    requires ApplyItems(InitialMetrics(d), items).Success?
    ensures ApplyItems(InitialMetrics(d), items).value.sleepScore == LastSleepScore(items).GetOr(Null)
    decreases |items|
  {
    if items != [] {
      var init := items[..|items| - 1];
      SleepScoreIsLast(d, init);
      var m := ApplyItems(InitialMetrics(d), init).value;
      ApplyItemScores(m, items[|items| - 1]);
    }
  }

  /** movement_index and recovery_index are the "value" of the last item of
      their type, and None when there is none. */
  lemma {:induction false} IndicesAreLastValues(d: Date, items: seq<Value>)
    requires ApplyItems(InitialMetrics(d), items).Success?
    ensures ApplyItems(InitialMetrics(d), items).value.movementIndex == LastValue(items, "movement_index").GetOr(Null)
    ensures ApplyItems(InitialMetrics(d), items).value.recoveryIndex == LastValue(items, "recovery_index").GetOr(Null)
    decreases |items|
  {
    if items != [] {
      var init := items[..|items| - 1];
      IndicesAreLastValues(d, init);
      var m := ApplyItems(InitialMetrics(d), init).value;
      ApplyItemScores(m, items[|items| - 1]);
    }
  }

  /** How one item changes the three fields copied from its object. */
  lemma ApplyItemScores(m: Metrics, item: Value)
    requires ApplyItem(m, item).Success?
    ensures ApplyItem(m, item).value.sleepScore ==
      if SleepScoreSetBy(item).Some? then SleepScoreSetBy(item).value else m.sleepScore
    ensures ApplyItem(m, item).value.movementIndex ==
      if ValueSetBy(item, "movement_index").Some? then ValueSetBy(item, "movement_index").value else m.movementIndex
    ensures ApplyItem(m, item).value.recoveryIndex ==
      if ValueSetBy(item, "recovery_index").Some? then ValueSetBy(item, "recovery_index").value else m.recoveryIndex
  {
  }

  // ---------------------------------------------------------------------
  // The NaN cleaner

  /** A value with NaN replaced by None at every depth. */
  function CleanValue(v: Value): (c: Value)
    ensures v.NaN? ==> c == Null
    ensures v.List? ==> c.List? && |c.items| == |v.items|
    ensures v.List? ==> forall i :: 0 <= i < |v.items| ==> c.items[i] == CleanValue(v.items[i])
    ensures v.Dict? ==> c.Dict? && Keys(c.entries) == Keys(v.entries)
    ensures v.Dict? ==> forall i :: 0 <= i < |v.entries| ==>
      c.entries[i] == Entry(v.entries[i].key, CleanValue(v.entries[i].value))
    ensures !v.List? && !v.Dict? && !v.NaN? ==> c == v
    decreases v
  {
    match v
    case NaN => Null
    case List(items) => List(seq(|items|, i requires 0 <= i < |items| => CleanValue(items[i])))
    case Dict(entries) =>
      Dict(seq(|entries|, i requires 0 <= i < |entries| => Entry(entries[i].key, CleanValue(entries[i].value))))
    case _ => v
  }

  /** A dictionary cleaned entry by entry: same keys, in the same order. */
  function CleanEntries(es: seq<Entry>): (r: seq<Entry>)
    ensures |r| == |es|
    ensures Keys(r) == Keys(es)
    ensures forall i :: 0 <= i < |es| ==> r[i] == Entry(es[i].key, CleanValue(es[i].value))
  {
    CleanValue(Dict(es)).entries
  }

  /** No NaN at any depth. */
  predicate NoNaN(v: Value)
    decreases v
  {
    match v
    case NaN => false
    case List(items) => forall i | 0 <= i < |items| :: NoNaN(items[i])
    case Dict(entries) => forall i | 0 <= i < |entries| :: NoNaN(entries[i].value)
    case _ => true
  }

  /** After cleaning no NaN is left. */
  lemma {:induction false} CleanLeavesNoNaN(v: Value)
    ensures NoNaN(CleanValue(v))
    decreases v
  {
    match v
    case List(items) =>
      forall i | 0 <= i < |items| ensures NoNaN(CleanValue(v).items[i]) {
        CleanLeavesNoNaN(items[i]);
      }
    case Dict(entries) =>
      forall i | 0 <= i < |entries| ensures NoNaN(CleanValue(v).entries[i].value) {
        CleanLeavesNoNaN(entries[i].value);
      }
    case _ =>
  }

  /** A value without NaN (finite floats included) comes back unchanged. */
  lemma {:induction false} CleanKeepsNaNFree(v: Value)
    requires NoNaN(v)
    ensures CleanValue(v) == v
    decreases v
  {
    match v
    case List(items) =>
      forall i | 0 <= i < |items| ensures CleanValue(items[i]) == items[i] {
        CleanKeepsNaNFree(items[i]);
      }
      assert CleanValue(v).items == items;
    case Dict(entries) =>
      forall i | 0 <= i < |entries| ensures CleanValue(entries[i].value) == entries[i].value {
        CleanKeepsNaNFree(entries[i].value);
      }
      assert CleanValue(v).entries == entries;
    case _ =>
  }

  /** Cleaning twice is cleaning once. */
  lemma CleanIdempotent(v: Value)
    ensures CleanValue(CleanValue(v)) == CleanValue(v)
  {
    CleanLeavesNoNaN(v);
    CleanKeepsNaNFree(CleanValue(v));
  }

  function SumNat(s: seq<nat>): nat {
    if s == [] then 0 else s[0] + SumNat(s[1..])
  }

  lemma {:induction false} SumNatAtLeast(s: seq<nat>, k: nat)
    requires k < |s|
    ensures s[k] <= SumNat(s)
    decreases |s|
  {
    if k > 0 {
      SumNatAtLeast(s[1..], k - 1);
    }
  }

  /** The number of nodes of a value. */
  function Size(v: Value): nat
    decreases v
  {
    match v
    case List(items) => 1 + SumNat(seq(|items|, i requires 0 <= i < |items| => Size(items[i])))
    case Dict(entries) => 1 + EntriesSize(entries)
    case _ => 1
  }

  function EntriesSize(es: seq<Entry>): nat
    decreases Dict(es), 0
  {
    SumNat(seq(|es|, i requires 0 <= i < |es| => 1 + Size(es[i].value)))
  }

  lemma EntryWithinSize(es: seq<Entry>, j: nat)
    requires j < |es|
    ensures 1 + Size(es[j].value) <= EntriesSize(es)
  {
    SumNatAtLeast(seq(|es|, i requires 0 <= i < |es| => 1 + Size(es[i].value)), j);
  }

  lemma ItemWithinSize(items: seq<Value>, k: nat)
    requires k < |items|
    ensures 1 + Size(items[k]) <= Size(List(items))
  {
    SumNatAtLeast(seq(|items|, i requires 0 <= i < |items| => Size(items[i])), k);
  }

  lemma SingleEntrySize(key: string, v: Value)
    ensures EntriesSize([Entry(key, v)]) == 1 + Size(v)
  {
    var es := [Entry(key, v)];
    var s := seq(|es|, i requires 0 <= i < |es| => 1 + Size(es[i].value));
    assert EntriesSize(es) == SumNat(s);
    assert s[1..] == [];
    assert SumNat(s) == s[0] + SumNat(s[1..]);
  }

  /** `clean_nan_values`: fills `cleaned` key by key, recursing into
      dictionaries, and into list elements through CleanListItems. */
  method CleanNanValues(data: seq<Entry>) returns (cleaned: seq<Entry>)
    ensures cleaned == CleanEntries(data)
    decreases EntriesSize(data), 1
  {
    cleaned := [];
    var j := 0;
    while j < |data|
      invariant 0 <= j <= |data|
      invariant cleaned == CleanEntries(data)[..j]
    {
      var key := data[j].key;
      var value := data[j].value;
      EntryWithinSize(data, j);
      var c: Value;
      if value.Dict? {
        var inner := CleanNanValues(value.entries);
        c := Dict(inner);
        assert c == CleanValue(value);
      } else if value.List? {
        var items := CleanListItems(value.items);
        c := List(items);
      } else if value.NaN? {
        c := Null;
      } else {
        c := value;
      }
      cleaned := cleaned + [Entry(key, c)];
      j := j + 1;
    }
  }

  /** The list comprehension of `clean_nan_values`: each element is cleaned
      as the value of a one-entry dictionary and read back. */
  method CleanListItems(values: seq<Value>) returns (items: seq<Value>)
    ensures items == CleanValue(List(values)).items
    decreases Size(List(values)), 2
  {
    items := [];
    var k := 0;
    while k < |values|
      invariant 0 <= k <= |values|
      invariant items == CleanValue(List(values)).items[..k]
    {
      ItemWithinSize(values, k);
      SingleEntrySize("item", values[k]);
      var one := CleanNanValues([Entry("item", values[k])]);
      assert one == [Entry("item", CleanValue(values[k]))];
      items := items + [Get(one, "item")];
      k := k + 1;
    }
  }

  // ---------------------------------------------------------------------
  // The current day's row

  /** The first position from `from` on whose date prints as `target`. */
  function FirstDateMatch(rows: seq<AnomalyDetection.EnrichedRow>, target: string, from: nat): (k: Option<nat>)
    requires from <= |rows|
    ensures k.Some? ==> from <= k.value < |rows| && IsoFormat(rows[k.value].day.date) == target
    ensures k.Some? ==> forall j :: from <= j < k.value ==> IsoFormat(rows[j].day.date) != target
    ensures k.None? ==> forall j :: from <= j < |rows| ==> IsoFormat(rows[j].day.date) != target
    decreases |rows| - from
  {
    if from == |rows| then None
    else if IsoFormat(rows[from].day.date) == target then Some(from)
    else FirstDateMatch(rows, target, from + 1)
  }

  /** The row of the target date, compared through the dates' text: the
      first row with that date, or the last row when there is none. */
  function SelectCurrentRow(rows: seq<AnomalyDetection.EnrichedRow>, target: Date): (row: AnomalyDetection.EnrichedRow)
    requires |rows| > 0
  {
    var k := FirstDateMatch(rows, IsoFormat(target), 0);
    if k.None? then rows[|rows| - 1] else rows[k.value]
  }

  /** Comparing the printed dates is comparing the dates: the result is the
      first row dated `target` when there is one, else the last row. */
  lemma SelectCurrentRowByDate(rows: seq<AnomalyDetection.EnrichedRow>, target: Date)
    requires |rows| > 0
    ensures (exists j | 0 <= j < |rows| :: rows[j].day.date == target) ==>
      exists k | 0 <= k < |rows| :: SelectCurrentRow(rows, target) == rows[k]
        && rows[k].day.date == target
        && forall j :: 0 <= j < k ==> rows[j].day.date != target
    ensures (forall j | 0 <= j < |rows| :: rows[j].day.date != target) ==>
      SelectCurrentRow(rows, target) == rows[|rows| - 1]
  {
    var k := FirstDateMatch(rows, IsoFormat(target), 0);
    forall j | 0 <= j < |rows| && IsoFormat(rows[j].day.date) == IsoFormat(target)
      ensures rows[j].day.date == target
    {
      IsoFormatInjective(rows[j].day.date, target);
    }
    if k.Some? {
      assert rows[k.value].day.date == target;
    }
  }
}
