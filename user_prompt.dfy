/** `build_user_prompt`, identical in both explanation handlers: the day's
    metrics, and for an anomalous day its active flags and severity, laid
    out as the lines of the prompt sent to the language model. */
module UserPrompt {
  import opened Text
  import opened PyValue

  /** The flags a processed day may carry, in the order the prompt lists
      them. */
  datatype PromptFlag =
    | LowHrv | HighRestingHr | LowSleepScore | LowRecoveryIndex | LowMovementIndex | LowSteps

  /** The key of the flag in the processed day. */
  function Key(f: PromptFlag): string {
    match f
    case LowHrv => "low_hrv_flag"
    case HighRestingHr => "high_rhr_flag"
    case LowSleepScore => "low_sleep_flag"
    case LowRecoveryIndex => "low_recovery_flag"
    case LowMovementIndex => "low_movement_flag"
    case LowSteps => "low_steps_flag"
  }

  /** The name the prompt gives the flag. */
  function Name(f: PromptFlag): string {
    match f
    case LowHrv => "Low HRV"
    case HighRestingHr => "High Resting HR"
    case LowSleepScore => "Low Sleep Score"
    case LowRecoveryIndex => "Low Recovery Index"
    case LowMovementIndex => "Low Movement Index"
    case LowSteps => "Low Steps"
  }

  const FlagOrder: seq<PromptFlag> :=
    [LowHrv, HighRestingHr, LowSleepScore, LowRecoveryIndex, LowMovementIndex, LowSteps]

  /** `processed_data.get(key, False)` is truthy. */
  predicate FlagIsSet(data: seq<Entry>, f: PromptFlag) {
    Truthy(Get(data, Key(f), Bool(false)))
  }

  /** The flags that are set. */
  function ActiveSet(data: seq<Entry>): set<PromptFlag> {
    set f | f in FlagOrder && FlagIsSet(data, f)
  }

  /** A flag is active exactly when the day sets it. */
  lemma ActiveSetMember(data: seq<Entry>, f: PromptFlag)
    ensures f in ActiveSet(data) <==> FlagIsSet(data, f)
  {
    AllFlagsOrdered();
  }

  /** Every flag has its place in the order. */
  lemma AllFlagsOrdered()
    ensures forall f: PromptFlag :: f in FlagOrder
  {
    forall f: PromptFlag ensures f in FlagOrder {
      match f
      case LowHrv => assert FlagOrder[0] == f;
      case HighRestingHr => assert FlagOrder[1] == f;
      case LowSleepScore => assert FlagOrder[2] == f;
      case LowRecoveryIndex => assert FlagOrder[3] == f;
      case LowMovementIndex => assert FlagOrder[4] == f;
      case LowSteps => assert FlagOrder[5] == f;
    }
  }

  /** The flags of `order` that are in `active`, in that order. */
  function SetFlags(active: set<PromptFlag>, order: seq<PromptFlag>): (flags: seq<PromptFlag>)
    ensures |flags| <= |order|
  {
    if order == [] then []
    else
      var last := order[|order| - 1];
      SetFlags(active, order[..|order| - 1]) + (if last in active then [last] else [])
  }

  function Names(flags: seq<PromptFlag>): (names: seq<string>)
    ensures |names| == |flags|
    ensures forall i :: 0 <= i < |flags| ==> names[i] == Name(flags[i])
  {
    seq(|flags|, i requires 0 <= i < |flags| => Name(flags[i]))
  }

  /** A flag is listed exactly when it is in the order and active. */
  lemma {:induction false} SetFlagsMember(active: set<PromptFlag>, order: seq<PromptFlag>, f: PromptFlag)
    ensures f in SetFlags(active, order) <==> f in order && f in active
    decreases |order|
  {
    if order != [] {
      var init := order[..|order| - 1];
      SetFlagsMember(active, init, f);
      assert order == init + [order[|order| - 1]];
    }
  }

  /** The listed flags keep the order's order: a flag listed before another
      comes before it in the order. */
  lemma {:induction false} SetFlagsOrdered(active: set<PromptFlag>, order: seq<PromptFlag>, i: nat, j: nat)
    requires i < j < |SetFlags(active, order)|
    ensures exists p, q ::
      && 0 <= p < q < |order|
      && order[p] == SetFlags(active, order)[i] && order[q] == SetFlags(active, order)[j]
    decreases |order|
  {
    var init := order[..|order| - 1];
    var flags := SetFlags(active, order);
    var before := SetFlags(active, init);
    assert forall k :: 0 <= k < |init| ==> init[k] == order[k];
    if j < |before| {
      SetFlagsOrdered(active, init, i, j);
      var p, q :| 0 <= p < q < |init| && init[p] == before[i] && init[q] == before[j];
      assert order[p] == flags[i] && order[q] == flags[j];
    } else {
      assert flags[j] == order[|order| - 1];
      assert flags[i] == before[i];
      assert before[i] in before;
      SetFlagsMember(active, init, before[i]);
      var p :| 0 <= p < |init| && init[p] == before[i];
      assert order[p] == flags[i];
    }
  }

  /** The names collected once the first k flags of the order are tested. */
  function TestedNames(data: seq<Entry>, k: nat): seq<string>
    requires k <= |FlagOrder|
  {
    if k == 0 then []
    else
      var f := FlagOrder[k - 1];
      if FlagIsSet(data, f) then TestedNames(data, k - 1) + [Name(f)] else TestedNames(data, k - 1)
  }

  /** Testing the k-th flag appends its name exactly when it is set. */
  lemma TestedNamesStep(data: seq<Entry>, k: nat, f: PromptFlag)
    requires k < |FlagOrder| && FlagOrder[k] == f
    ensures TestedNames(data, k + 1)
         == if FlagIsSet(data, f) then TestedNames(data, k) + [Name(f)] else TestedNames(data, k)
  {
  }

  /** Testing the flags one by one in the order lists the names of the
      active ones in that order. */
  lemma {:induction false} TestedNamesListed(data: seq<Entry>, k: nat)
    requires k <= |FlagOrder|
    ensures TestedNames(data, k) == Names(SetFlags(ActiveSet(data), FlagOrder[..k]))
  {
    if k > 0 {
      TestedNamesListed(data, k - 1);
      ActiveSetMember(data, FlagOrder[k - 1]);
      assert FlagOrder[..k][..k - 1] == FlagOrder[..k - 1];
      var listed := SetFlags(ActiveSet(data), FlagOrder[..k - 1]);
      assert Names(listed + [FlagOrder[k - 1]]) == Names(listed) + [Name(FlagOrder[k - 1])];
    }
  }

  /** The active flags' names, collected by testing each flag in turn. */
  method ActiveFlags(data: seq<Entry>) returns (flags: seq<string>)
    ensures flags == Names(SetFlags(ActiveSet(data), FlagOrder))
  {
    flags := [];
    TestedNamesStep(data, 0, LowHrv);
    if FlagIsSet(data, LowHrv) {
      flags := flags + ["Low HRV"];
    }
    assert flags == TestedNames(data, 1);
    TestedNamesStep(data, 1, HighRestingHr);
    if FlagIsSet(data, HighRestingHr) {
      flags := flags + ["High Resting HR"];
    }
    assert flags == TestedNames(data, 2);
    TestedNamesStep(data, 2, LowSleepScore);
    if FlagIsSet(data, LowSleepScore) {
      flags := flags + ["Low Sleep Score"];
    }
    assert flags == TestedNames(data, 3);
    TestedNamesStep(data, 3, LowRecoveryIndex);
    if FlagIsSet(data, LowRecoveryIndex) {
      flags := flags + ["Low Recovery Index"];
    }
    assert flags == TestedNames(data, 4);
    TestedNamesStep(data, 4, LowMovementIndex);
    if FlagIsSet(data, LowMovementIndex) {
      flags := flags + ["Low Movement Index"];
    }
    assert flags == TestedNames(data, 5);
    TestedNamesStep(data, 5, LowSteps);
    if FlagIsSet(data, LowSteps) {
      flags := flags + ["Low Steps"];
    }
    assert flags == TestedNames(data, 6);
    TestedNamesListed(data, 6);
    assert FlagOrder[..6] == FlagOrder;
  }

  /** The flags as the prompt shows them. */
  function FlagsText(flags: seq<string>): string {
    if flags != [] then Join(", ", flags) else "No specific flags"
  }

  const NoAnomaliesRequest :=
    "No anomalies detected." + " Please provide a brief summary of these metrics and what they indicate about overall health."

  /** The fields the prompt shows, with their defaults for missing keys. */
  datatype Fields = Fields(date: string, hrv: string, restingHr: string, sleepScore: string,
                           steps: string, severity: string, isAnomalous: bool)

  function FieldsOf(data: seq<Entry>, render: Value -> string): Fields {
    Fields(
      PyStr(Get(data, "date", Str("Unknown date")), render),
      PyStr(Get(data, "hrv", Str("N/A")), render),
      PyStr(Get(data, "resting_hr", Str("N/A")), render),
      PyStr(Get(data, "sleep_score", Str("N/A")), render),
      PyStr(Get(data, "steps", Str("N/A")), render),
      PyStr(Get(data, "anomaly_severity", Int(0)), render),
      Truthy(Get(data, "is_anomalous", Bool(false))))
  }

  /** The date line and the four metric lines. */
  function MetricLines(f: Fields): seq<string> {
    [ "Date: " + f.date,
      "",
      "Health Metrics:",
      "- HRV: " + f.hrv,
      "- Resting HR: " + f.restingHr + " bpm",
      "- Sleep Score: " + f.sleepScore,
      "- Steps: " + f.steps ]
  }

  /** The prompt's lines: the metric lines and a request for a summary on
      a normal day; the metric lines, the flags, the severity and a
      four-point request on an anomalous day. */
  function PromptLines(f: Fields, flags: seq<string>): seq<string> {
    if !f.isAnomalous then
      MetricLines(f) + ["", NoAnomaliesRequest]
    else
      MetricLines(f) + ["", "Anomaly Flags: " + FlagsText(flags), "Severity: " + f.severity] + AnomalyRequest
  }

  /** The request closing an anomalous day's prompt. */
  const AnomalyRequest: seq<string> := [
    "",
    "Please provide:",
    "1. A summary of what's going on with these health metrics",
    "2. Potential implications of these patterns",
    "3. 3-4 general lifestyle adjustment suggestions (not medical treatments)",
    "4. A reminder that this is not medical advice and to consult a healthcare professional"]

  /** The prompt for a processed day. `render` stands for `str` of values
      that are neither text nor int nor bool nor None. */
  method BuildUserPrompt(data: seq<Entry>, render: Value -> string) returns (prompt: string)
    ensures prompt == Join("\n", PromptLines(FieldsOf(data, render), Names(SetFlags(ActiveSet(data), FlagOrder))))
  {
    var fields := FieldsOf(data, render);
    var flags := ActiveFlags(data);
    prompt := Join("\n", PromptLines(fields, flags));
  }

  /** Text whose first character differs from a nonempty prefix's does not
      start with it. */
  lemma FirstCharDiffers(s: string, prefix: string)
    requires prefix != [] && (s == [] || s[0] != prefix[0])
    ensures !StartsWith(s, prefix)
  {
    if |prefix| <= |s| {
      assert s[..|prefix|][0] == s[0];
    }
  }

  /** A normal day's prompt has nine lines, none of them a flags or a
      severity line. */
  lemma NormalPromptShape(f: Fields, flags: seq<string>)
    requires !f.isAnomalous
    ensures |PromptLines(f, flags)| == 9
    ensures forall k :: 0 <= k < 9 ==>
      !StartsWith(PromptLines(f, flags)[k], "Anomaly Flags:") && !StartsWith(PromptLines(f, flags)[k], "Severity:")
  {
    var lines := PromptLines(f, flags);
    assert NoAnomaliesRequest[0] == 'N';
    assert lines[0][0] == 'D' && lines[2][0] == 'H' && lines[8][0] == 'N';
    assert lines[3][0] == '-' && lines[4][0] == '-' && lines[5][0] == '-' && lines[6][0] == '-';
    assert lines[1] == [] && lines[7] == [];
    forall k | 0 <= k < 9
      ensures !StartsWith(lines[k], "Anomaly Flags:") && !StartsWith(lines[k], "Severity:")
    {
      FirstCharDiffers(lines[k], "Anomaly Flags:");
      FirstCharDiffers(lines[k], "Severity:");
    }
  }

  /** An anomalous day's prompt has sixteen lines: the metric lines, then
      the flags and the severity on lines 9 and 10. */
  lemma AnomalousPromptShape(f: Fields, flags: seq<string>)
    requires f.isAnomalous
    ensures |PromptLines(f, flags)| == 16
    ensures PromptLines(f, flags)[..7] == MetricLines(f)
    ensures PromptLines(f, flags)[8] == "Anomaly Flags: " + FlagsText(flags)
    ensures PromptLines(f, flags)[9] == "Severity: " + f.severity
  {
  }

  /** On an anomalous day, every active flag's name appears in the prompt. */
  lemma ActiveFlagInPrompt(data: seq<Entry>, render: Value -> string, f: PromptFlag)
    requires Truthy(Get(data, "is_anomalous", Bool(false)))
    requires FlagIsSet(data, f)
    ensures Contains(Join("\n", PromptLines(FieldsOf(data, render), Names(SetFlags(ActiveSet(data), FlagOrder)))), Name(f))
  {
    var listed := SetFlags(ActiveSet(data), FlagOrder);
    var flags := Names(listed);
    var lines := PromptLines(FieldsOf(data, render), flags);
    ActiveSetMember(data, f);
    SetFlagsMember(ActiveSet(data), FlagOrder, f);
    var j :| 0 <= j < |listed| && listed[j] == f;
    JoinContainsPart(", ", flags, j);
    ContainsInSuffix("Anomaly Flags: ", FlagsText(flags), Name(f));
    AnomalousPromptShape(FieldsOf(data, render), flags);
    JoinContainsPart("\n", lines, 8);
    ContainsTransitive(Join("\n", lines), lines[8], Name(f));
  }

  /** A day with no flag set lists "No specific flags". */
  lemma NoFlagsText(data: seq<Entry>)
    requires forall f :: !FlagIsSet(data, f)
    ensures FlagsText(Names(SetFlags(ActiveSet(data), FlagOrder))) == "No specific flags"
  {
    var listed := SetFlags(ActiveSet(data), FlagOrder);
    if listed != [] {
      SetFlagsMember(ActiveSet(data), FlagOrder, listed[0]);
      ActiveSetMember(data, listed[0]);
    }
  }

  /** Missing keys: "Unknown date", "N/A" for each metric, severity 0 and a
      normal day. */
  lemma MissingKeyDefaults(data: seq<Entry>, render: Value -> string)
    requires "date" !in Keys(data) && "hrv" !in Keys(data) && "resting_hr" !in Keys(data)
    requires "sleep_score" !in Keys(data) && "steps" !in Keys(data)
    requires "anomaly_severity" !in Keys(data) && "is_anomalous" !in Keys(data)
    ensures FieldsOf(data, render) ==
      Fields("Unknown date", "N/A", "N/A", "N/A", "N/A", "0", false)
  {
    assert NatToString(0) == "0";
  }
}
