/**
 * The data behind the comparative charts: the completed cells, one radar
 * point per macro metric and one bar row per completed cell.
 */
module Charts {
  import opened Wrappers
  import opened Js
  import opened Types
  import opened Constants
  import GeminiService
  import App

  /** `results.filter(r => r.data !== null)`. */
  function CompletedResults(rs: seq<TechniqueResult>): (r: seq<TechniqueResult>)
    ensures |r| <= |rs|
    ensures forall e :: e in r ==> e in rs && e.data.Some?
    ensures forall e :: e in rs && e.data.Some? ==> e in r
  {
    if rs == [] then []
    else (if rs[0].data.Some? then [rs[0]] else []) + CompletedResults(rs[1..])
  }

  /** Filtering keeps the original order: it distributes over concatenation. */
  lemma {:induction false} CompletedConcat(a: seq<TechniqueResult>, b: seq<TechniqueResult>)
    ensures CompletedResults(a + b) == CompletedResults(a) + CompletedResults(b)
    decreases |a|
  {
    if a == [] {
      assert a + b == b;
    } else {
      assert (a + b)[1..] == a[1..] + b;
      CompletedConcat(a[1..], b);
    }
  }

  // ---------------------------------------------------------------------------
  // Radar chart
  // ---------------------------------------------------------------------------

  /** `String.prototype.includes`. */
  predicate Includes(s: string, sub: string)
    decreases |s|
  {
    |sub| <= |s| && (s[..|sub|] == sub || Includes(s[1..], sub))
  }

  /** `sub` occurs in `s` starting at index `i`. */
  predicate OccursAt(s: string, sub: string, i: int)
  {
    0 <= i && i + |sub| <= |s| && s[i..i + |sub|] == sub
  }

  /** `includes` is substring containment: it holds exactly when `sub` occurs at some index of `s`. */
  lemma {:induction false} IncludesIsSubstring(s: string, sub: string)
    ensures Includes(s, sub) <==> exists i :: OccursAt(s, sub, i)
    decreases |s|
  {
    if |sub| <= |s| {
      if s[..|sub|] == sub {
        assert OccursAt(s, sub, 0);
      } else {
        IncludesIsSubstring(s[1..], sub);
        if Includes(s, sub) {
          var i :| OccursAt(s[1..], sub, i);
          assert s[1..][i..i + |sub|] == s[i + 1..i + 1 + |sub|];
          assert OccursAt(s, sub, i + 1);
        }
        if exists i :: OccursAt(s, sub, i) {
          var i :| OccursAt(s, sub, i);
          assert s[1..][i - 1..i - 1 + |sub|] == s[i..i + |sub|];
          assert OccursAt(s[1..], sub, i - 1);
        }
      }
    }
  }

  /** A string without the first character of `sub` does not contain `sub`. */
  lemma {:induction false} NotIncludesMissingFirst(s: string, sub: string)
    requires |sub| > 0 && sub[0] !in s
    ensures !Includes(s, sub)
    decreases |s|
  {
    if |sub| <= |s| {
      assert s[..|sub|][0] == s[0];
      NotIncludesMissingFirst(s[1..], sub);
    }
  }

  datatype Metric = Metric(subject: string, fullMark: int)

  /** The four radar axes, in order. */
  const Metrics: seq<Metric> := [
    Metric("Calories (kcal)", 1000),
    Metric("Protein (g)", 100),
    Metric("Carbs (g)", 100),
    Metric("Fat (g)", 100)
  ]

  /** The macro field a metric reads, by the same chain of `includes` tests; `""` when none matches. */
  function MacroKey(subject: string): string
  {
    if Includes(subject, "Calories") then CaloriesKey
    else if Includes(subject, "Protein") then ProteinKey
    else if Includes(subject, "Carbs") then CarbsKey
    else if Includes(subject, "Fat") then FatKey
    else ""
  }

  /** A string that starts with `sub` contains it. */
  lemma IncludesPrefix(s: string, sub: string)
    requires |sub| <= |s| && s[..|sub|] == sub
    ensures Includes(s, sub)
  {
  }

  lemma CaloriesAxis()
    ensures MacroKey("Calories (kcal)") == CaloriesKey
  {
    IncludesPrefix("Calories (kcal)", "Calories");
  }

  lemma ProteinAxis()
    ensures MacroKey("Protein (g)") == ProteinKey
  {
    NotIncludesMissingFirst("Protein (g)", "Calories");
    IncludesPrefix("Protein (g)", "Protein");
  }

  lemma CarbsAxis()
    ensures MacroKey("Carbs (g)") == CarbsKey
  {
    var carbs := "Carbs (g)";
    assert carbs[..8][2] != "Calories"[2];
    NotIncludesMissingFirst(carbs[1..], "Calories");
    assert !Includes(carbs, "Calories");
    NotIncludesMissingFirst(carbs, "Protein");
    IncludesPrefix(carbs, "Carbs");
  }

  lemma FatAxis()
    ensures MacroKey("Fat (g)") == FatKey
  {
    NotIncludesMissingFirst("Fat (g)", "Calories");
    NotIncludesMissingFirst("Fat (g)", "Protein");
    NotIncludesMissingFirst("Fat (g)", "Carbs");
    IncludesPrefix("Fat (g)", "Fat");
  }

  /** Each axis reads its own macro. */
  lemma MetricsReadMatchingMacro()
    ensures MacroKey(Metrics[0].subject) == CaloriesKey
    ensures MacroKey(Metrics[1].subject) == ProteinKey
    ensures MacroKey(Metrics[2].subject) == CarbsKey
    ensures MacroKey(Metrics[3].subject) == FatKey
  {
    CaloriesAxis();
    ProteinAxis();
    CarbsAxis();
    FatAxis();
  }

  /** The value a completed cell contributes to an axis: `data.macros[key]`, or 0 when no key matches. */
  function MacroValue(subject: string, data: AnalysisData): (r: Result<JsValue, TypeError>)
    ensures MacroKey(subject) == "" ==> r == Success(Num(0.0))
    ensures MacroKey(subject) != "" ==>
      (r.Failure? <==> Field(data, MacrosKey).Undefined? || Field(data, MacrosKey).Null?)
    ensures MacroKey(subject) != "" && Field(data, MacrosKey).Obj? ==>
      r == Success(Field(Field(data, MacrosKey).fields, MacroKey(subject)))
    ensures MacroKey(subject) != "" && !(Field(data, MacrosKey).Obj? || Field(data, MacrosKey).Undefined? || Field(data, MacrosKey).Null?) ==>
      r == Success(Undefined)
  {
    if MacroKey(subject) == "" then Success(Num(0.0)) else Get(Field(data, MacrosKey), MacroKey(subject))
  }

  /** One radar axis: its label, its scale and one value per completed technique. */
  datatype RadarPoint = RadarPoint(subject: string, fullMark: int, values: map<Technique, JsValue>)

  /** The values `forEach` writes into `point`, starting from `acc`. */
  function PointValues(subject: string, acc: map<Technique, JsValue>, rs: seq<TechniqueResult>): Result<map<Technique, JsValue>, TypeError>
    decreases |rs|
  {
    if rs == [] then Success(acc)
    else if rs[0].data.None? then PointValues(subject, acc, rs[1..])
    else
      match MacroValue(subject, rs[0].data.value)
      case Failure(e) => Failure(e)
      case Success(v) => PointValues(subject, acc[rs[0].technique := v], rs[1..])
  }

  /** The point built for one metric, or the TypeError its loop throws. */
  function RadarPointOf(metric: Metric, completed: seq<TechniqueResult>): Result<RadarPoint, TypeError>
  {
    match PointValues(metric.subject, map[], completed)
    case Failure(e) => Failure(e)
    case Success(values) => Success(RadarPoint(metric.subject, metric.fullMark, values))
  }

  predicate DistinctTechniques(rs: seq<TechniqueResult>)
  {
    forall j, k :: 0 <= j < k < |rs| ==> rs[j].technique != rs[k].technique
  }

  /** The techniques of the cells that hold data. */
  function DataTechniques(rs: seq<TechniqueResult>): set<Technique>
  {
    set k | 0 <= k < |rs| && rs[k].data.Some? :: rs[k].technique
  }

  /**
   * The loop fails exactly when some completed cell's value cannot be read;
   * otherwise it adds one key per completed technique, holding that
   * technique's value, and keeps every other key of `acc`.
   */
  lemma {:induction false} PointValuesSpec(subject: string, acc: map<Technique, JsValue>, rs: seq<TechniqueResult>)
    requires DistinctTechniques(rs)
    ensures var r := PointValues(subject, acc, rs);
      && (r.Failure? <==> exists k :: 0 <= k < |rs| && rs[k].data.Some? && MacroValue(subject, rs[k].data.value).Failure?)
      && (r.Success? ==> r.value.Keys == acc.Keys + DataTechniques(rs))
      && (r.Success? ==> forall k :: 0 <= k < |rs| && rs[k].data.Some? ==>
            r.value[rs[k].technique] == MacroValue(subject, rs[k].data.value).value)
      && (r.Success? ==> forall t :: t in acc && t !in DataTechniques(rs) ==> r.value[t] == acc[t])
    decreases |rs|
  {
    if rs != [] {
      var tail := rs[1..];
      assert DistinctTechniques(tail);
      assert DataTechniques(rs) == (if rs[0].data.Some? then {rs[0].technique} else {}) + DataTechniques(tail) by {
        forall t | t in DataTechniques(rs)
          ensures t in (if rs[0].data.Some? then {rs[0].technique} else {}) + DataTechniques(tail)
        {
          var k :| 0 <= k < |rs| && rs[k].data.Some? && rs[k].technique == t;
          if k > 0 { assert tail[k - 1] == rs[k]; }
        }
        forall t | t in DataTechniques(tail) ensures t in DataTechniques(rs) {
          var k :| 0 <= k < |tail| && tail[k].data.Some? && tail[k].technique == t;
          assert rs[k + 1] == tail[k];
        }
      }
      assert forall k :: 0 <= k < |tail| ==> tail[k].technique != rs[0].technique by {
        forall k | 0 <= k < |tail| ensures tail[k].technique != rs[0].technique {
          assert rs[k + 1] == tail[k];
        }
      }
      assert rs[0].technique !in DataTechniques(tail);
      if rs[0].data.None? {
        PointValuesSpec(subject, acc, tail);
        ShiftExists(subject, rs);
      } else {
        match MacroValue(subject, rs[0].data.value)
        case Failure(e) =>
        case Success(v) =>
          PointValuesSpec(subject, acc[rs[0].technique := v], tail);
          ShiftExists(subject, rs);
      }
    }
  }

  /** A failing cell of `rs` other than the first is a failing cell of its tail. */
  lemma ShiftExists(subject: string, rs: seq<TechniqueResult>)
    requires rs != []
    requires rs[0].data.None? || MacroValue(subject, rs[0].data.value).Success?
    ensures (exists k :: 0 <= k < |rs| && rs[k].data.Some? && MacroValue(subject, rs[k].data.value).Failure?)
        <==> (exists k :: 0 <= k < |rs[1..]| && rs[1..][k].data.Some? && MacroValue(subject, rs[1..][k].data.value).Failure?)
  {
    if exists k :: 0 <= k < |rs| && rs[k].data.Some? && MacroValue(subject, rs[k].data.value).Failure? {
      var k :| 0 <= k < |rs| && rs[k].data.Some? && MacroValue(subject, rs[k].data.value).Failure?;
      assert rs[1..][k - 1] == rs[k];
    }
    if exists k :: 0 <= k < |rs[1..]| && rs[1..][k].data.Some? && MacroValue(subject, rs[1..][k].data.value).Failure? {
      var k :| 0 <= k < |rs[1..]| && rs[1..][k].data.Some? && MacroValue(subject, rs[1..][k].data.value).Failure?;
      assert rs[k + 1] == rs[1..][k];
    }
  }

  /**
   * One element of `radarData`: the `forEach` over the completed cells that
   * writes each technique's value into `point`.
   */
  method BuildRadarPoint(metric: Metric, completed: seq<TechniqueResult>) returns (r: Result<RadarPoint, TypeError>)
    ensures r == RadarPointOf(metric, completed)
    ensures r.Success? ==> r.value.subject == metric.subject && r.value.fullMark == metric.fullMark
  {
    var values: map<Technique, JsValue> := map[];
    var i := 0;
    while i < |completed|
      invariant 0 <= i <= |completed|
      invariant PointValues(metric.subject, values, completed[i..]) == PointValues(metric.subject, map[], completed)
    {
      var res := completed[i];
      assert completed[i..][1..] == completed[i + 1..];
      if res.data.Some? {
        var data := res.data.value;
        var val := Num(0.0);
        var read: Result<JsValue, TypeError> := Success(val);
        if Includes(metric.subject, "Calories") {
          read := Get(Field(data, MacrosKey), CaloriesKey);
        } else if Includes(metric.subject, "Protein") {
          read := Get(Field(data, MacrosKey), ProteinKey);
        } else if Includes(metric.subject, "Carbs") {
          read := Get(Field(data, MacrosKey), CarbsKey);
        } else if Includes(metric.subject, "Fat") {
          read := Get(Field(data, MacrosKey), FatKey);
        }
        if read.Failure? {
          return Failure(read.error);
        }
        val := read.value;
        values := values[res.technique := val];
      }
      i := i + 1;
    }
    r := Success(RadarPoint(metric.subject, metric.fullMark, values));
  }

  /** `radarData`: one point per metric, in order; the first TypeError aborts. */
  function RadarData(ms: seq<Metric>, completed: seq<TechniqueResult>): (r: Result<seq<RadarPoint>, TypeError>)
    ensures r.Success? ==> |r.value| == |ms| && forall i :: 0 <= i < |ms| ==>
      Success(r.value[i]) == RadarPointOf(ms[i], completed)
    ensures r.Failure? <==> exists i :: 0 <= i < |ms| && RadarPointOf(ms[i], completed).Failure?
    decreases |ms|
  {
    if ms == [] then Success([])
    else
      match RadarPointOf(ms[0], completed)
      case Failure(e) => Failure(e)
      case Success(p) =>
        match RadarData(ms[1..], completed)
        case Failure(e) => Failure(e)
        case Success(ps) => Success([p] + ps)
  }

  // ---------------------------------------------------------------------------
  // Bar chart
  // ---------------------------------------------------------------------------

  datatype BarRow = BarRow(name: string, time: JsValue, confidence: JsValue, technique: Technique)

  /** `barData`: one row per completed cell, with the catalog name and `|| 0` fallbacks. */
  function BarData(completed: seq<TechniqueResult>): (rows: seq<BarRow>)
    requires forall i :: 0 <= i < |completed| ==> completed[i].data.Some?
    ensures |rows| == |completed|
    ensures forall i :: 0 <= i < |completed| ==>
      && rows[i].technique == completed[i].technique
      && rows[i].name == Config(completed[i].technique).name
      && rows[i].time == OrZero(Field(completed[i].data.value, ProcessingTimeKey))
      && rows[i].confidence == OrZero(Field(completed[i].data.value, ConfidenceKey))
  {
    seq(|completed|, i requires 0 <= i < |completed| =>
      var data := completed[i].data.value;
      BarRow(Config(completed[i].technique).name,
             OrZero(Field(data, ProcessingTimeKey)),
             OrZero(Field(data, ConfidenceKey)),
             completed[i].technique))
  }

  /** A missing or falsy duration or confidence is charted as 0; any other value as itself. */
  lemma BarFallback(completed: seq<TechniqueResult>, i: int)
    requires forall j :: 0 <= j < |completed| ==> completed[j].data.Some?
    requires 0 <= i < |completed|
    ensures var data := completed[i].data.value;
      && (ProcessingTimeKey !in data || !Truthy(data[ProcessingTimeKey]) ==> BarData(completed)[i].time == Num(0.0))
      && (ProcessingTimeKey in data && Truthy(data[ProcessingTimeKey]) ==> BarData(completed)[i].time == data[ProcessingTimeKey])
      && (ConfidenceKey !in data || !Truthy(data[ConfidenceKey]) ==> BarData(completed)[i].confidence == Num(0.0))
      && (ConfidenceKey in data && Truthy(data[ConfidenceKey]) ==> BarData(completed)[i].confidence == data[ConfidenceKey])
  {
  }

  // ---------------------------------------------------------------------------
  // The component
  // ---------------------------------------------------------------------------

  datatype ChartsView = Placeholder | Charts(radar: seq<RadarPoint>, bars: seq<BarRow>)

  /** What `ComparativeCharts` derives from the table, or the TypeError it throws. */
  function ComparativeCharts(results: seq<TechniqueResult>): Result<ChartsView, TypeError>
  {
    var completed := CompletedResults(results);
    if |completed| == 0 then Success(Placeholder)
    else
      match RadarData(Metrics, completed)
      case Failure(e) => Failure(e)
      case Success(radar) => Success(Charts(radar, BarData(completed)))
  }

  /** The placeholder is shown exactly when no cell holds data. */
  lemma PlaceholderIffNothingCompleted(results: seq<TechniqueResult>)
    ensures ComparativeCharts(results) == Success(Placeholder) <==>
      forall i :: 0 <= i < |results| ==> results[i].data.None?
  {
  }

  /** Pending cells contribute nothing to a radar point, so filtering first changes nothing. */
  lemma {:induction false} PointValuesSkipsPending(subject: string, acc: map<Technique, JsValue>, rs: seq<TechniqueResult>)
    ensures PointValues(subject, acc, CompletedResults(rs)) == PointValues(subject, acc, rs)
    decreases |rs|
  {
    if rs != [] {
      if rs[0].data.None? {
        assert CompletedResults(rs) == CompletedResults(rs[1..]);
        PointValuesSkipsPending(subject, acc, rs[1..]);
      } else {
        var c := CompletedResults(rs);
        assert c == [rs[0]] + CompletedResults(rs[1..]);
        assert c[0] == rs[0] && c[1..] == CompletedResults(rs[1..]);
        match MacroValue(subject, rs[0].data.value)
        case Failure(e) =>
        case Success(v) =>
          PointValuesSkipsPending(subject, acc[rs[0].technique := v], rs[1..]);
      }
    }
  }

  /** A completed cell whose `macros` cannot be read from (it is absent or `null`). */
  predicate MacrosMissing(data: AnalysisData)
  {
    Field(data, MacrosKey).Undefined? || Field(data, MacrosKey).Null?
  }

  /** Every radar axis throws on exactly those cells whose `macros` is missing. */
  lemma MetricReadFails(m: int, data: AnalysisData)
    requires 0 <= m < |Metrics|
    ensures MacroValue(Metrics[m].subject, data).Failure? <==> MacrosMissing(data)
    ensures MacroKey(Metrics[m].subject) in {CaloriesKey, ProteinKey, CarbsKey, FatKey}
  {
    MetricsReadMatchingMacro();
    var subject := Metrics[m].subject;
    var key := MacroKey(subject);
    assert key in {CaloriesKey, ProteinKey, CarbsKey, FatKey} by {
      if m == 0 {} else if m == 1 {} else if m == 2 {} else {}
    }
    assert MacroValue(subject, data) == Get(Field(data, MacrosKey), key);
  }

  /**
   * For a table with one cell per technique: a radar point fails exactly
   * when some completed cell lacks `macros`; otherwise it has one key per
   * completed technique, holding that technique's macro for the axis.
   */
  lemma RadarPointFromTable(results: seq<TechniqueResult>, m: int)
    requires DistinctTechniques(results)
    requires 0 <= m < |Metrics|
    ensures var p := RadarPointOf(Metrics[m], CompletedResults(results));
      && (p.Failure? <==> exists k :: 0 <= k < |results| && results[k].data.Some? && MacrosMissing(results[k].data.value))
      && (p.Success? ==> p.value.subject == Metrics[m].subject && p.value.fullMark == Metrics[m].fullMark)
      && (p.Success? ==> p.value.values.Keys == DataTechniques(results))
      && (p.Success? ==> forall k :: 0 <= k < |results| && results[k].data.Some? ==>
            p.value.values[results[k].technique] == Get(Field(results[k].data.value, MacrosKey), MacroKey(Metrics[m].subject)).value)
  {
    var subject := Metrics[m].subject;
    PointValuesSkipsPending(subject, map[], results);
    PointValuesSpec(subject, map[], results);
    MetricReadFails(m, map[]);
    forall k | 0 <= k < |results| && results[k].data.Some?
      ensures MacroValue(subject, results[k].data.value).Failure? <==> MacrosMissing(results[k].data.value)
    {
      MetricReadFails(m, results[k].data.value);
    }
  }

  /** The radar has the four axes in order, with their fixed scales. */
  lemma RadarAxes(completed: seq<TechniqueResult>)
    requires RadarData(Metrics, completed).Success?
    ensures var radar := RadarData(Metrics, completed).value;
      && |radar| == 4
      && radar[0].subject == "Calories (kcal)" && radar[0].fullMark == 1000
      && radar[1].subject == "Protein (g)" && radar[1].fullMark == 100
      && radar[2].subject == "Carbs (g)" && radar[2].fullMark == 100
      && radar[3].subject == "Fat (g)" && radar[3].fullMark == 100
  {
  }

  /**
   * For a table with one cell per technique, the charts fail exactly when
   * some completed cell lacks `macros`; otherwise they hold the four axes
   * and one bar row per completed cell.
   */
  lemma ChartsFromTable(results: seq<TechniqueResult>)
    requires DistinctTechniques(results)
    requires exists k :: 0 <= k < |results| && results[k].data.Some?
    ensures ComparativeCharts(results).Failure? <==>
      exists k :: 0 <= k < |results| && results[k].data.Some? && MacrosMissing(results[k].data.value)
    ensures ComparativeCharts(results).Success? ==>
      && ComparativeCharts(results).value.Charts?
      && |ComparativeCharts(results).value.radar| == |Metrics|
      && ComparativeCharts(results).value.bars == BarData(CompletedResults(results))
  {
    var k :| 0 <= k < |results| && results[k].data.Some?;
    var completed := CompletedResults(results);
    assert results[k] in completed;
    forall m | 0 <= m < |Metrics| {
      RadarPointFromTable(results, m);
    }
    if exists j :: 0 <= j < |results| && results[j].data.Some? && MacrosMissing(results[j].data.value) {
      assert RadarPointOf(Metrics[0], completed).Failure?;
    }
  }

  /** The table the application renders has one cell per technique. */
  lemma AppTableDistinct(results: seq<TechniqueResult>)
    requires App.WellFormed(results)
    ensures DistinctTechniques(results)
  {
  }

  /**
   * A cell filled by the invoker always charts its measured duration: the
   * invoker writes it last, and a zero duration falls back to the same 0.
   */
  lemma BarTimeIsMeasured(completed: seq<TechniqueResult>, i: int, parsed: JsValue, processingTimeMs: int)
    requires forall j :: 0 <= j < |completed| ==> completed[j].data.Some?
    requires 0 <= i < |completed|
    requires completed[i].data == Some(GeminiService.Assemble(parsed, processingTimeMs))
    ensures BarData(completed)[i].time == Num(processingTimeMs as real)
  {
  }
}
