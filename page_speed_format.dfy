/** The flattening of a PageSpeed Insights response into one spreadsheet
    row: `_formatLightHouseResult` (lab data), `_formatLoadingResult` (field
    data) and `formatPSIResult`, which puts them behind the identification
    columns. */
module PageSpeedFormat {
  import opened Wrappers
  import opened Js
  import opened PageSpeedScore

  datatype ConfigSettings = ConfigSettings(formFactor: Value)

  /** `lighthouseResult`; each `None` is a property that is absent or null. */
  datatype LighthouseResult = LighthouseResult(
    audits: Option<Object<Audit>>,
    categories: Option<Categories>,
    configSettings: Option<ConfigSettings>,
    fetchTime: Option<string>)

  /** One value of `loadingExperience.metrics`. */
  datatype Metric = Metric(percentile: Value, category: Value)

  /** `loadingExperience`. */
  datatype LoadingExperience = LoadingExperience(metrics: Option<Object<Metric>>, overallCategory: Value)

  /** The parts of a runPagespeed response body that are read; a falsy
      `lighthouseResult` or `loadingExperience` is `None`. */
  datatype PsiResponse = PsiResponse(
    lighthouseResult: Option<LighthouseResult>,
    loadingExperience: Option<LoadingExperience>,
    id: Value)

  /** The eleven lab columns, in order ... */
  const LabNames: seq<string> := [
    "Lab_FCP", "Lab_FMP", "Lab_FCPUIdle", "Lab_SpeedIndex", "Lab_TTI", "Lab_InputLatency",
    "Lab_TTFB", "Lab_RenderBlocking", "Lab_TBT", "Lab_CLS", "Lab_LCP"]

  /** ... and the audit whose `numericValue` each of them copies. */
  const LabAuditIds: seq<string> := [
    "first-contentful-paint", "first-meaningful-paint", "first-cpu-idle", "speed-index",
    "interactive", "estimated-input-latency", "server-response-time",
    "render-blocking-resources", "total-blocking-time", "cumulative-layout-shift",
    "largest-contentful-paint"]

  /** The four field metrics, in column order. */
  const MetricKeys: seq<string> := [
    "CUMULATIVE_LAYOUT_SHIFT_SCORE", "FIRST_CONTENTFUL_PAINT_MS",
    "FIRST_INPUT_DELAY_MS", "LARGEST_CONTENTFUL_PAINT_MS"]

  const BaseColumns: seq<string> := ["Data", "Marca", "Site"]
  const LabColumns: seq<string> := ["Device", "Score"] + LabNames
  /** A category and a percentile column per field metric, then the overall category. */
  const LoadingColumns: seq<string> := [
    "Loading_CLS_Category", "Loading_CLS", "Loading_FCP_Category", "Loading_FCP",
    "Loading_FID_Category", "Loading_FID", "Loading_LCP_Category", "Loading_LCP",
    "Loading_Overall_Category"]

  const InvalidResponse := "Resposta inválida"

  /** Reading a property of `o` when `o` may be undefined. */
  function Read<T>(o: Option<T>, path: string): Result<T, Error> {
    if o.Some? then Success(o.value) else Failure(MissingField(path))
  }

  /** `score ? score : 0`: NaN and 0 are falsy. */
  function ScoreColumn(score: Number): real {
    if score.Finite? && score.r != 0.0 then score.r else 0.0
  }

  /** `audits[id].numericValue` */
  function NumericValue(audits: Object<Audit>, id: string): (r: Result<Value, Error>)
    ensures r.Success? <==> id in Keys(audits)
    ensures r.Failure? ==> r.error == MissingField("audits." + id)
  {
    var audit :- Read(Get(audits, id), "audits." + id);
    Success(audit.numericValue)
  }

  /** The lab cells named `names`, evaluated in order as the object literal
      of lines 93-103 does. */
  function LabCells(audits: Object<Audit>, names: seq<string>, ids: seq<string>): (r: Result<Record, Error>)
    requires |names| == |ids|
    ensures r.Success? <==> HasAll(audits, ids)
    ensures r.Success? ==> Keys(r.value) == names
  {
    if ids == [] then Success([])
    else
      var value :- NumericValue(audits, ids[0]);
      var rest :- LabCells(audits, names[1..], ids[1..]);
      Success([(names[0], value)] + rest)
  }

  /** The first missing audit of `ids` names the error. */
  lemma {:induction false} LabCellsFailure(audits: Object<Audit>, names: seq<string>, ids: seq<string>, i: nat)
    requires |names| == |ids|
    requires i < |ids| && ids[i] !in Keys(audits) && HasAll(audits, ids[..i])
    ensures LabCells(audits, names, ids) == Failure(MissingField("audits." + ids[i]))
  {
    if i > 0 {
      assert ids[0] == ids[..i][0];
      assert ids[1..][..i - 1] == ids[..i][1..];
      LabCellsFailure(audits, names[1..], ids[1..], i - 1);
    }
  }

  /** Column `i` copies the `numericValue` of audit `ids[i]` unchanged. */
  lemma {:induction false} LabCellsValues(audits: Object<Audit>, names: seq<string>, ids: seq<string>, i: nat)
    requires |names| == |ids|
    requires LabCells(audits, names, ids).Success? && i < |ids|
    ensures LabCells(audits, names, ids).value[i].1 == Get(audits, ids[i]).value.numericValue
  {
    if i > 0 {
      LabCellsValues(audits, names[1..], ids[1..], i - 1);
    }
  }

  /** `_formatLightHouseResult`: the score is computed first, then the
      object literal is evaluated property by property. */
  function FormatLightHouseResult(lh: LighthouseResult): (r: Result<Record, Error>)
    ensures r.Success? <==>
              && CalcTotalScore(lh.audits, lh.categories).Success?
              && lh.configSettings.Some?
              && lh.audits.Some? && HasAll(lh.audits.value, LabAuditIds)
    ensures CalcTotalScore(lh.audits, lh.categories).Failure? ==>
              r == Failure(CalcTotalScore(lh.audits, lh.categories).error)
    ensures CalcTotalScore(lh.audits, lh.categories).Success? && lh.configSettings.None? ==>
              r == Failure(MissingField("configSettings"))
    ensures r.Success? ==> lh.audits.value != [] && AuditRefs(lh.categories).Success?
    ensures r.Success? ==>
              && Keys(r.value) == LabColumns
              && r.value[0].1 == lh.configSettings.value.formFactor
              && r.value[1].1 == Num(if SomeScoreMissing(lh.audits.value) then 0.0
                                     else WeightedSum(lh.audits.value, AuditRefs(lh.categories).value))
  {
    var score :- CalcTotalScore(lh.audits, lh.categories);
    var config :- Read(lh.configSettings, "configSettings");
    var lab :- LabCells(lh.audits.value, LabNames, LabAuditIds);
    var r := [("Device", config.formFactor), ("Score", Num(ScoreColumn(score)))] + lab;
    assert lh.audits.value != [] by {
      assert LabAuditIds[0] in Keys(lh.audits.value);
    }
    assert Keys(r) == ["Device", "Score"] + Keys(lab);
    Success(r)
  }

  /** Once score and `configSettings` are read, the first lab audit that is
      missing fails the call. */
  lemma FormatLightHouseResultMissingAudit(lh: LighthouseResult, i: nat)
    requires CalcTotalScore(lh.audits, lh.categories).Success? && lh.configSettings.Some?
    requires lh.audits.Some? && i < |LabAuditIds|
    requires LabAuditIds[i] !in Keys(lh.audits.value) && HasAll(lh.audits.value, LabAuditIds[..i])
    ensures FormatLightHouseResult(lh) == Failure(MissingField("audits." + LabAuditIds[i]))
  {
    LabCellsFailure(lh.audits.value, LabNames, LabAuditIds, i);
  }

  /** Lab column `Lab_*` number `i` copies the `numericValue` of its audit. */
  lemma FormatLightHouseResultCells(lh: LighthouseResult, i: nat)
    requires FormatLightHouseResult(lh).Success? && i < |LabAuditIds|
    ensures FormatLightHouseResult(lh).value[i + 2].1
            == Get(lh.audits.value, LabAuditIds[i]).value.numericValue
  {
    LabCellsValues(lh.audits.value, LabNames, LabAuditIds, i);
  }

  /** `metrics[key]` */
  function ReadMetric(metrics: Object<Metric>, key: string): (r: Result<Metric, Error>)
    ensures r.Success? <==> key in Keys(metrics)
    ensures r.Failure? ==> r.error == MissingField("metrics." + key)
    ensures r.Success? ==> Get(metrics, key) == Some(r.value)
  {
    Read(Get(metrics, key), "metrics." + key)
  }

  /** The two cells metric `m` yields: a falsy `category` reads "N/A" and a
      falsy `percentile` reads 0. */
  predicate MetricCells(category: Value, percentile: Value, m: Metric) {
    && category == (if Truthy(m.category) then m.category else Str("N/A"))
    && percentile == (if Truthy(m.percentile) then m.percentile else Num(0.0))
  }

  /** The cells of the metrics `keys`, two per metric, evaluated in order
      as the object literal of lines 118-127 does: the first metric that is
      missing fails the call. */
  function LoadingCells(metrics: Object<Metric>, names: seq<string>, keys: seq<string>): (r: Result<Record, Error>)
    requires |names| == 2 * |keys|
    ensures r.Success? <==> HasAll(metrics, keys)
    ensures r.Success? ==> Keys(r.value) == names
  {
    if keys == [] then Success([])
    else
      var metric :- ReadMetric(metrics, keys[0]);
      var cells := [(names[0], Or(metric.category, Str("N/A"))), (names[1], Or(metric.percentile, Num(0.0)))];
      var rest :- LoadingCells(metrics, names[2..], keys[1..]);
      KeysConcat(cells, rest);
      Success(cells + rest)
  }

  /** The first metric of `keys` that is missing names the error. */
  lemma {:induction false} LoadingCellsFailure(metrics: Object<Metric>, names: seq<string>, keys: seq<string>, i: nat)
    requires |names| == 2 * |keys|
    requires i < |keys| && keys[i] !in Keys(metrics) && HasAll(metrics, keys[..i])
    ensures LoadingCells(metrics, names, keys) == Failure(MissingField("metrics." + keys[i]))
  {
    if i > 0 {
      assert keys[0] == keys[..i][0];
      assert keys[1..][..i - 1] == keys[..i][1..];
      LoadingCellsFailure(metrics, names[2..], keys[1..], i - 1);
    }
  }

  /** Metric `keys[i]` yields cells `2i` and `2i + 1`. */
  lemma {:induction false} LoadingCellsValues(metrics: Object<Metric>, names: seq<string>, keys: seq<string>, i: nat)
    requires |names| == 2 * |keys|
    requires LoadingCells(metrics, names, keys).Success? && i < |keys|
    ensures var r := LoadingCells(metrics, names, keys).value;
            MetricCells(r[2 * i].1, r[2 * i + 1].1, Get(metrics, keys[i]).value)
  {
    if i > 0 {
      var metric := ReadMetric(metrics, keys[0]).value;
      var cells := [(names[0], Or(metric.category, Str("N/A"))), (names[1], Or(metric.percentile, Num(0.0)))];
      var rest := LoadingCells(metrics, names[2..], keys[1..]).value;
      assert LoadingCells(metrics, names, keys).value == cells + rest;
      LoadingCellsValues(metrics, names[2..], keys[1..], i - 1);
      assert (cells + rest)[2 * i] == rest[2 * (i - 1)];
      assert (cells + rest)[2 * i + 1] == rest[2 * (i - 1) + 1];
    }
  }

  /** `_formatLoadingResult`: destructuring an absent `metrics` fails, and
      so does reading a field of an absent metric. */
  function FormatLoadingResult(le: LoadingExperience): (r: Result<Record, Error>)
    ensures r.Success? <==> le.metrics.Some? && HasAll(le.metrics.value, MetricKeys)
    ensures le.metrics.None? ==> r == Failure(MissingField("metrics"))
    ensures r.Success? ==> Keys(r.value) == LoadingColumns
    ensures r.Success? ==>
              r.value[8].1 == if Truthy(le.overallCategory) then le.overallCategory else Str("N/A")
  {
    var metrics :- Read(le.metrics, "metrics");
    var cells :- LoadingCells(metrics, LoadingColumns[..8], MetricKeys);
    var r := cells + [("Loading_Overall_Category", Or(le.overallCategory, Str("N/A")))];
    KeysAppend(cells, r[8]);
    Success(r)
  }

  /** The first field metric that is missing fails the call. */
  lemma FormatLoadingResultMissingMetric(le: LoadingExperience, i: nat)
    requires le.metrics.Some? && i < |MetricKeys|
    requires MetricKeys[i] !in Keys(le.metrics.value) && HasAll(le.metrics.value, MetricKeys[..i])
    ensures FormatLoadingResult(le) == Failure(MissingField("metrics." + MetricKeys[i]))
  {
    LoadingCellsFailure(le.metrics.value, LoadingColumns[..8], MetricKeys, i);
  }

  /** Field metric `i` fills columns `2i` (its category, "N/A" when falsy)
      and `2i + 1` (its percentile, 0 when falsy). */
  lemma FormatLoadingResultCells(le: LoadingExperience, i: nat)
    requires FormatLoadingResult(le).Success? && i < |MetricKeys|
    ensures var r := FormatLoadingResult(le).value;
            MetricCells(r[2 * i].1, r[2 * i + 1].1, Get(le.metrics.value, MetricKeys[i]).value)
  {
    LoadingCellsValues(le.metrics.value, LoadingColumns[..8], MetricKeys, i);
  }

  /** `fetchTime.slice(0, 10)`: the date part of an ISO-8601 timestamp.
      Counts code points where JavaScript counts UTF-16 units; the two agree
      on ASCII text. */
  function Slice10(s: string): string {
    if |s| <= 10 then s else s[..10]
  }

  /** `lighthouseResult ? this._formatLightHouseResult(lighthouseResult) : null` */
  function LabIfPresent(lh: Option<LighthouseResult>): Result<Option<Record>, Error> {
    if lh.None? then Success(None)
    else
      var lab :- FormatLightHouseResult(lh.value);
      Success(Some(lab))
  }

  /** `loadingExperience ? this._formatLoadingResult(loadingExperience) : null` */
  function LoadingIfPresent(le: Option<LoadingExperience>): Result<Option<Record>, Error> {
    if le.None? then Success(None)
    else
      var loading :- FormatLoadingResult(le.value);
      Success(Some(loading))
  }

  /** No column name occurs twice in a full row or in a row without field data. */
  lemma LabColumnsDistinct()
    ensures Distinct(LabColumns)
  {
  }

  lemma LoadingColumnsDistinct()
    ensures Distinct(LoadingColumns)
  {
  }

  lemma ColumnsDistinct()
    ensures Distinct(BaseColumns + LabColumns)
    ensures Distinct(BaseColumns + LabColumns + LoadingColumns)
  {
    LabColumnsDistinct();
    LoadingColumnsDistinct();
    DistinctConcat(BaseColumns, LabColumns);
    forall i | 0 <= i < |BaseColumns + LabColumns|
      ensures (BaseColumns + LabColumns)[i][1] != 'o'
    {
    }
    forall j | 0 <= j < |LoadingColumns|
      ensures LoadingColumns[j][1] == 'o'
    {
    }
    DistinctConcat(BaseColumns + LabColumns, LoadingColumns);
  }

  /** Lines 69-75: the identification columns, then the lab and the loading
      columns spread onto them where present. */
  function Row(fetchTime: string, marca: Value, id: Value, lab: Option<Record>, loading: Option<Record>): Record {
    var base := [("Data", Str(Slice10(fetchTime))), ("Marca", marca), ("Site", id)];
    var withLab := if lab.Some? then Merge(base, lab.value) else base;
    if loading.Some? then Merge(withLab, loading.value) else withLab
  }

  /** Spreading the lab and loading columns behind the identification
      columns appends them: no name collides, so none is overwritten. */
  lemma SpreadIsConcatenation(base: Record, lab: Record, loading: Option<Record>)
    requires Keys(base) == BaseColumns && Keys(lab) == LabColumns
    requires loading.Some? ==> Keys(loading.value) == LoadingColumns
    ensures Merge(base, lab) == base + lab
    ensures loading.Some? ==> Merge(base + lab, loading.value) == base + lab + loading.value
    ensures Keys(base + lab + (if loading.Some? then loading.value else []))
              == BaseColumns + LabColumns + (if loading.Some? then LoadingColumns else [])
    ensures Distinct(BaseColumns + LabColumns + (if loading.Some? then LoadingColumns else []))
  {
    ColumnsDistinct();
    KeysConcat(base, lab);
    MergeDistinct(base, lab);
    if loading.Some? {
      KeysConcat(base + lab, loading.value);
      MergeDistinct(base + lab, loading.value);
    } else {
      assert base + lab + [] == base + lab;
      assert BaseColumns + LabColumns + [] == BaseColumns + LabColumns;
    }
  }

  /** The row of a response with lab data: identification columns, lab
      columns, then the loading columns when there is field data. */
  lemma RowLayout(fetchTime: string, marca: Value, id: Value, lab: Record, loading: Option<Record>)
    requires Keys(lab) == LabColumns
    requires loading.Some? ==> Keys(loading.value) == LoadingColumns
    ensures var row := Row(fetchTime, marca, id, Some(lab), loading);
            && Keys(row) == BaseColumns + LabColumns + (if loading.Some? then LoadingColumns else [])
            && Distinct(Keys(row))
            && row[0].1 == Str(fetchTime[..if |fetchTime| < 10 then |fetchTime| else 10])
            && row[1].1 == marca
            && row[2].1 == id
            && row[3..16] == lab
            && row[16..] == if loading.Some? then loading.value else []
  {
    var base := [("Data", Str(Slice10(fetchTime))), ("Marca", marca), ("Site", id)];
    assert Keys(base) == BaseColumns;
    SpreadIsConcatenation(base, lab, loading);
    var row := base + lab + (if loading.Some? then loading.value else []);
    assert row[3..16] == lab;
  }

  /** `formatPSIResult(psi_response, marca = "")`. Both formatters run before the
      identification columns are built, and `Data` reads
      `lighthouseResult.fetchTime` whether or not `lighthouseResult` is
      there, so a response without lab data always fails. */
  function FormatPSIResult(response: Option<PsiResponse>, marca: Arg): (r: Result<Record, Error>)
    ensures response.None? ==> r == Failure(Thrown(InvalidResponse))
    ensures response.Some? && response.value.lighthouseResult.None? ==> r.Failure?
    ensures response.Some? ==>
              var resp := response.value;
              var lab := LabIfPresent(resp.lighthouseResult);
              var loading := LoadingIfPresent(resp.loadingExperience);
              && (lab.Failure? ==> r == Failure(lab.error))
              && (lab.Success? && loading.Failure? ==> r == Failure(loading.error))
              && (lab.Success? && loading.Success? && resp.lighthouseResult.None? ==>
                    r == Failure(MissingField("lighthouseResult")))
              && (lab.Success? && loading.Success? && resp.lighthouseResult.Some?
                  && resp.lighthouseResult.value.fetchTime.None? ==>
                    r == Failure(MissingField("lighthouseResult.fetchTime")))
    ensures r.Success? <==>
              && response.Some?
              && response.value.lighthouseResult.Some?
              && FormatLightHouseResult(response.value.lighthouseResult.value).Success?
              && (response.value.loadingExperience.Some? ==>
                    FormatLoadingResult(response.value.loadingExperience.value).Success?)
              && response.value.lighthouseResult.value.fetchTime.Some?
  {
    if response.None? then Failure(Thrown(InvalidResponse))
    else
      var resp := response.value;
      var lab :- LabIfPresent(resp.lighthouseResult);
      var loading :- LoadingIfPresent(resp.loadingExperience);
      var lh :- Read(resp.lighthouseResult, "lighthouseResult");
      var fetchTime :- Read(lh.fetchTime, "lighthouseResult.fetchTime");
      Success(Row(fetchTime, ArgValue(WithDefault(marca, Text(""))), resp.id, lab, loading))
  }

  /** A row holds the identification columns, then the lab columns, then,
      when there is field data, the loading columns; no column name repeats,
      and each cell is what its formatter produced. */
  lemma FormatPSIResultRow(response: Option<PsiResponse>, marca: Arg)
    requires FormatPSIResult(response, marca).Success?
    ensures var row := FormatPSIResult(response, marca).value;
            var resp := response.value;
            var fetchTime := resp.lighthouseResult.value.fetchTime.value;
            && Keys(row) == BaseColumns + LabColumns
                            + (if resp.loadingExperience.Some? then LoadingColumns else [])
            && Distinct(Keys(row))
            && row[0].1 == Str(fetchTime[..if |fetchTime| < 10 then |fetchTime| else 10])
            && row[1].1 == (if marca.NullArg? then Null else Str(if marca.Text? then marca.s else ""))
            && row[2].1 == resp.id
            && row[3..16] == FormatLightHouseResult(resp.lighthouseResult.value).value
            && row[16..] == if resp.loadingExperience.Some?
                            then FormatLoadingResult(resp.loadingExperience.value).value else []
  {
    var resp := response.value;
    var lh := resp.lighthouseResult.value;
    var lab := FormatLightHouseResult(lh).value;
    var loading := if resp.loadingExperience.Some?
                   then Some(FormatLoadingResult(resp.loadingExperience.value).value) else None;
    var marcaCell := ArgValue(WithDefault(marca, Text("")));
    assert FormatPSIResult(response, marca).value == Row(lh.fetchTime.value, marcaCell, resp.id, Some(lab), loading);
    RowLayout(lh.fetchTime.value, marcaCell, resp.id, lab, loading);
  }
}
