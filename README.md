# PageSpeed Insights / CrUX request and result model

This project models the core of a small web-performance utility written in JavaScript.
The utility has two parts.

- `PSIApiUtil` in `pageSpeed.js` calls the PageSpeed Insights API v5.
  - `test` and `query` validate their options and build the runPagespeed request URL.
  - `formatPSIResult` flattens a response into one spreadsheet row.
  - `_formatLightHouseResult` produces the lab columns: device, total score and eleven audit values.
  - `_formatLoadingResult` produces the field columns: category and percentile of four Chrome UX Report metrics, plus the overall category.
  - `_calcTotalScore` computes the performance score. It sums each audit's score times the weight that the performance category's `auditRefs` gives that audit's id.
- `CrUXApiUtil.query` in `crux.js` validates its options and builds the POST request to the Chrome UX Report queryRecord endpoint.

The model is written in Dafny in six modules:

- `Wrappers`: `Option` and `Result`.
- `Js`: the JavaScript semantics the code relies on.
  - truthiness and `||`;
  - NaN in arithmetic;
  - `null * w == 0` and `undefined * w == NaN`;
  - destructuring defaults, which apply to undefined but not to null;
  - template-literal interpolation;
  - plain objects as property lists in insertion order, which is JavaScript's order when no name is integer-like;
  - property reads and property assignment;
  - the object spread `{...a, ...b}`.
- `PageSpeedScore`: the score.
- `PageSpeedFormat`: the three formatters.
- `PageSpeedQuery`: the runPagespeed URLs.
- `CrUX`: the queryRecord request. `query` fills its `body` object step by step, so it is a method.

A JavaScript exception is a `Result` failure:
- `Thrown(message)` is a `throw` of a string, with the source's messages verbatim.
- `MissingField(path)` is the `TypeError` of a property read on `undefined`, naming the path that was read.

When a formatter fails, the error is the one JavaScript raises first, in evaluation order:
1. the score;
2. `configSettings`;
3. the lab audits, in column order;
4. then, in `formatPSIResult`, the field-data formatter;
5. finally `lighthouseResult.fetchTime`.

### Where the code differs from what it is meant to do

`formatPSIResult` guards the two formatters with `lighthouseResult ? ... : null`. That suggests a response with field data only is meant to yield a row of identification and loading columns. But line 70 of `pageSpeed.js` reads `lighthouseResult.fetchTime` unguarded, so every response without `lighthouseResult` throws. The model follows the code: `PageSpeedFormat.FormatPSIResult` fails on such a response. It is not listed as a finding, because the intended `Data` value for such a row cannot be told from the code.

The UTM options of `test` and `query` are appended as `&<value>`, with no `utm_campaign=` or `utm_source=` name. The model keeps that: `PageSpeedQuery.TestParameters` shows that each UTM value reads back as a parameter of its own.

## Model

| member | source | states |
|---|---|---|
| `PageSpeedScore.WeightOfFirstMatch` | pageSpeed.js:138-141 | an audit's weight is that of the first `auditRefs` entry carrying its id |
| `PageSpeedScore.WeightOfNoMatch` | pageSpeed.js:138-141 | an audit whose id no entry carries weighs 0 |
| `PageSpeedScore.ReduceNaN` | pageSpeed.js:137-143 | once the running score is NaN, the rest of the reduce keeps it NaN |
| `PageSpeedScore.ReduceIsWeightedSum` | pageSpeed.js:137-143 | the reduce over the audits equals the start value plus the weighted sum of scores (null scores add 0), or NaN when some audit has no score |
| `PageSpeedScore.CalcTotalScore` | pageSpeed.js:136-144 | undefined `audits` throws; no audits gives 0 without reading `categories`; otherwise a missing `categories.performance.auditRefs` link throws, else the result is the weighted sum or NaN |
| `PageSpeedScore.WeightedSumIgnoresKeys` | pageSpeed.js:137-142 | the score depends on the audits' values only: re-keying `audits` changes neither the sum nor whether it is NaN |
| `PageSpeedFormat.NumericValue` | pageSpeed.js:93-103 | `audits[id].numericValue` succeeds exactly when the audit is present, else throws naming it |
| `PageSpeedFormat.LabCells` | pageSpeed.js:93-103 | the lab cells succeed exactly when every audit is present, and their columns are the given names in order |
| `PageSpeedFormat.LabCellsFailure` | pageSpeed.js:93-103 | the first missing audit names the error |
| `PageSpeedFormat.LabCellsValues` | pageSpeed.js:93-103 | cell i copies the `numericValue` of audit i unchanged |
| `PageSpeedFormat.FormatLightHouseResult` | pageSpeed.js:87-105 | success exactly when the score, `configSettings` and all eleven audits are there; a score error and a missing `configSettings` throw in that order; on success the columns are Device, Score and the eleven Lab columns, Device is `formFactor`, and Score is the weighted sum, or 0 when it is NaN |
| `PageSpeedFormat.FormatLightHouseResultMissingAudit` | pageSpeed.js:93-103 | after score and `configSettings`, the first missing lab audit names the error |
| `PageSpeedFormat.FormatLightHouseResultCells` | pageSpeed.js:93-103 | each Lab column holds its audit's `numericValue` |
| `PageSpeedFormat.ReadMetric` | pageSpeed.js:116-126 | reading a field of a metric succeeds exactly when the metric is present |
| `PageSpeedFormat.LoadingCells` | pageSpeed.js:116-126 | the metric cells succeed exactly when every metric is present, two named columns per metric |
| `PageSpeedFormat.LoadingCellsFailure` | pageSpeed.js:116-126 | the first missing metric names the error |
| `PageSpeedFormat.LoadingCellsValues` | pageSpeed.js:119-126 | metric i fills cells 2i and 2i+1 with its category or "N/A" and its percentile or 0 |
| `PageSpeedFormat.FormatLoadingResult` | pageSpeed.js:115-129 | success exactly when `metrics` holds all four metrics; undefined `metrics` throws; the columns are the nine Loading columns; the overall category is the given one or "N/A" |
| `PageSpeedFormat.FormatLoadingResultMissingMetric` | pageSpeed.js:116-126 | the first missing field metric names the error |
| `PageSpeedFormat.FormatLoadingResultCells` | pageSpeed.js:119-126 | each metric's category column falls back to "N/A" and its percentile column to 0 when falsy |
| `PageSpeedFormat.LabColumnsDistinct` | pageSpeed.js:90-104 | no lab column name repeats |
| `PageSpeedFormat.LoadingColumnsDistinct` | pageSpeed.js:118-128 | no loading column name repeats |
| `PageSpeedFormat.ColumnsDistinct` | pageSpeed.js:69-75 | identification, lab and loading column names never collide |
| `PageSpeedFormat.SpreadIsConcatenation` | pageSpeed.js:74-75 | spreading the lab and loading records onto the identification columns appends them, overwriting nothing |
| `PageSpeedFormat.RowLayout` | pageSpeed.js:69-76 | a row is Data (the first ten code points of `fetchTime`), Marca, Site, the lab columns, then the loading columns when present, with no name repeated |
| `PageSpeedFormat.FormatPSIResult` | pageSpeed.js:63-77 | a falsy response throws "Resposta inválida"; a response without `lighthouseResult` always fails; errors come in evaluation order (lab, loading, `lighthouseResult`, `fetchTime`); success exactly when lab data, field data if present, and `fetchTime` are all readable |
| `PageSpeedFormat.FormatPSIResultRow` | pageSpeed.js:63-77 | a produced row is the identification columns, then the formatters' records in order, with Marca defaulting to "" and each cell as its formatter produced it |
| `PageSpeedQuery.Test` | pageSpeed.js:46-51 | rejects an unknown category before an unknown strategy, with the source's messages; otherwise requests the endpoint with key, url, category, locale and strategy, then the raw UTM values, with the defaults performance, pt-BR and desktop |
| `PageSpeedQuery.Query` | pageSpeed.js:25-30 | rejects an unknown tipo before an unknown strategy; otherwise requests the endpoint with key, `tipo:url`, locale and strategy, then the raw UTM values, with the defaults origin, pt-BR and desktop |
| `PageSpeedQuery.HrefParameters` | pageSpeed.js:51 | the rendered URL is the endpoint and '?', and its query string splits back into the parameters when none holds an '&' |
| `PageSpeedQuery.TestParameters` | pageSpeed.js:50-51 | the query string of `test`'s URL reads back as exactly its parameters when no interpolated value holds an '&' |
| `PageSpeedQuery.TestHref` | pageSpeed.js:50-51 | the URL `test` requests renders as the template `endpoint?key=…&url=…&category=…&locale=…&strategy=…`, then `&` and each UTM value that is neither null nor undefined |
| `PageSpeedQuery.QueryHref` | pageSpeed.js:27-30 | the URL `query` requests renders as the template `endpoint?key=…&url=tipo:url&locale=…&strategy=…`, then `&` and each UTM value that is neither null nor undefined |
| `PageSpeedQuery.TestDefaults` | pageSpeed.js:46 | `test` without options asks for performance, pt-BR and desktop, with no UTM parameters |
| `PageSpeedQuery.QueryDefaults` | pageSpeed.js:25-27 | `query` without options asks for `origin:` + url, pt-BR and desktop |
| `PageSpeedQuery.QueryIsTestWithoutCategory` | pageSpeed.js:25-51 | for a valid tipo, `query` accepts and rejects like `test` on the prefixed url, and its parameters are `test`'s without `category=` |
| `CrUX.Query` | crux.js:21-27 | an unknown tipo throws; otherwise the POST goes to `?key=` + the API key, and its body holds exactly the site under the tipo key (default origin), then `formFactor` only when it is DESKTOP, PHONE or TABLET |
| `Js.PutKeys` | crux.js:25-26 | assigning a new property appends it; assigning an existing one keeps every property in place |
| `Js.GetPut` | crux.js:25-26 | after `o[k] = v`, `o[k]` reads v and every other property reads as before |
| `Js.MergeDisjoint` | pageSpeed.js:74-75 | spreading an object whose names the target lacks appends its properties in order |
| `Js.MergeDistinct` | pageSpeed.js:74-75 | spreading objects with no shared property name concatenates them |

## Left out

- The HTTP calls are not modelled: `request(URL_API)` in `query` and `test`, and the POST in `CrUXApiUtil.query`. They are foreign I/O. The model returns the request that would be sent.
- The constructors only store the API key and the endpoint. The key is a parameter and the endpoint a constant.
- `sheet_utils.js` and `Code.js` are not part of this model. They write rows to a spreadsheet and drive the calls.
- Scores and weights are exact reals, so IEEE-754 rounding of the sum and infinities are not modelled. NaN, and the conversions of null and undefined in `score * weight`, are modelled.
- The response is already-decoded JSON with the expected shapes:
  - audit and metric entries are objects;
  - scores are numbers, null or absent;
  - `fetchTime` is a string;
  - anything not named is ignored.
  Other shapes are outside the model.
- Audit ids are compared as strings. JavaScript's loose `==` between a non-string id and a string is not modelled.
- `apiKey`, `url` and `site` are interpolated as the strings they are. An undefined or non-string key or url is not modelled.
- `PageSpeedQuery.TestParameters`: the read-back holds only when no interpolated value contains '&'. The source does not percent-encode, so other values are not parsed back.
- `PageSpeedQuery.Test` and `PageSpeedQuery.Query` return the URL as its endpoint and parameter list (`Url`). `PageSpeedQuery.TestHref` and `PageSpeedQuery.QueryHref` show that `Url.Href()` is the string the source's template builds.
- `PageSpeedFormat.RowLayout`: `Data` is the first ten characters of `fetchTime` counted as Unicode code points, while `slice(0, 10)` counts UTF-16 code units. The two agree on ASCII strings, which ISO-8601 timestamps are.
- `Js.Get`, `Js.Merge` and the `Js.Object` type: property names are assumed unique and not integer-like. Decoded JSON never repeats a name, and no name this code reads or writes is integer-like. JavaScript's rule that lists integer-like names first, in ascending order, is not modelled.
