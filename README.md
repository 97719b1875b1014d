# Bank churn dashboard — verified model of its decision logic

The repository is a churn-prediction dashboard: a FastAPI service (`app/main.py`) that
turns a model's churn probability into a decision and a risk tier, guards its endpoints
with an API key and a model-loaded check, and summarises data drift; and a React front
end whose tabs collect one customer's features, score a whole CSV file row by row, and
show the service's health and drift. This project models the parts of both that carry
logic:

- **Batch scoring** (`frontend/src/components/BatchTab.tsx`, module `Batch`): each parsed
  CSV row is normalised into a feature record (a falsy parse falls back to 0, or to 1 for
  `NumOfProducts`), scored by one awaited call per row in file order, and tagged with the
  answer's three columns or with `Error: "Prediction failed"`; the summary counts only the
  rows without an error and is only replaced when there is at least one. The scoring loop
  is a `while` loop proved against `TagAll`, and, when no input row has a non-empty `Error`
  cell, the summary is proved equal to the counts over the scorer's successful answers. One quirk is proved as well: a CSV that brings its
  own non-empty `Error` column hides a successful row from the summary, because the row
  keeps that column and the filter tests `!p.Error`.
- **The service** (`app/main.py`, module `ChurnApi`): `prediction = int(proba > 0.5)`, the
  Low/Medium/High tiers at 0.3 and 0.7, the `X-API-Key` gate (403), the 503 guards of
  `/health` and `/predict` when no model is loaded, and `/drift/check`'s count of drifted
  features, its percentage and its HIGH/MEDIUM/LOW level, with an empty result set
  surfacing as a 500.
- **Monitoring** (`frontend/src/components/MonitoringTab.tsx`, module `Monitoring`): the
  drift percentage and level evaluated with JavaScript's division and comparisons (so
  `0 / 0` is `NaN` and reads LOW, `n / 0` is `Infinity` and reads HIGH), proved to agree
  with the service's level whenever features were analysed; the icon choice; and the
  loading/error state of the two checks.
- **The single-customer form** (`frontend/src/components/PredictionTab.tsx`, module
  `PredictionForm`): field edits, the geography radio group that rewrites the two one-hot
  flags, the `checked` expressions, and the submit cycle. From the initial record, every
  sequence of events the form raises keeps the flags one-hot, so exactly one country is
  shown checked.

Shared pieces: module `Js` gives JavaScript numbers (`NaN`, infinities), truthiness,
`x || d`, `>` and `/`; module `Client` gives the feature record of
`frontend/src/api/client.ts`, the answers, and the error text priority
`detail || message || fallback` used by both tabs.

Component state that the handlers replace (`useState` fields) is modelled as a class per
tab (`Batch.BatchTab`, `PredictionForm.PredictionTab`, `Monitoring.MonitoringTab`) and the
service's module-global `model` as `ChurnApi.Server`. Each async handler is split at its
`await`: a `Begin…`/`Handle…` method for the state set before the request, and a
`Finish…`/`On…` method for the state set once it settles. The remote scorer, the parsers,
the loaded model and the drift detector are oracles passed in as parameters.

Four behaviours of the code are easy to miss: a run with
no successful row leaves the previous summary in place instead of clearing it; a failed
row keeps all of its input columns beside `Error`; normalisation does not make the
geography flags exclusive (both can be 1); choosing a new file clears the results and the
error but not the summary.

## Model

| member | source | states |
|---|---|---|
| `Js.OrElse` | frontend/src/components/BatchTab.tsx:44-53 | the fallback `x or d` keeps a truthy number and otherwise gives `d`; the result is never NaN, and truthy whenever `d` is non-zero |
| `Js.Divide` | frontend/src/components/MonitoringTab.tsx:149-151 | JavaScript division: a finite quotient for a non-zero divisor, NaN for `0 / 0`, an infinity signed like the dividend otherwise |
| `Client.With` | frontend/src/components/PredictionTab.tsx:25-28 | `{ ...prev, [field]: v }` sets the named field and leaves every other field unchanged |
| `Client.ErrorText` | frontend/src/components/PredictionTab.tsx:41-43 | the message is the response's `detail` when non-empty, else the error's message when non-empty, else the fallback; never empty with a non-empty fallback |
| `ChurnApi.Decision` | app/main.py:130 | the prediction is 0 or 1, and 1 exactly when the probability is above 0.5 |
| `ChurnApi.Tier` | app/main.py:131 | Low iff p < 0.3, Medium iff 0.3 <= p < 0.7, High iff p >= 0.7 |
| `ChurnApi.PredictCached` | app/main.py:129-137 | the answer carries the probability, prediction 1 iff p > 0.5, and a tier consistent with it: Low implies prediction 0, High implies prediction 1 |
| `ChurnApi.AsResponse` | app/main.py:133-137 | the JSON answer's `risk_level` is one of "Low", "Medium", "High" and the probability and prediction pass through |
| `ChurnApi.HighLabelIsHighTier` | app/main.py:129-137 | the answer's `risk_level` reads "High" iff p >= 0.7 and its prediction is 1 iff p > 0.5, so the client's "High" test counts exactly the High tier |
| `ChurnApi.GetApiKey` | app/main.py:53-63 | a request is authorised iff its header equals the configured (non-empty) key; otherwise the status is 403 |
| `ChurnApi.Drifted` | app/main.py:186 | the drifted features are exactly those whose flag is set, a subset of the analysed ones, so their count is at most the number analysed |
| `ChurnApi.DriftPercentage` | app/main.py:187 | the percentage times the analysed count is 100 times the drifted count; between 0 and 100 when drifted <= analysed |
| `ChurnApi.DriftRiskLevel` | app/main.py:197 | HIGH iff pct > 50, MEDIUM iff 20 < pct <= 50, LOW iff pct <= 20 |
| `ChurnApi.Server.constructor` | app/main.py:53-69 | the key is the `API_KEY` environment value, or "mlops_secret_key_2026" when it is unset, and no model is loaded |
| `ChurnApi.Server.LoadModel` | app/main.py:71-79 | the global model becomes what loading produced, or none when loading raised |
| `ChurnApi.Server.Health` | app/main.py:94-98 | a wrong key gives 403; a right key without a model gives 503; otherwise healthy with the model loaded |
| `ChurnApi.Server.Predict` | app/main.py:142-172 | 403 before 503 before scoring; success iff authorised, loaded and the model scores, with the thresholded answer; a raising model gives 500 with its message |
| `ChurnApi.Server.CheckDrift` | app/main.py:177-211 | success iff authorised and detection gave a non-empty result, with drifted <= analysed and the logged level of their percentage; a failed detection or an empty result (division by zero) gives 500 |
| `Monitoring.DriftPercentage` | frontend/src/components/MonitoringTab.tsx:149-151 | finite and proportional for a non-zero analysed count; Infinity for drifted features over none; NaN for `0 / 0` |
| `Monitoring.Level` | frontend/src/components/MonitoringTab.tsx:152-153 | HIGH iff pct > 50, MEDIUM iff 20 < pct and not > 50, LOW otherwise; NaN reads LOW |
| `Monitoring.SameLevelAsServer` | frontend/src/components/MonitoringTab.tsx:149-153 | for a non-empty analysis the tab's level equals the level the service logs (app/main.py:197) |
| `Monitoring.NoDriftIsLow` | frontend/src/components/MonitoringTab.tsx:149-153 | zero drifted features always read LOW, including over an empty analysis |
| `Monitoring.DriftOverNothingIsHigh` | frontend/src/components/MonitoringTab.tsx:149-153 | drifted features over an analysed count of 0 read HIGH |
| `Monitoring.MajorityDriftIsHigh` | frontend/src/components/MonitoringTab.tsx:149-153 | more than half of the analysed features drifting reads HIGH |
| `Monitoring.MinorDriftIsLow` | frontend/src/components/MonitoringTab.tsx:149-153 | at most a fifth of the analysed features drifting reads LOW |
| `Monitoring.IconFor` | frontend/src/components/MonitoringTab.tsx:165-169 | the alert icon iff the level is HIGH, the check icon otherwise |
| `Monitoring.MonitoringTab.constructor` | frontend/src/components/MonitoringTab.tsx:6-11 | nothing loading, no data, no error, threshold 0.05 |
| `Monitoring.MonitoringTab.SetThreshold` | frontend/src/components/MonitoringTab.tsx:123 | the threshold becomes the parsed slider value and nothing else changes |
| `Monitoring.MonitoringTab.BeginCheckHealth` | frontend/src/components/MonitoringTab.tsx:13-16 | health loading on and the error cleared before the request |
| `Monitoring.MonitoringTab.FinishCheckHealth` | frontend/src/components/MonitoringTab.tsx:17-26 | loading off after either outcome; success stores the answer, failure sets the error text and keeps the previous answer |
| `Monitoring.MonitoringTab.BeginCheckDrift` | frontend/src/components/MonitoringTab.tsx:29-34 | drift loading on, the error cleared, and the current threshold sent |
| `Monitoring.MonitoringTab.FinishCheckDrift` | frontend/src/components/MonitoringTab.tsx:35-42 | loading off after either outcome; success stores the answer, failure sets the error text and keeps the previous answer |
| `PredictionForm.SelectCountry` | frontend/src/components/PredictionTab.tsx:247-266 | Germany gives flags (1, 0), Spain (0, 1), France (0, 0); every other field unchanged |
| `PredictionForm.Checked` | frontend/src/components/PredictionTab.tsx:239-246 | Germany is checked iff `Geography_Germany === 1`, Spain iff `Geography_Spain === 1`, France iff both are 0 |
| `PredictionForm.SelectionIsChecked` | frontend/src/components/PredictionTab.tsx:239-266 | after choosing a country, a button is checked iff it is that country |
| `PredictionForm.OneHotChecksOneCountry` | frontend/src/components/PredictionTab.tsx:239-246 | with one-hot flags exactly one button is checked, and choosing it reproduces the record |
| `PredictionForm.InputChange` | frontend/src/components/PredictionTab.tsx:24-29 | the named field gets the parsed text or the number given; all other fields keep their values |
| `PredictionForm.StepKeepsOneHot` | frontend/src/components/PredictionTab.tsx:247-266 | an edit of a non-geography field or a country choice keeps the flags one-hot |
| `PredictionForm.ReachableIsOneHot` | frontend/src/components/PredictionTab.tsx:7-18 | from the initial record (both flags 0), any sequence of form events keeps the flags one-hot and exactly one country checked |
| `PredictionForm.PredictionTab.constructor` | frontend/src/components/PredictionTab.tsx:7-22 | the initial record, no prediction, not loading, no error |
| `PredictionForm.PredictionTab.HandleInputChange` | frontend/src/components/PredictionTab.tsx:24-29 | only the named field changes, and the one-hot invariant survives any non-geography edit |
| `PredictionForm.PredictionTab.HandleCountryChange` | frontend/src/components/PredictionTab.tsx:247-266 | the flags follow the chosen country, the invariant holds, nothing else changes |
| `PredictionForm.PredictionTab.BeginSubmit` | frontend/src/components/PredictionTab.tsx:31-38 | loading on, error and prediction cleared, the current record sent; the one-hot invariant is kept |
| `PredictionForm.PredictionTab.FinishSubmit` | frontend/src/components/PredictionTab.tsx:38-46 | loading off after either outcome; success stores the answer, failure sets the error text; the record and its one-hot invariant are kept |
| `Batch.Cell` | frontend/src/components/BatchTab.tsx:44-53 | a missing column parses as NaN, a present one as the parser gives it |
| `Batch.Normalize` | frontend/src/components/BatchTab.tsx:43-54 | every field is the `||` fallback of its cell's parse, with `parseFloat` for the balance and salary, `parseInt` otherwise, and default 1 for the product count, 0 elsewhere |
| `Batch.NormalizeNeverFails` | frontend/src/components/BatchTab.tsx:43-54 | no field of a normalised record is NaN and the product count is never 0 |
| `Batch.FalsyCellGivesDefault` | frontend/src/components/BatchTab.tsx:44-53 | a missing, unparsable or zero cell gives the field's default |
| `Batch.TruthyCellIsKept` | frontend/src/components/BatchTab.tsx:44-53 | a cell that parses to a non-zero number is kept as parsed |
| `Batch.BothGeographyFlagsPass` | frontend/src/components/BatchTab.tsx:52-53 | two geography cells that both parse to 1 give a record with both flags 1 |
| `Batch.Label` | frontend/src/components/BatchTab.tsx:61-62 | "Will Churn" iff the prediction is 1 |
| `Batch.Spread` | frontend/src/components/BatchTab.tsx:59 | the spread keeps exactly the row's columns with their text |
| `Batch.Tag` | frontend/src/components/BatchTab.tsx:56-70 | a success adds probability, label and risk; a failure adds `Error: "Prediction failed"`; every other input column is kept |
| `Batch.Outcomes` | frontend/src/components/BatchTab.tsx:40-57 | one call per row, call i made with row i's normalised record |
| `Batch.TagAll` | frontend/src/components/BatchTab.tsx:40-71 | one result per row, in order, each the row tagged with its own answer |
| `Batch.ScoreRows` | frontend/src/components/BatchTab.tsx:38-71 | the loop's output has one entry per row in input order, whether the call failed or not, each tagged with that row's answer |
| `Batch.NoError` | frontend/src/components/BatchTab.tsx:76 | `!p.Error`: no `Error` cell, or an empty or zero one |
| `Batch.ValidPredictions` | frontend/src/components/BatchTab.tsx:76 | keeps exactly the rows whose `Error` is absent or falsy, and is no longer than its input |
| `Batch.ValidPredictionsCounts` | frontend/src/components/BatchTab.tsx:76 | each error-free row occurs in the result as often as in the input; every other row occurs zero times |
| `Batch.ValidPredictionsAppend` | frontend/src/components/BatchTab.tsx:76 | the filter keeps order: filtering a concatenation is concatenating the filtered parts |
| `Batch.ValidPredictionsSingle` | frontend/src/components/BatchTab.tsx:76 | one row is kept iff it has no error |
| `Batch.CountText` | frontend/src/components/BatchTab.tsx:78-80 | the number of rows whose column holds the given text (`Prediction === "Will Churn"`, and `Risk_Level === "High"` at lines 86-88), at most the number of rows |
| `Batch.SumProbability` | frontend/src/components/BatchTab.tsx:81-85 | the sum of the rows' `Churn_Probability`, starting from 0 |
| `Batch.Summarize` | frontend/src/components/BatchTab.tsx:76-96 | present iff some row has no error; then total is the number of such rows, and churn and high-risk counts are at most the total |
| `Batch.FailedRowIsExcluded` | frontend/src/components/BatchTab.tsx:65-76 | a failed row never counts in the summary |
| `Batch.ValidAtMostOk` | frontend/src/components/BatchTab.tsx:56-76 | the rows counted never outnumber the successful calls |
| `Batch.ValidMatchesOutcomes` | frontend/src/components/BatchTab.tsx:76-88 | without input `Error` cells, the counted rows are the successful calls, and the churn, high-risk and probability sums are those over the successful answers |
| `Batch.StatsOfRun` | frontend/src/components/BatchTab.tsx:76-96 | when no input row has a non-empty `Error` cell, the summary is absent iff no call succeeded, otherwise total, churn, mean probability and high-risk count over the successful answers |
| `Batch.MeanIsProbability` | frontend/src/components/BatchTab.tsx:81-85 | the mean of successful probabilities in [0, 1] is in [0, 1] |
| `Batch.ErrorColumnHidesSuccess` | frontend/src/components/BatchTab.tsx:58-76 | an input `Error` column with a non-empty cell removes a successful row from the summary |
| `Batch.BatchTab.constructor` | frontend/src/components/BatchTab.tsx:7-11 | no file, not loading, no error, no results, no summary |
| `Batch.BatchTab.HandleFileChange` | frontend/src/components/BatchTab.tsx:13-20 | a chosen file replaces the file and clears error and results; no file changes nothing; the summary stays |
| `Batch.BatchTab.HandlePredictBatch` | frontend/src/components/BatchTab.tsx:22-33 | without a file: the error "Please select a CSV file", no parse, results and summary untouched; with one: loading, error and results cleared, parse started |
| `Batch.BatchTab.OnParseComplete` | frontend/src/components/BatchTab.tsx:36-101 | results are every row tagged in order; the summary is replaced only when some row has no error, else the previous one stays; loading off |
| `Batch.BatchTab.OnParseError` | frontend/src/components/BatchTab.tsx:103-106 | the parser's message behind "CSV parsing error: ", loading off, results and summary untouched |
| `Batch.BatchTab.DownloadResults` | frontend/src/components/BatchTab.tsx:114-117 | nothing is exported without results; otherwise exactly the results, and no state changes |

## Left out

- HTTP transport, axios, FastAPI routing, CORS and middleware: requests and their settled results are parameters (`Outcome`, `Scorer`, `Detection`).
- Request validation by the service's pydantic schema (a 422 for a malformed body): `app/models.py` is not part of this model.
- `ChurnApi.GetApiKey`: a missing or empty `X-API-Key` header is refused by FastAPI's `APIKeyHeader` scheme, not by the service's code; the model assumes a FastAPI release before 0.122.0, whose scheme answers 403 "Not authenticated" (later releases answer 401 with a `WWW-Authenticate` header, which this model does not capture).
- Exact `parseInt`/`parseFloat` semantics: both are oracle functions (`Batch.Parsers`, and the parser passed to `PredictionForm.InputChange`).
- `ChurnApi.PredictCached`: the answer's probability is not rounded to four decimals, since rounding of floats is not modelled; decision and tier are computed from the unrounded probability, as in the source.
- Feature hashing and the result cache: a `Model` is a function, so a cached answer equals a fresh one.
- The model's inference (`predict_proba`), model deserialisation and the drift detector: oracles (`Model`, `LoadModel`'s argument, `Detection`).
- Logging, except the drift level logged by `/drift/check`, which `ChurnApi.Server.CheckDrift` returns.
- `Papa.parse` and `Papa.unparse`: parsing is given as the header-keyed rows passed to `OnParseComplete`, or the error message passed to `OnParseError`; `DownloadResults` returns the rows that would be serialised; the Blob, URL and anchor download is not modelled.
- Column order of a result row: rows are maps, so the order of the export's columns is not modelled.
- The catch blocks around the scoring loop (`BatchTab.tsx:97-98`) and around `Papa.parse` (`BatchTab.tsx:108-111`): nothing in the modelled loop can throw, and a synchronous throw from the parser is not modelled.
- Negative zero: JavaScript numbers are finite reals, infinities or NaN.
- A `detail` that is not a string (such as a validation error list): `detail` is an optional string.
- Async interleavings and React re-render timing: each handler is split at its await into two atomic steps; overlapping runs of one handler are not modelled.
- Rendering, styling and tab switching, `App.tsx`, `App.jsx`, `SettingsModal.tsx`, `PredictionCard.tsx` and `streamlit_app.py` (their geography encoding duplicates `PredictionForm.SelectCountry`).
- The root endpoint `/`, which returns constant metadata.
