# NutriVision AI — a Dafny model of the analysis core

NutriVision AI is a browser demo that sends one food photograph to the Gemini
API three times, once per prompting technique (Rapid Visual Scan,
Chain-of-Thought Analytical, Clinical Dietitian Review), and shows the three
nutritional estimates side by side with a radar chart and a bar chart.

This project models the part of the application that has logic:

- **Technique catalog** (`constants.dfy`, module `Constants`): the table
  from technique to display name, description, colour and model name, and
  the sample image list.
- **Analysis invoker** (`gemini_service.dfy`, module `GeminiService`):
  `analyzeImageWithGemini` — the API-key guard, the per-technique system
  instruction, extraction of the base64 payload with `split(',')[1]`, the
  fixed `image/png` MIME type, the request with its response schema, the
  empty-response error, rounding of the measured duration, and assembly of
  the result so that the measured `processingTimeMs` overrides whatever the
  response held. The service call and `JSON.parse` are opaque functions
  carried in a `Runtime`; clock readings are parameters.
- **Orchestrator** (`app.dfy`, module `App`): the initial table, the three
  `setResults` updaters as functions on sequences, their fold over
  resolutions arriving in any order, and the component state as the class
  `AppState` with the fields `results`, `isAnalyzing` and `currentImage`.
  `HandleImageSelected` runs one selection to completion, calling the invoker
  once per technique in an arrival order chosen by the environment.
- **Chart data** (`charts.dfy`, module `Charts`): `completedResults`, the
  four radar points (each built by a loop that writes one value per
  completed technique, as the `forEach` does) and the bar rows with their
  `|| 0` fallbacks.
- **JavaScript semantics** (`js.dfy`, module `Js`): the untyped values that
  `JSON.parse` yields, property access (which throws a TypeError on `null` and
  `undefined`), truthiness, `x || 0` and object spread. The application never
  validates the parsed response against its schema, so the model keeps the
  response untyped: a response missing `macros` makes the radar derivation
  throw, and a missing `confidenceScore` is charted as 0.

Behaviour worth noting:

- A failed request sets the cell's `error` and `loading: false` but leaves
  `data` as it was (App.tsx:42); it does not reset `data` to `null`. After a
  reset the two coincide; with a late answer for a superseded image they do
  not (`App.StaleSuccessThenFailure`).
- There is no typed "malformed response" error: the parsed JSON is not
  checked, and a `JSON.parse` failure is rethrown unchanged like any other
  error from inside the request.
- The missing key raises a plain `Error` with the message
  "API Key is missing.", not a distinct error type.
- The duration is `Math.round(end - start)`; it is non-negative whenever
  the clock did not go backwards.

## Model

| member | source | states |
|---|---|---|
| `Types.AllTechniquesOnce` | types.ts:1-5 | `Object.values(AI_TECHNIQUE)` lists each of the three techniques exactly once |
| `Constants.CatalogTotal` | constants.ts:9-28 | `TECHNIQUE_CONFIGS` has an entry for every technique and no other key; three entries |
| `Constants.NamesDistinct` | constants.ts:11-23 | two different techniques never share a display name |
| `Constants.ColorsDistinct` | constants.ts:13-25 | two different techniques never share a display colour |
| `Constants.SameModel` | constants.ts:14-26 | every technique names the model `gemini-2.5-flash` |
| `Constants.SampleImagesThree` | constants.ts:30-34 | `SAMPLE_IMAGES` holds exactly three distinct URLs |
| `GeminiService.SchemaRequiresEveryProperty` | services/geminiService.ts:9-28 | both object levels of `analysisSchema` require exactly their declared properties, in order; every macro is a number |
| `GeminiService.InstructionsDistinct` | services/geminiService.ts:41-73 | the instruction switch gives every technique a non-empty instruction and no two techniques the same one |
| `GeminiService.Split` | services/geminiService.ts:83 | `split(sep)` returns at least one piece, no piece contains the separator, and joining the pieces gives back the input |
| `GeminiService.SplitJoin` | services/geminiService.ts:83 | splitting undoes joining separator-free pieces (the inverse direction of `Split`'s round trip) |
| `GeminiService.ImageDataAbsent` | services/geminiService.ts:83 | the data sent is `undefined` exactly when the image string contains no comma |
| `GeminiService.DataUriPayload` | services/geminiService.ts:83 | for `data:<mime>;base64,<payload>` with comma-free mime and payload, exactly the payload is sent |
| `GeminiService.RequestShape` | services/geminiService.ts:39-97 | the request always declares `image/png` whatever the data URI header says, names the catalog's model, carries the technique's own instruction and the extracted payload |
| `GeminiService.Round` | services/geminiService.ts:100 | `Math.round` lands within one half of its argument |
| `GeminiService.DurationNonNegative` | services/geminiService.ts:38-100 | the measured duration is non-negative whenever the end reading is not before the start reading |
| `GeminiService.Assemble` | services/geminiService.ts:107-110 | the result holds every own property of the parsed value except `processingTimeMs`, which is the measured duration |
| `GeminiService.InvokeOutcomes` | services/geminiService.ts:30-116 | no key fails with "API Key is missing." whatever the service would do; a service error and a parse error are rethrown unchanged; absent or empty text fails with "No data returned from Gemini"; otherwise the result is the parsed value with the measured duration |
| `GeminiService.MeasuredDurationWins` | services/geminiService.ts:99-110 | a successful result's `processingTimeMs` is always the locally measured duration, never the response's |
| `GeminiService.AnalyzeImage` | services/geminiService.ts:30-116 | the method's outcome is the invocation's; it builds and sends a request exactly when a key is configured, and that request carries the technique's instruction, `image/png` and the extracted payload |
| `App.InitialResultsIdle` | App.tsx:10-14 | the initial table has one cell per technique in enumeration order, name and description from the catalog, and every cell idle |
| `App.ResetLoading` | App.tsx:32 | the reset keeps length, technique, name and description of every cell and makes each one loading with no data and no error |
| `App.Apply` | App.tsx:40-42 | a resolution keeps the table's length, order, names and descriptions, leaves the other techniques' cells unchanged and stops its own cell loading; in that cell a success stores the data and keeps `error`, a failure stores the message and keeps `data` |
| `App.ApplyCommutes` | App.tsx:40-42 | updates for different techniques commute |
| `App.ApplyAll` | App.tsx:37-44 | any sequence of resolutions preserves the table's length, technique order, names and descriptions |
| `App.ApplyAllPointwise` | App.tsx:37-44 | a batch of resolutions acts on each cell independently of the others |
| `App.ResolvedCell` | App.tsx:38-43 | a loading cell whose own request settles is settled: a success holds the data and no error, a failure holds the message and no data |
| `App.BatchSettles` | App.tsx:32-44 | after the reset and one resolution per technique, in any order, every cell is settled and holds exactly its own technique's outcome |
| `App.PermutationOncePerTechnique` | App.tsx:35-46 | requests settling in any order of the dispatched techniques settle each technique exactly once |
| `App.ArrivalOrderIrrelevant` | App.tsx:37-46 | two arrival orders of the same per-technique resolutions leave the same table |
| `App.StaleSuccessThenFailure` | App.tsx:40-42 | with no generation guard, a late success for a superseded image followed by the current failure leaves both data and error set |
| `App.Arrivals` | App.tsx:37-44 | one resolution per arriving technique, in arrival order, each carrying that technique's invocation outcome |
| `App.NoKeyEveryTechniqueFails` | App.tsx:37-43 | without a key, every cell ends with "API Key is missing.", no data and not loading |
| `App.AppState.constructor` | App.tsx:17-19 | the component starts with the initial table, no analysis in progress and no image |
| `App.AppState.Clear` | App.tsx:22-26 | an empty selection forgets the image and restores the initial table, leaving `isAnalyzing` as it was |
| `App.AppState.Submit` | App.tsx:28-35 | a selection stores the image, raises `isAnalyzing`, resets every cell to loading and dispatches every technique once |
| `App.AppState.ResolveSuccess` | App.tsx:40 | a success updates only its own technique's cell |
| `App.AppState.ResolveError` | App.tsx:42 | a failure updates only its own technique's cell |
| `App.AppState.Settle` | App.tsx:38-43 | a settled request goes to the success or the failure updater according to its outcome |
| `App.AppState.RunRequests` | App.tsx:37-44 | after the requests settle in the given order the table is the fold of their resolutions over the table it started from |
| `App.AppState.FinishAll` | App.tsx:46-47 | after all requests have settled the flag is cleared and the table stays well formed |
| `App.AppState.HandleImageSelected` | App.tsx:21-48 | an empty image clears; otherwise, once every dispatched request has settled in the given order (any permutation of the techniques), `isAnalyzing` is false and every cell is settled with its own technique's invocation outcome |
| `App.AppState.Analyze` | App.tsx:28-47 | for a selected image: stores it, resets the table, folds the resolutions in arrival order, lowers the flag, and leaves every cell settled with its own technique's invocation outcome |
| `App.SelectionOutcome` | App.tsx:32-44 | after the reset and the resolutions of one request per technique, each cell is settled and is its reset self resolved by its own technique's invocation outcome |
| `Charts.CompletedResults` | components/Charts.tsx:26 | the completed cells are exactly the cells holding data |
| `Charts.CompletedConcat` | components/Charts.tsx:26 | filtering distributes over concatenation, so the original order is kept |
| `Charts.PlaceholderIffNothingCompleted` | components/Charts.tsx:26-34 | the placeholder is produced exactly when no cell holds data |
| `Charts.IncludesIsSubstring` | components/Charts.tsx:47-50 | `includes` holds exactly when the searched string occurs at some index |
| `Charts.MetricsReadMatchingMacro` | components/Charts.tsx:37-50 | the `includes` chain makes each of the four axes read its own macro: calories, protein, carbs, fat |
| `Charts.MacroValue` | components/Charts.tsx:46-50 | a cell's value for an axis is `data.macros[key]` for the axis's macro key, or 0 when no key matches; it throws exactly when `macros` is absent or `null`, and is `undefined` when `macros` is a number, string, boolean or array |
| `Charts.MetricReadFails` | components/Charts.tsx:47-50 | every axis throws on exactly the cells whose `macros` is absent or `null` |
| `Charts.PointValuesSpec` | components/Charts.tsx:43-54 | the `forEach` fails exactly when some completed cell's value cannot be read; otherwise it adds one key per completed technique holding that technique's value and keeps earlier keys |
| `Charts.PointValuesSkipsPending` | components/Charts.tsx:44-45 | cells without data contribute nothing to a radar point |
| `Charts.BuildRadarPoint` | components/Charts.tsx:42-56 | the loop that fills `point` produces the specified radar point and keeps the metric's subject and scale |
| `Charts.RadarPointFromTable` | components/Charts.tsx:43-54 | for a table with one cell per technique, each radar point fails exactly when some completed cell lacks `macros`, and otherwise holds one key per completed technique with that technique's macro for the axis |
| `Charts.RadarData` | components/Charts.tsx:37-56 | one point per metric in order, and a failure exactly when some metric's point fails |
| `Charts.RadarAxes` | components/Charts.tsx:37-42 | the radar has four points in the order Calories, Protein, Carbs, Fat with scales 1000, 100, 100, 100 |
| `Charts.BarData` | components/Charts.tsx:59-64 | one bar row per completed cell in the same order, carrying its technique, its catalog name and the `|| 0` readings of duration and confidence |
| `Charts.BarFallback` | components/Charts.tsx:61-62 | a missing or falsy duration or confidence is charted as 0, any other value as itself |
| `Charts.BarTimeIsMeasured` | components/Charts.tsx:61 | a cell filled by the invoker always charts its measured duration |
| `Charts.ChartsFromTable` | components/Charts.tsx:26-64 | with at least one completed cell, the charts fail exactly when some completed cell lacks `macros`, and otherwise hold the four axes and the bar rows of the completed cells |
| `Js.OrZero` | components/Charts.tsx:61-62 | `x || 0` is `x` when truthy and 0 otherwise |
| `Js.Get` | components/Charts.tsx:47-50 | reading a property throws exactly on `null` and `undefined`, on an object gives the field or `undefined`, and on any other value gives `undefined` |
| `Js.Spread` | services/geminiService.ts:107-110 | spreading an object copies its fields; an array or string its elements under index keys; anything else nothing |

## Left out

- All rendering: the JSX of `App`, the recharts components, `AnalysisCard` and `ImageUpload` (file reading, fetching sample images, preview state). They only display the state or produce the data URI.
- The `generateContent` call and `JSON.parse`: opaque functions in `GeminiService.Runtime`. The SDK's handling of an `undefined` image payload is not modelled.
- `performance.now`: clock readings are parameters (`startTime`, `endTime`, and per technique in `HandleImageSelected`). Floating-point behaviour is not modelled: numbers are reals, and NaN and the infinities do not occur.
- Concurrency and `Promise.all`: the requests of one selection settle in an arrival order that is a parameter. `HandleImageSelected` covers one selection run to completion; interleavings with a newer selection are expressible only by calling the `AppState` methods one by one, and no generation guard is added, as the code has none.
- `console.error` logging in the invoker's catch block.
- The module-level read of `process.env.API_KEY`: the key is a field of `Runtime`.
- Property reads on non-objects: `Js.Get` gives `undefined` for every key of a boolean, number, string or array, which is exact for the keys the application reads but not for `length` or indices.
- Js.Spread: for arrays and strings it states that every index key holds its element, not that no other key is present.
- The unused `ChartDataPoint` type.
