# Robo-advisor risk profiler: a Dafny model

This project models the decision logic of a small robo-advisor and proves
properties about it. A user writes a free-text statement of their financial
goals. The Node server sanitizes the text and hands it to a Python worker. The
worker classifies it as Conservative, Balanced or Aggressive. The server then
looks up the model portfolio stored for that profile in MongoDB and answers
with the profile, the confidence and the portfolio.

The model covers these parts:

- `sanitizer.dfy`: `sanitizeInput`. The three regex deletions are written as
  explicit left-to-right scans. A second module, `SanitizerLimits`, proves
  which patterns can still be in the output.
- `invoker.dfy`: `runPrediction`. `spawn` either throws, which rejects the
  promise, or starts a process that delivers a sequence of events, and a loop accumulates stdout until the first event that settles the
  promise.
- `analyze_route.dfy`: the `POST /api/analyze` handler of `server.js`, as a
  function of the request body, the worker, the JSON parser and the lookup.
- `render_route.dfy`: the `POST /api/analyze` handler of `server_render.js`,
  which always answers Aggressive.
- `portfolio_schema.dfy`: the `Portfolio` schema. It is a validator that fills
  defaults.
- `portfolio_store.dfy`: the collection, a class whose `rows` the store
  operations update. It has `deleteMany`, the ordered `insertMany` with the
  unique `risk_profile` index, and `findOne`.
- `seed.dfy`: the seed table and the clear-then-insert `seed()`.
- `system.dfy`: both handlers answering from a seeded store.
- `predict.py` is modelled in `predict.dfy`: the character filter and pipeline
  of `preprocess_text`, the branches of `predict`, and `main`.
- `generate_data.py` is modelled in `generate_data.dfy`: `generate_sample`,
  and `generate_dataset` with its two append loops and an in-place
  Fisher-Yates shuffle on an array.
- `js.dfy`, `strings.dfy`, `wrappers.dfy` and `risk_profiles.dfy` are shared
  vocabulary: JavaScript values and truthiness, subsequences, filters, trims
  and joins.

Everything the code cannot see is a parameter:

- the worker process: `string -> Spawn`, either a synchronous throw from
  `spawn` or the events the started process delivers;
- `JSON.parse`: `string -> Option<Value>`;
- `Portfolio.findOne`: `Value -> DbReply`;
- the NLTK tokenizer, stopword list and lemmatizer: the `Nlp` record;
- the model files and classifier: the `Env` record;
- the generator's word lists: a `Vocabulary`.

Random choices are arbitrary picks (`:|`).

Where the code and its design documents disagree, the model follows the code:

- There is no timeout on the worker. A worker that never exits and never fails
  to start leaves the request unanswered (`SilentWorkerNoReply`).
- The sanitizer does not remove every script block or `on…=` handler. Each
  regex is a single pass, and the shell-character pass runs last, so it can
  join a pattern back together. `HandlerSurvives` and `ScriptBlockSurvives`
  exhibit this.
- A classification that the worker printed is passed on verbatim. Its
  `risk_profile` is one of the three labels only on the fallback paths.
- For a negative `n`, `generate_dataset` produces no rounds, but it still adds
  `n % 3` remainder rows under Python's floor modulo.

## Model

| member | source | states |
|---|---|---|
| Sanitizer.SanitizeInput | server/server.js:36-50 | A non-string yields "". The output has at most 2000 characters. It contains none of `; & \| \` $ ( )`. It neither starts nor ends with whitespace. It is a subsequence of the input. |
| Sanitizer.CutAndTrim | server/server.js:47-49 | The result is the first 2000 characters with their leading and trailing whitespace removed. It is a slice of that prefix, every character outside the slice is whitespace, and its own ends are not whitespace. |
| Sanitizer.DeleteLeftmost | server/server.js:40-41 | A global replacement by '' keeps everything before the leftmost match, drops the match and carries on right after it. |
| Sanitizer.DeleteAfterPrefix | server/server.js:40-41 | A prefix in which no match starts is kept whole, and the match that follows it is deleted. |
| Sanitizer.ScriptBlockAt | server/server.js:40 | The script regex matches at the start exactly when an opening `<script` (ASCII case-insensitive, then a non-word character) is followed by a closing `</script>`. The match ends at the first such close. |
| Sanitizer.HandlerAt | server/server.js:41 | `on\w+\s*=` matches at the start exactly when some decomposition exists. The match length uses the maximal word and space runs. |
| Sanitizer.HandlerDecided | server/server.js:41 | Once `on` is seen, the regex matches exactly when the maximal word run is non-empty and the following space run ends in `=`. No other decomposition exists. |
| Sanitizer.FindFrom | server/server.js:40 | Returns the first case-insensitive occurrence of a pattern at or after an index, or none. |
| Sanitizer.DeleteMatchesIsSubsequence | server/server.js:40-41 | A global regex replacement by '' only deletes characters. |
| SanitizerLimits.HandlerSurvives | server/server.js:41-44 | For every non-empty inert word w of at most 1000 letters, `on;w=` sanitizes to `onw=`, which the handler regex matches. |
| SanitizerLimits.ScriptBlockAtStart | server/server.js:40 | `<script>` + letters + `</script>` is matched whole by the script regex, whatever text follows it. |
| SanitizerLimits.ScriptBlockDeleted | server/server.js:40 | The script pass deletes a whole script block around letters and keeps the `<`-free text before it. |
| SanitizerLimits.ScriptBlockRemoved | server/server.js:36-50 | Text that is only a script block around letters sanitizes to "". |
| SanitizerLimits.HarmlessTextUnchanged | server/server.js:36-50 | Text with no `<script` opening, no `o` followed two characters later by a word character, no shell character, at most 2000 characters and no whitespace at either end is returned unchanged. |
| SanitizerLimits.ScriptBlockSurvives | server/server.js:40-44 | `<scr;ipt>w</script>` sanitizes to a complete script block. |
| SanitizerLimits.DropOneShellChar | server/server.js:44 | The shell pass removes exactly the shell character between two clean strings. |
| Invoker.RunPrediction | server/server.js:56-107 | A `spawn` that throws rejects the promise. Otherwise the loop over the started process's events settles exactly as the specification function `SettlementAfter`. |
| Invoker.OnlyThrowRejects | server/server.js:56-107 | The promise is rejected exactly when `spawn` throws. The `close` and `error` callbacks only ever resolve it. |
| Invoker.AfterOneMore | server/server.js:62-105 | Each event extends stdout only if it is a stdout chunk. The first settling event fixes the result, and later events change nothing. |
| Invoker.FirstSettlingFrom | server/server.js:73-105 | Returns the first close or spawn-error event, or none. |
| Invoker.SettledByFirstSettlingEvent | server/server.js:73-105 | The promise resolves with the value of the first settling event, computed from stdout up to it. With no settling event it stays pending. |
| Invoker.PredictionOutcomes | server/server.js:73-105 | The four outcomes. A spawn error gives the "Failed to start" fallback. A non-zero or null code gives "Classification process failed". Exit 0 with unparsable trimmed stdout gives "Failed to parse". Otherwise the parsed value is returned unchanged. |
| Invoker.ResolvedIsFallbackOrParsed | server/server.js:73-105 | A resolved value is either a Balanced/0.33 fallback with one of the three messages, or exactly what the parser returned. |
| AnalyzeRoute.AnalyzeHandler | server/server.js:117-164 | Every reply is 200, 400 or 500. Non-200 bodies hold only `error`. A 500 is "Internal server error". A 200 body has exactly the fields `risk_profile`, `confidence`, `portfolio`, `warning` and `error`. Its `portfolio` is `null` or a projected document. Its `warning` and `error` are `null` or truthy. A null body gives 500. |
| AnalyzeRoute.Answer | server/server.js:141-163 | After classification, the reply is 500 with "Internal server error" or a 200 of the success shape. |
| AnalyzeRoute.SuccessBody | server/server.js:146-156 | The 200 body has exactly the five keys. It copies `risk_profile` and `confidence`. Its `warning` and `error` are the classification's own when truthy, `null` otherwise. |
| AnalyzeRoute.RejectedBeforeClassification | server/server.js:122-135 | For every body other than `null` or `undefined` (an object, an array or a primitive): missing, falsy or non-string text gives 400 "Text input is required". Text that sanitizes to "" gives 400 "Invalid input after sanitization". Both replies are the same for every worker, parser and lookup. |
| AnalyzeRoute.HandlerAnswers | server/server.js:129-143 | Once the text survives and the worker resolves, the reply depends only on the classification and the lookup. |
| AnalyzeRoute.AnswerToObject | server/server.js:141-163 | The lookup is by the classification's `risk_profile`. A rejected lookup is a 500. Otherwise the reply is a 200 with the projected document, or `null` when none is found. |
| AnalyzeRoute.ClassifiedReply | server/server.js:138-163 | `risk_profile` and `confidence` are copied. `portfolio` is projected or `null`. A falsy `warning` or `error` becomes `null`. The reply is 500 exactly when the lookup rejects. |
| AnalyzeRoute.WorkerFailureReply | server/server.js:73-156 | A started process that emits `error` or exits with a non-zero or null code yields, when the Balanced lookup does not reject, a 200 with Balanced, 0.33, the matching error message and `warning: null`. Its portfolio is non-null exactly when Balanced is stored. |
| AnalyzeRoute.AnswerToFallback | server/server.js:146-156 | When the Balanced lookup does not reject, a fallback classification is answered with a 200 carrying Balanced, 0.33, its error message and `warning: null`, with a portfolio exactly when Balanced is stored. |
| AnalyzeRoute.NullClassificationIs500 | server/server.js:84-163 | Worker output that parses to `null` makes the property read throw, which gives a 500. |
| AnalyzeRoute.ScriptOnlyRejected | server/server.js:128-135 | A text that is only a script block around letters is answered with 400 "Invalid input after sanitization" before the worker runs. |
| AnalyzeRoute.SpawnThrowIs500 | server/server.js:56-162 | A `spawn` that throws rejects the awaited promise, and the handler answers 500 "Internal server error" rather than a fallback. |
| AnalyzeRoute.SilentWorkerNoReply | server/server.js:56-138 | A started worker that neither closes nor emits `error` leaves the request unanswered, because there is no timeout. |
| Api.Project | server/server.js:149-153 | The projection has exactly `description`, `asset_allocation` and `visualisation_color`, taken from the document. The colour is the stored string, or `null` when the document has none. |
| RenderRoute.RenderHandler | server/server_render.js:30-76 | For every body other than `null` or `undefined`, the reply is 200 exactly when the text is accepted, and otherwise 400 "Text input is required". A null body gives 500. A 200 has exactly `risk_profile` "Aggressive", `confidence` 0.95 and a non-null `portfolio`: the stored document when found, otherwise the built-in 70/10/5/15 '#FF5733' one. |
| RenderRoute.DbErrorActsAsNotFound | server/server_render.js:44-49 | A lookup that throws is answered exactly like one that finds nothing. |
| RenderRoute.ContentIgnored | server/server_render.js:41-69 | Any two accepted texts get the same reply. |
| RenderRoute.ShellOnlyTextAccepted | server/server_render.js:34-41 | ";" sanitizes to "" in the other handler, yet it gets a 200 here because there is no sanitization. |
| PortfolioSchema.Validate | server/models/Portfolio.js:9-54 | Validation succeeds exactly when every path is valid. The error set is exactly the invalid paths. A saved document carries the given values and the default colour. |
| PortfolioSchema.FillColor | server/models/Portfolio.js:46-49 | An omitted colour becomes '#4CAF50'. An explicit null stays null. A given colour is kept. |
| PortfolioSchema.ValidateRoundTrip | server/models/Portfolio.js:10-49 | Re-validating a stored document succeeds exactly when it conforms, and then yields that document. |
| PortfolioSchema.NoSumConstraint | server/models/Portfolio.js:20-45 | An allocation summing to 400 is accepted. |
| PortfolioStore.ValidateAll | server/models/Portfolio.js:9-54 | Either every document validates, with their saved forms, or the first failing index and its paths are returned. |
| PortfolioStore.ValidateAllFirstFailure | server/models/Portfolio.js:9-54 | When every document before index k validates and document k fails, the batch fails at k with k's paths. |
| PortfolioStore.ValidateAllSuccess | server/models/Portfolio.js:9-54 | When every document validates, the batch is saved as their saved forms, in order. |
| PortfolioStore.InsertFrom | server/models/Portfolio.js:14 | An ordered insert either appends all documents, or stops at the first one whose profile is already present, keeping those before it. |
| PortfolioStore.InsertFromKeepsUnique | server/models/Portfolio.js:14 | Ordered insertion preserves profile uniqueness. |
| PortfolioStore.InsertDistinctCompletes | server/models/Portfolio.js:14 | A batch whose profiles are new and pairwise distinct is inserted whole. |
| PortfolioStore.ValidateBatch | server/seed.js:60 | The validation pass equals `ValidateAll`, and each saved document conforms. |
| PortfolioStore.PortfolioCollection.InsertMany | server/seed.js:60 | Validity is kept. A failing batch leaves the rows unchanged. Otherwise the new rows are the ordered insert of the validated batch, and the result reports its count or the duplicate index. |
| PortfolioStore.PortfolioCollection.InsertOrdered | server/seed.js:60 | The in-place insert loop ends in the state and duplicate index that `InsertFrom` gives. |
| PortfolioStore.PortfolioCollection.DeleteMany | server/seed.js:56 | The collection becomes empty. |
| PortfolioStore.PortfolioCollection.constructor | server/models/Portfolio.js:56 | A new collection is empty and valid. |
| PortfolioStore.PortfolioCollection.FindByProfile | server/server.js:141-143 | A row is found exactly when one has that profile, and it is the first such row. Under uniqueness it is the only such row. |
| PortfolioStore.FindIn | server/server.js:141-143 | Returns the first row with the profile (no earlier row has it), found exactly when one exists. Under uniqueness it is the only such row. |
| Seed.SeedValidates | server/seed.js:11-45 | The three seed inputs validate to the three seed rows. |
| Seed.SeedTable | server/seed.js:11-45 | The table has exactly three rows, one per profile, with no duplicates. Each row conforms and has allocations summing to 100. |
| Seed.Seed | server/seed.js:47-74 | After seeding, the store holds exactly the seed rows and `insertMany` reports 3. |
| Seed.SeededLookupFinds | server/seed.js:11-45 | After seeding, a lookup by any profile finds that profile's row. |
| System.SeededLookup | server/seed.js:11-45 | After seeding, a query by a profile's label finds that profile's row. |
| System.SeededAnswerHasPortfolio | server/server.js:141-156 | After seeding, a classification naming a profile is answered with that profile's document. |
| System.SeededFallbackHasPortfolio | server/seed.js:23-33 | After seeding, a fallback reply carries the Balanced document, never `null`. |
| System.SeededRenderUsesStore | server/seed.js:34-44 | After seeding, the render handler returns the seeded Aggressive document. Its allocation and colour equal the built-in ones. Its description differs. |
| Predict.CleanText | ml_service/scripts/predict.py:27-30 | Only ASCII lower-case letters and whitespace remain. The result is a subsequence of the lowered text. Every ASCII letter and whitespace character of the input survives, lowered. |
| Predict.CleanTextCounts | ml_service/scripts/predict.py:27-30 | Each lower-case letter and whitespace character of the lowered text occurs in the result exactly as often as there. No other character occurs. |
| Predict.AsciiLower | ml_service/scripts/predict.py:27 | An upper-case ASCII letter maps to its own lower-case letter, 32 code points higher. Everything else is unchanged. |
| Predict.Lower | ml_service/scripts/predict.py:27 | Lowercasing maps every character independently and keeps the length. |
| Predict.DropStopwords | ml_service/scripts/predict.py:36-37 | No stopword is kept. The result is a subsequence of the tokens, and every non-stopword occurs in it. |
| Predict.DropStopwordsCounts | ml_service/scripts/predict.py:36-37 | Each non-stopword token occurs in the result exactly as often as in the input. No stopword occurs. |
| Predict.Lemmas | ml_service/scripts/predict.py:40-41 | The lemmatizer is applied to each token. |
| Predict.BlankIffEveryLemmaBlank | ml_service/scripts/predict.py:43-71 | The joined text strips to "" exactly when every lemma is whitespace. |
| Predict.StopwordAfterLemmatisation | ml_service/scripts/predict.py:36-43 | Stopwords are removed before lemmatisation, so a lemma that is a stopword stays in the output. |
| Predict.PredictText | ml_service/scripts/predict.py:46-98 | Missing model files give the "Models not found" error. A load exception gives its message. An NLTK failure gives its message. Blank preprocessed text gives the "Input too short or contained no meaningful content" warning. On non-blank text a classifier exception gives its message, and a classifier answer is returned as that profile and confidence with no note. A prediction is returned only when the models load, preprocessing succeeds, the text is not blank and the classifier answers. Every other outcome is Balanced 0.33. A warning appears exactly on blank preprocessed text. |
| Predict.InputText | ml_service/scripts/predict.py:103-108 | A single argument is the text. With no argument, the text is stripped stdin. |
| Predict.Main | ml_service/scripts/predict.py:101-120 | Empty input gives the "No input provided" warning without calling `predict`. Otherwise the result is that of `predict`. |
| Predict.MainOutcomes | ml_service/scripts/predict.py:56-115 | Every result is a prediction or the Balanced 0.33 fallback. Empty input does not depend on the environment. A prediction requires a loaded classifier that answered. |
| Predict.ToJson | ml_service/scripts/predict.py:120 | The printed object always has `risk_profile` and `confidence`, and no key besides those and `warning`/`error`. It has `warning` or `error` exactly when the result carries one, holding that note's message. |
| GenerateData.GenerateSample | ml_service/scripts/generate_data.py:98-105 | The label is returned unchanged. The text is `(prefix + base + suffix).strip()` for a base from the given templates and a listed prefix and suffix. |
| GenerateData.GenerateRounds | ml_service/scripts/generate_data.py:116-119 | The loop yields 3·rounds rows (none for a negative count), `rounds` of each class, each built from its own class's templates. |
| GenerateData.AppendRound | ml_service/scripts/generate_data.py:117-119 | One round keeps the classes balanced and every row well built. |
| GenerateData.AddRemainder | ml_service/scripts/generate_data.py:122-130 | The remainder loop adds one Conservative row, then one Balanced row, as `remainder` allows (always < 3, so `labels[i]` is in range). Each row is built from its own templates. |
| GenerateData.RemainderStep | ml_service/scripts/generate_data.py:128-130 | One remainder step adds one row of label `labels[i]`. |
| GenerateData.Shuffle | ml_service/scripts/generate_data.py:133 | The in-place Fisher-Yates shuffle permutes the rows: the multiset of rows and of class labels is unchanged. |
| GenerateData.SwapKeepsProfiles | ml_service/scripts/generate_data.py:133 | Swapping two rows keeps the class counts. |
| GenerateData.PermutationAllBuilt | ml_service/scripts/generate_data.py:133 | A permutation of well-built rows is well built. |
| GenerateData.ShuffleRows | ml_service/scripts/generate_data.py:133 | Shuffling the list returns a permutation of it. |
| GenerateData.GenerateDataset | ml_service/scripts/generate_data.py:108-135 | The dataset has 3·(n//3) + n%3 rows, which is exactly n for n ≥ 0. The counts are Conservative n//3 + [n%3 ≥ 1], Balanced n//3 + [n%3 = 2] and Aggressive n//3. Every row is built from its class's templates. |
| GenerateData.ClassesBalanced | ml_service/scripts/generate_data.py:110-130 | For n ≥ 0 the three class sizes sum to n and differ by at most one. |
| GenerateData.SourceVocabularyUsable | ml_service/scripts/generate_data.py:15-95 | The script's template lists have 20 entries each, with 10 prefixes and 9 suffixes, all non-empty. |
| GenerateData.TemplatesFor | ml_service/scripts/generate_data.py:123-127 | Each label's template list has 20 entries. |
| RiskProfiles.ParseLabel | server/models/Portfolio.js:13 | A string names a profile exactly when it is one of the three enum labels. |
| RiskProfiles.LabelRoundTrip | server/models/Portfolio.js:13 | Parsing a profile's label gives the profile back. |
| Js.GetProp | server/server.js:119-142 | A property read throws exactly on `null`/`undefined`. A missing key reads `undefined`. |
| Js.Or | server/server.js:154-155 | `a \|\| b` is `a` when truthy, else `b`. |
| Strings.Trim | server/server.js:49 | Trimming removes exactly the leading and trailing whitespace, leaving an inner slice. It is empty exactly when the input is all whitespace. |
| Strings.Filter | server/server.js:44 | A character-class deletion keeps only accepted characters, and every accepted character of the input appears in its result. |
| Strings.FilterCounts | server/server.js:44 | Each accepted element occurs in the result exactly as often as in the input. Rejected elements do not occur. |
| Strings.FilterIdempotent | server/server.js:44 | Filtering twice is filtering once. |

## Left out

- SanitizeInput: its own contract states the length bound, the absence of shell characters, the trimmed ends and that only characters are deleted. What the script and handler passes delete is stated by `DeleteLeftmost`, `DeleteAfterPrefix`, `ScriptBlockDeleted`, `ScriptBlockRemoved` and `HarmlessTextUnchanged`, together with the match contracts of `ScriptBlockAt` and `HandlerAt`, rather than by an ensures of SanitizeInput.
- The child process, its streams and `console` output are left out. Stdout chunks are modelled as already-decoded strings, so a multi-byte UTF-8 character split across chunks is not modelled.
- stderr accumulation is left out. It is only logged.
- Which arguments or operating-system errors make `spawn` throw synchronously (Node refuses a NUL character in an argument, for example) is left to the worker oracle, which reports `Threw`.
- The race between `error` and `close` on one process is not modelled. The promise settles once, on whichever event comes first in the event sequence.
- Concurrency between requests is left out.
- JavaScript strings are UTF-16 in the source. The model uses sequences of code points, so `substring(0, 2000)` is modelled on code points. A surrogate pair cut at the boundary is not modelled.
- Numbers are reals. NaN, -0 and floating-point rounding of `confidence` (`round(confidence, 2)`, `predict_proba`) are not modelled. Confidence is an opaque value except for the 0.33 and 0.95 constants.
- `JSON.parse`, `JSON.stringify` and `json.dumps` are oracles or direct value mappings. `JSON.stringify` dropping `undefined` members is not modelled.
- Mongoose type casting (for example the string "50" saved as a number) and the cast error for a query by a non-string profile are not modelled. `findOne` is an oracle over the queried value.
- `last_updated` and its `Date.now` default are left out.
- insertMany: the model validates the whole batch before inserting. Mongoose's reporting of several validation errors at once is reduced to the first failing document.
- `GET /api/portfolios`, `GET /api/health`, Express/CORS setup, static serving and `mongoose.connect` are left out.
- The React client is not part of this model.
- `train_model.py` is not part of this model. Its `preprocess_text` is the one in `predict.py`.
- NLTK (`word_tokenize`, the stopword list, `WordNetLemmatizer`), scikit-learn and `joblib` are parameters. A missing NLTK resource is a single optional failure message raised before preprocessing.
- Predict.Lower: lowercases ASCII letters only. Python's `str.lower` also maps non-ASCII letters (İ, K and so on), which the later filter would then drop or keep differently.
- Predict.InputText: states the single-argument case the server uses. With several arguments the text is their space-joined concatenation, which the function computes but no lemma characterises.
- Python `print`, `sys.stdin` reading and the `__main__` guard are left out. `main` returns the dictionary it would print.
- `random.seed(42)` and the concrete pseudo-random sequence are not modelled. Every `random.choice` and each index picked by `random.shuffle` is an arbitrary choice, so the results hold for every seed.
- pandas DataFrame construction and the CSV writing of `main` in `generate_data.py` are left out.
- GenerateData.GenerateDataset: takes the word lists as a `Vocabulary` parameter. `SourceVocabulary` holds the script's own lists and satisfies the requirement `Usable`.
