# awesome-report-generator: the statistics pass

This project models `setStats` from `lib/generator.js`, the only part of the report generator with real logic. The pass walks a Cucumber result tree (features → elements, i.e. scenarios → steps) and overwrites the statistics properties of every node. It also adds its counts to the `suite` object and to the `featuresSummary` object (`data.summary`), and neither of those is reset between runs.

- **Steps.** A step with a `result` is counted in exactly one of `passed`, `failed`, `notdefined`, `pending` or `skipped`. Statuses are compared with exact string equality, and anything unrecognised is counted as `skipped`. A truthy `duration` is added to the element's `time`. A step with embeddings gets `image = './screenshots/<name>.png'`, where `<name>` is the scenario name with each space replaced by `_`.
- **Elements.** An element goes into at most one bucket. The bucket is the first non-zero counter in the order notdefined, failed, skipped, pending, passed. The same bucket is incremented on the feature's `scenarios` and on `suite.scenarios`. Choosing `failed` raises the shared `featuresSummary.isFailed` flag. A positive element time is added to the feature's `time`.
- **Features.** The flag is reset for every feature. A feature without `elements` returns early and is never counted. Every other feature, including one whose `elements` is an empty array, is counted once as failed or passed. A non-zero feature time is added to `suite.totalTime`.
- **Suite.** `suite.scenarios.pending` is never initialised, so `++` on it yields `NaN`. When the format list asks for `html` more than once, `setStats` runs again on the annotated tree. The tree comes out the same, but every suite total is added again.

Files:
- `js_values.dfy` (module `JsValues`) covers the JavaScript semantics the pass depends on. It models an optional property as `Option`, truthiness of a duration, and `++` on a property that may be `undefined` (`Counter`).
- `screenshots.dfy` (module `Screenshots`) builds the `step.image` path string.
- `stats_model.dfy` (module `StatsModel`) holds the result tree as datatypes, the specification functions of the pass, and the lemmas that say what they mean. Each lemma compares the pass against a reference definition: counting, sums and "exists a failed element".
- `generator.dfy` (module `Generator`) is the pass as the program runs it. It is a class `Suite` with the fields of the suite object and of `featuresSummary`, and nested `while` loops that rewrite the tree node by node. Each loop is proved against the specification functions.

A feature without `elements` returns at `lib/generator.js:76-78`, before the passed/failed update at lines 156-162, so it is counted in neither `suite.passed` nor `suite.failed` (`FeatureCountsPartition`, `NoElementsContributesNothing`).

## Model

| member | source | states |
|---|---|---|
| JsValues.Counter.Incremented | lib/generator.js:145-148 | `++` on a number adds one; on an absent property or on NaN it yields NaN |
| JsValues.PlusClosedForm | lib/generator.js:50-55 | after k increments, a number has grown by k, NaN stays NaN, and `undefined` is NaN as soon as k > 0 |
| JsValues.PlusPlus | lib/generator.js:145-148 | j increments followed by k increments equal j + k increments |
| Screenshots.Underscored | lib/generator.js:94 | `split(' ').join('_')` keeps the length, replaces every space with `_`, keeps every other character, and leaves no space |
| Screenshots.FileName | lib/generator.js:94-95 | the file name ends in `.png`; a missing name gives `undefined.png`; a present name keeps its length with spaces turned into underscores |
| Screenshots.ImageRefShape | lib/generator.js:93-99 | every `step.image` starts with `./screenshots/` and ends with `.png` |
| Screenshots.ImageRefName | lib/generator.js:94-99 | between the directory and the extension, `step.image` holds the scenario name character by character, with spaces replaced by `_` |
| Screenshots.MissingNameImageRef | lib/generator.js:94-99 | a scenario without a name gives `./screenshots/undefined.png` |
| Screenshots.UnderscoredKeepsTab | lib/generator.js:94 | only the space is replaced; a tab is kept |
| Screenshots.SpaceAndUnderscoreCollide | lib/generator.js:94-99 | names that differ only by space versus underscore get the same screenshot path |
| StatsModel.Counts.Bump | lib/generator.js:109-122 | `++` on one counter adds one to it and leaves the other four unchanged |
| StatsModel.BumpTotal | lib/generator.js:109-122 | every `++` adds exactly one to the sum of the five counters |
| StatsModel.StatusBucket | lib/generator.js:109-122 | a status goes to passed, failed, notdefined or pending exactly when it equals "passed", "failed", "undefined" or "pending"; any other string goes to skipped |
| StatsModel.TallyCountsResults | lib/generator.js:103-122 | each element counter equals the number of steps that have a result with a status in that bucket; steps without a result count nowhere |
| StatsModel.TallyTotal | lib/generator.js:103-122 | the five element counters sum to the number of steps that have a result |
| StatsModel.StepTimeSumsResults | lib/generator.js:86-108 | element time is the sum of the truthy durations of steps with a result; absent, zero or result-less durations add nothing |
| StatsModel.UnknownStatusIsSkipped | lib/generator.js:118-122 | a step with status "weirdstatus" increments only skipped |
| StatsModel.Classify | lib/generator.js:129-153 | no bucket exactly when all counters are zero; otherwise the chosen bucket is non-zero and every bucket of higher priority is zero |
| StatsModel.ClassifiedIff | lib/generator.js:129-153 | an element is counted in a bucket if and only if it has at least one step result |
| StatsModel.ClassifyFirstNonZero | lib/generator.js:129-153 | conversely, a non-zero bucket whose higher-priority buckets are all zero is the bucket chosen |
| StatsModel.PriorityExample | lib/generator.js:129-132 | notdefined=1, failed=1, passed=1 counts only as notdefined |
| StatsModel.AnnotateSteps | lib/generator.js:89-101 | each step keeps its position and is annotated with the same scenario name |
| StatsModel.FeatureTime | lib/generator.js:125-127 | feature time is never negative, because only positive element times are added |
| StatsModel.FeatureScenariosCountOutcomes | lib/generator.js:129-153 | each feature scenario counter equals the number of its elements classified into that bucket |
| StatsModel.FeatureScenariosTotal | lib/generator.js:129-153 | the feature scenario counters sum to the number of elements with at least one step result; all-zero elements are dropped |
| StatsModel.FeatureTimeSumsPositive | lib/generator.js:125-127 | feature time is the sum of only the positive element times |
| StatsModel.FeatureFailedIff | lib/generator.js:129-138 | the feature flag is true if and only if some element is classified as failed |
| StatsModel.UndefinedMasksFailed | lib/generator.js:129-138 | an element with an undefined and a failed step is notdefined and does not fail its feature |
| StatsModel.TotalTime | lib/generator.js:165-167 | the suite's total-time increment is never negative |
| StatsModel.AnnotateFeatures | lib/generator.js:66-171 | the pass keeps the number and order of features and annotates each one independently |
| StatsModel.FeatureCountsPartition | lib/generator.js:76-78 | suite.passed plus suite.failed grows by the number of features that have `elements`; features without them are counted in neither |
| StatsModel.NoElementsContributesNothing | lib/generator.js:67-78 | a feature without `elements` adds nothing to suite.passed, suite.failed, totalTime or suite.scenarios |
| StatsModel.SuitePendingNeverCounts | lib/generator.js:145-148 | suite.scenarios.pending stays absent while no element is pending and becomes NaN as soon as one is |
| StatsModel.AnnotateFeatureIdempotent | lib/generator.js:66-154 | annotating an annotated feature changes nothing and keeps its passed/failed verdict |
| StatsModel.RerunSameIncrements | lib/generator.js:59-177 | a second pass over its own output leaves the tree unchanged and adds the same increments to every suite total again |
| StatsModel.WorkedRun | lib/generator.js:80-167 | worked run: A (passed 5, passed 3) counts as passed with time 8; B (failed 2) counts as failed; the feature is failed with time 10; the suite gains one failed feature, one passed and one failed scenario, and time 10 |
| Generator.RecordScreenshots | lib/generator.js:90-101 | a step with embeddings gets the one image path for all of them; a step without embeddings, or with an empty list, is unchanged |
| Generator.ProcessStep | lib/generator.js:103-122 | a step without a result changes no counter and no time; otherwise exactly the status bucket is bumped, and a truthy duration is added |
| Generator.ProcessElement | lib/generator.js:80-123 | the step loop resets and recomputes the element's counters and time, and annotates every step |
| Generator.ElementBucket | lib/generator.js:129-153 | the early-return chain chooses the same bucket as the priority classification |
| Generator.Suite.constructor | lib/generator.js:27-56 | the suite starts with zero feature counts and time, four zero scenario counters, an absent pending counter, and the injected summary |
| Generator.Suite.CountElement | lib/generator.js:125-153 | adds a positive element time to the feature; bumps the chosen bucket on the feature and on the suite; raises the flag only for failed |
| Generator.Suite.ElementStep | lib/generator.js:80-154 | one pass of the element loop extends the feature roll-up and the suite counters by one element |
| Generator.Suite.ProcessElements | lib/generator.js:80-154 | the element loop gives the annotated elements, the feature scenario counts and time, and the flag, and adds the counts to suite.scenarios |
| Generator.Suite.ProcessFeature | lib/generator.js:66-171 | resets the feature and the flag; a feature without elements returns uncounted; otherwise it counts the feature as passed or failed and adds its time |
| Generator.Suite.SetStats | lib/generator.js:59-177 | annotates every feature in place; adds this run's increments to suite totals that are never reset; the flag ends as the last feature's verdict |
| Generator.HtmlReport | lib/generator.js:178-179 | each HTML run reruns the pass, so after n+1 runs every total is n+1 times the increment of one run; `reportAs` is "features" and the shared flag is the last feature's verdict |
| Generator.Run | lib/generator.js:240-249 | after the format list, every suite total is (number of "html" entries) × (one run's increment), and pending is absent or NaN; after at least one HTML run `reportAs` is "features" and the shared flag is the last feature's verdict, before any it is unset and false |

## Left out

- Loading the input with `require(path.resolve(config.input))` is not modelled. The features are a parameter.
- `ensureDirectoryExistence` and `directoryExists` are not modelled. They are filesystem calls whose exceptions the program swallows.
- Base64 decoding and writing of screenshot files are not modelled. Only the `step.image` string is.
- Template rendering and the file write in `htmlReport` are not modelled. `HtmlReport` keeps only its call to `setStats`.
- `xlsReport` is not modelled, because it only reads the tree and writes a workbook through a foreign library. In `Run` an "xlsx" entry leaves the suite unchanged.
- The `suite.time` timestamp (`new Date().toLocaleString()`) is not modelled, because it depends on the clock and locale.
- Durations are integers (nanoseconds). Fractional durations, and non-numeric ones (where JavaScript's `+=` would concatenate strings), are not modelled.
- Scenario names are strings or absent. A non-string name, such as a number, is not modelled. The empty name is falsy and gives `.png`.
- An `embeddings` or `steps` property that is `null`, or a missing `steps` array, makes the program throw. The model treats absent embeddings as `undefined` and always has a step list.
- Object identity inside the tree is not modelled. Nodes are values, and the suite's `features` field is a sequence that `SetStats` rewrites index by index. Parsed JSON contains no shared nodes.
- Two runs on a freshly reloaded input give identical summaries because every specification function is deterministic. There is no separate lemma for this.
