# eDNA analysis demo — a Dafny model of its core

The eDNA analysis demo is a single-page React app. It walks a user through four phases:

1. **Upload.** Upload a CSV file or pick a synthetic dataset. The file is parsed into a small preview.
2. **Pipeline.** Choose which of four analysis steps to run, with an estimated time.
3. **Analysis.** Wait three seconds while "the analysis runs".
4. **Results.** Look at mock results: a projection plot, a cluster table, metric cards and a ranked feature chart. Trained models can be saved to, and deleted from, a list of tags.

No analysis actually happens: every result is generated from `Math.random()` or from constants.

This project models that core in Dafny and proves what the code promises about it. The modules follow the source files:

| module | file | models |
|---|---|---|
| `Types` | `src/types/index.ts` | the records the components exchange |
| `Strings` | (shared) | JavaScript `split`, `join` and `trim` (ECMAScript white space), and `endsWith` |
| `Sequences` | (shared) | `indexOf` and the stable descending `sort`, written as an insertion sort |
| `DataUpload` | `src/components/DataUpload.tsx` | the CSV preview parser; the drag, drop and picker handlers as a class; the synthetic dataset |
| `PipelineControl` | `src/components/PipelineControl.tsx` | the step list; the selection map and its toggle; `parseInt`; the total time and minutes; the Start button rule |
| `ModelManagement` | `src/components/ModelManagement.tsx` | the saved-model list and save dialog as a class; the tag format and how a tag is displayed |
| `App` | `src/App.tsx` | the phase state machine as a class; the mock generators; the step indicator |
| `ClusterTable` | `src/components/visualizations/ClusterTable.tsx` | colours, the diversity band, badges and shares; the sort by size |
| `PerformanceMetricsView` | `src/components/visualizations/PerformanceMetrics.tsx` | the three metric cards, their threshold chains and bar widths |
| `FeatureImportanceChart` | `src/components/visualizations/FeatureImportanceChart.tsx` | bar widths, colours and ranks; the display name built by `replace` |

Where the code mutates state, the model does too. The upload panel, the pipeline panel, the model panel and the application state are classes whose methods update their fields, and their `ensures` give the whole new state. The upload panel, the pipeline panel and the application state each keep a `Valid()` invariant; the model panel needs none, since every list of tags, name and dialog flag is a state it can be in. The pure parts are functions, with lemmas relating them to an independent reading of what they should do.

The environment becomes parameters:

- **Randomness.** Every `Math.random()` value is a draw in [0, 1), taken from a caller-supplied sequence in the order the source makes its calls.
- **The clock.** `new Date().toISOString()` is a timestamp parameter.
- **The file reader.** It is replaced by a `File` value holding the file's name and its text.
- **The analysis timer.** The 3-second timer is the explicit `App.AppState.CompleteAnalysis` step.

Some behaviours of the code are easy to miss; the model keeps each of them:

- **The ".csv" check.** The file picker does not check the name. Its `accept=".csv"` only hints to the browser. Only the drop path tests `endsWith('.csv')`.
- **Trailing newline.** A newline at the end of a file counts as one more sample. It can also add a blank preview row.
- **The pipeline selection.** It changes only the displayed count, the time estimate and whether Start is enabled. `onStartAnalysis` ignores it.
- **Cluster shares.** They are taken of a fixed 150 samples, not of the table's total.
- **Bar widths.** Metric bar widths are not clamped to 0..100.

## Model

| member | source | states |
|---|---|---|
| Strings.Trim | src/components/ModelManagement.tsx:19 | `trim()` leaves no white space at either end |
| Strings.TrimSpec | src/components/ModelManagement.tsx:19-21 | `trim()` keeps one contiguous middle part and removes only white space; the result is empty exactly when the string is blank |
| Strings.TrimBounds | src/components/ModelManagement.tsx:19-21 | the trimmed string is a slice of the original, with only white space before and after it |
| Strings.TrimTrimmed | src/components/DataUpload.tsx:50-52 | trimming a string with no white space at its ends leaves it unchanged |
| Strings.Split | src/components/DataUpload.tsx:49-50 | `split(sep)` gives at least one piece, and no piece contains the separator |
| Strings.SplitCount | src/components/DataUpload.tsx:49-57 | `split(sep)` gives one more piece than there are separators |
| Strings.SplitFirstPiece | src/components/ModelManagement.tsx:117 | the first piece of a split runs from the start to the first separator, or to the end when there is none |
| Strings.JoinSplit | src/components/ModelManagement.tsx:120 | joining the pieces of a split with the same separator restores the string |
| Strings.JoinFirstPiece | src/components/ModelManagement.tsx:120 | a join starts with the first piece, followed by the separator when there is a second piece |
| Strings.SplitJoin | src/components/DataUpload.tsx:49-52 | splitting a join of separator-free pieces gives those pieces back |
| Strings.SplitPrefix | src/components/ModelManagement.tsx:117 | when `a` has no separator, splitting `a + sep + b` gives `a` first, then the pieces of `b` |
| Strings.SplitNoSeparator | src/components/DataUpload.tsx:49 | a string without the separator splits into itself alone |
| Strings.JoinWithout | src/components/DataUpload.tsx:49-50 | joining pieces that do not contain `c`, with a separator other than `c`, gives a string without `c` |
| Sequences.IndexOf | src/App.tsx:50 | `indexOf` gives the first position holding the element, and -1 exactly when the element is absent |
| Sequences.IndexOfDistinct | src/App.tsx:49-50 | in a list without repeats, `indexOf` finds an element at its own position |
| Sequences.Insert | src/App.tsx:82 | one insertion step of the sort adds exactly the inserted element |
| Sequences.InsertSorted | src/App.tsx:82 | inserting into a descending sequence keeps it descending |
| Sequences.SortDesc | src/App.tsx:82 | the descending sort's result is ordered by key and is a permutation of its input |
| Sequences.SortSorted | src/components/visualizations/ClusterTable.tsx:21 | the sort returns an already-ordered sequence unchanged |
| DataUpload.Cells | src/components/DataUpload.tsx:50-52 | a line becomes its comma-separated cells, one more than its commas, each trimmed |
| DataUpload.KeepWidth | src/components/DataUpload.tsx:53 | the row filter keeps only rows as wide as the header |
| DataUpload.KeepWidthConcat | src/components/DataUpload.tsx:53 | the filter keeps rows in order: filtering a concatenation is the concatenation of the filtered parts |
| DataUpload.KeepWidthMembers | src/components/DataUpload.tsx:53 | a row survives the filter exactly when it is present and has the header's width |
| DataUpload.KeepWidthAll | src/components/DataUpload.tsx:53 | if every row has the right width, the filter drops none |
| DataUpload.Window | src/components/DataUpload.tsx:51 | `slice(1, 6)` is lines 1 to 5, fewer if the text is shorter |
| DataUpload.CandidateRows | src/components/DataUpload.tsx:51-52 | candidate row k is the cells of line k + 1 |
| DataUpload.ParseCsv | src/components/DataUpload.tsx:48-64 | the parsed summary has: the file's name; samples = the number of newlines; features = header width ≥ 1; trimmed headers; at most 5 rows, each as wide as the header; and is not simulated |
| DataUpload.CandidatesAreLines | src/components/DataUpload.tsx:51-52 | a candidate row is exactly the cells of one of lines 1 to 5 |
| DataUpload.PreviewRows | src/components/DataUpload.tsx:51-53 | a row is in the preview exactly when it is the cells of one of lines 1 to 5 and matches the header width; every preview cell is trimmed |
| DataUpload.CellsOfLine | src/components/DataUpload.tsx:50-52 | a line written from plain cells splits back into exactly those cells |
| DataUpload.SplitCsvText | src/components/DataUpload.tsx:49 | splitting a written file on newlines gives back the lines it was written from |
| DataUpload.CandidatesOfCsvLines | src/components/DataUpload.tsx:51-52 | the candidate rows of a written file are its first five rows |
| DataUpload.ParseCsvText | src/components/DataUpload.tsx:48-64 | parsing a file written from a header and rows recovers: the header exactly; the row count as samples; the first five rows as the preview |
| DataUpload.ParseCsvOfCsvLines | src/components/DataUpload.tsx:48-64 | any text whose lines are a header line and plain data lines parses to that header, the row count and the first five rows |
| DataUpload.TrailingNewline | src/components/DataUpload.tsx:49-57 | a trailing newline counts as one more sample, and can show as a blank preview row |
| DataUpload.HeaderOnly | src/components/DataUpload.tsx:49-58 | a text with no newline has zero samples and an empty preview |
| DataUpload.ParsedWellFormed | src/components/DataUpload.tsx:53 | every parsed preview has at most 5 rows, each as wide as the header |
| DataUpload.SyntheticData | src/components/DataUpload.tsx:71-91 | the synthetic dataset: 150 samples, 25 features and 8 columns (feature count ≠ column count); 5 well-formed rows; flagged simulated |
| DataUpload.AcceptsDrop | src/components/DataUpload.tsx:30 | a drop is accepted exactly when there is a first file and its name ends in the four characters ".csv", in lower case |
| DataUpload.AcceptsDropFirstOnly | src/components/DataUpload.tsx:29-31 | files after the first never change whether a drop is accepted |
| DataUpload.UploadState.constructor | src/components/DataUpload.tsx:10-12 | no drag is active, no file is chosen and there is no preview |
| DataUpload.UploadState.HandleDrag | src/components/DataUpload.tsx:14-22 | enter and over set the highlight, leave clears it, other events keep it; nothing else changes |
| DataUpload.UploadState.ProcessFile | src/components/DataUpload.tsx:42-69 | the file is recorded and the preview becomes its parse; the invariant is kept |
| DataUpload.UploadState.HandleDrop | src/components/DataUpload.tsx:24-33 | the highlight goes off; only a first file whose name ends in ".csv" is processed; otherwise the file and preview are kept |
| DataUpload.UploadState.HandleFileChange | src/components/DataUpload.tsx:35-40 | the first picked file is processed whatever its name; with no file nothing changes |
| DataUpload.UploadState.GenerateSyntheticData | src/components/DataUpload.tsx:71-91 | the preview becomes the synthetic dataset; the chosen file and the highlight are kept |
| DataUpload.UploadState.ProceedWithData | src/components/DataUpload.tsx:93-97 | exactly the current preview is handed over, and it is well formed |
| ModelManagement.DatePart | src/components/ModelManagement.tsx:20-21 | `split('T')[0]` is the prefix of the timestamp up to its first 'T', or the whole timestamp when it has none |
| ModelManagement.ModelTag | src/components/ModelManagement.tsx:21 | a tag is the trimmed name, then '_', then the date part, which holds no 'T' |
| ModelManagement.DisplayName | src/components/ModelManagement.tsx:117 | the listed name is the tag up to its first '_', or the whole tag when it has none |
| ModelManagement.DisplayDate | src/components/ModelManagement.tsx:120 | the listed date is everything after the first '_', so name, '_' and date rebuild the tag; with no '_' it is empty |
| ModelManagement.Without | src/components/ModelManagement.tsx:28-30 | the filter removes `model` and keeps exactly the other entries |
| ModelManagement.WithoutConcat | src/components/ModelManagement.tsx:29 | deleting keeps the others in order: it distributes over concatenation |
| ModelManagement.WithoutAbsent | src/components/ModelManagement.tsx:29 | deleting an absent entry changes nothing |
| ModelManagement.WithoutIdempotent | src/components/ModelManagement.tsx:28-30 | deleting twice is the same as deleting once |
| ModelManagement.WithoutCount | src/components/ModelManagement.tsx:29 | deleting removes every copy: the length drops by the number of copies |
| ModelManagement.TagDisplayRoundTrip | src/components/ModelManagement.tsx:117-120 | for a name without '_', the list shows the trimmed name and the saved date back exactly |
| ModelManagement.TagDisplayCut | src/components/ModelManagement.tsx:117-120 | a name containing '_' is shown as only its part before the first '_', which differs from the saved name |
| ModelManagement.FirstPieceCut | src/components/ModelManagement.tsx:117 | the first piece of `a_b` ends at the first '_' of `a` |
| ModelManagement.IndexOfChar | src/components/ModelManagement.tsx:117 | the first occurrence of a character: it holds the character, and nothing before it does |
| ModelManagement.LastIndexOfChar | src/components/ModelManagement.tsx:21 | the last occurrence of a character: it holds the character, and nothing after it does |
| ModelManagement.LastIndexAfter | src/components/ModelManagement.tsx:21 | in `a + c + b` with no `c` in `b`, the last `c` is the one after `a` |
| ModelManagement.SavedNameRoundTrip | src/components/ModelManagement.tsx:21 | reading a tag at its last '_' gives back every trimmed name, underscores included, and the date |
| ModelManagement.ListedBeforeFirstUnderscore | src/components/ModelManagement.tsx:117 | a trimmed name `a_b` is listed as just `a` |
| ModelManagement.UnderscoreNameListed | src/components/ModelManagement.tsx:117 | "soil_v2" is listed as "soil", while reading at the last '_' gives "soil_v2" |
| ModelManagement.SoilTrimmed | src/components/ModelManagement.tsx:21 | trimming "soil_v2" leaves it unchanged |
| ModelManagement.ModelPanel.constructor | src/components/ModelManagement.tsx:15-16 | an empty list, an empty name and a closed dialog |
| ModelManagement.ModelPanel.OpenSaveDialog | src/components/ModelManagement.tsx:53-61 | the dialog opens only when there are results; the list and name are untouched |
| ModelManagement.ModelPanel.SetModelName | src/components/ModelManagement.tsx:64-68 | the name field takes the typed text; nothing else changes |
| ModelManagement.ModelPanel.CancelSave | src/components/ModelManagement.tsx:79-83 | the dialog closes and the name clears; the list is kept |
| ModelManagement.ModelPanel.SaveModel | src/components/ModelManagement.tsx:18-26 | a blank name changes nothing; otherwise exactly one tag `<trimmed name>_<date>` is appended, the name clears and the dialog closes |
| ModelManagement.ModelPanel.DeleteModel | src/components/ModelManagement.tsx:28-30 | the list loses every copy of the tag and keeps the rest in order |
| ModelManagement.ModelPanel.LoadModel | src/components/ModelManagement.tsx:32-35 | loading changes no state |
| App.Pick | src/App.tsx:49 | `Math.floor(r * n)` of a draw is a valid index 0..n-1 |
| App.PointAt | src/App.tsx:49-57 | each point has: a status and its colour; x within ±5 of 3k and y within ±5 of 2k, for status index k; a cluster in 1..5 |
| App.MockUmapData | src/App.tsx:43-60 | 150 points, each well placed |
| App.GenerateMockUmapData | src/App.tsx:43-60 | the loop yields 150 points, the i-th fixed by draws 4i..4i+3, each well placed |
| App.MockClusterData | src/App.tsx:62-70 | five clusters with ids 1..5 |
| App.MockClusterSizes | src/App.tsx:62-70 | sizes 45, 38, 29, 22 and 16 sum to 150, so the shares sum to 100%, and the rows are already in table order |
| App.MockMetricBands | src/App.tsx:30-34 | the constant metrics read Excellent, Good and Excellent |
| App.Category | src/App.tsx:81 | Environmental exactly when the name contains '_', otherwise Biological |
| App.FeatureCategories | src/App.tsx:72-81 | "temperature" and "turbidity" come out Biological; the other seven are Environmental |
| App.RankedFeatures | src/App.tsx:78-81 | one entry per feature name, in list order |
| App.MockFeatureImportance | src/App.tsx:72-83 | the ranking is sorted by importance, highest first, and is a permutation of the generated entries |
| App.MockFeatureImportanceShape | src/App.tsx:72-83 | nine entries: every name appears, importances lie in [0.2, 1), and the category follows the name |
| App.MockFeatureEntries | src/App.tsx:78-82 | each ranking entry is one of the nine names, with importance in [0.2, 1) and its category |
| App.MockFeatureCoverage | src/App.tsx:78-82 | every feature name appears in the ranking |
| App.MockFeatureChart | src/App.tsx:78-82 | in the chart, a generated bar is blue exactly when the name has '_', and its width lies in (0, 100] |
| App.MockResults | src/App.tsx:27-36 | one run's results: 150 well-placed points, five clusters, the metrics 0.847, 0.123 and 0.756, and the nine features ranked highest first |
| App.StepIndex | src/App.tsx:98 | `indexOf(currentStep)` finds every phase |
| App.Stage | src/App.tsx:96-103 | a stage is highlighted exactly when it is the current phase, and completed exactly when the current phase lies past it |
| App.ConnectorDone | src/App.tsx:108-111 | a connector is green exactly when the current phase lies past the stage before it |
| App.StageOrder | src/App.tsx:94-111 | earlier stages show completed, the current one is highlighted, later ones are pending; a connector is green exactly when the stage after it is not pending |
| App.AppState.constructor | src/App.tsx:10-14 | upload phase, no dataset, no results, not analysing, an empty model list |
| App.AppState.HandleDataUpload | src/App.tsx:16-19 | stores the dataset and moves to the pipeline phase; from upload it advances one phase and keeps the invariant |
| App.AppState.ProceedFromUpload | src/App.tsx:119-121 | the upload view passes on its preview if there is one; otherwise the state is unchanged |
| App.AppState.HandleAnalysisStart | src/App.tsx:21-24 | sets the analysing flag and the analysis phase; from pipeline it advances one phase and keeps the invariant |
| App.AppState.CompleteAnalysis | src/App.tsx:26-40 | stores exactly one set of mock results, clears the flag and advances to results |
| App.ViewsFollowPhase | src/App.tsx:119-141 | in every valid state, the pipeline view and the results view show exactly in their phases |
| PipelineControl.DigitValue | src/components/PipelineControl.tsx:63 | a digit's value is below 10 |
| PipelineControl.LeadingDigits | src/components/PipelineControl.tsx:63 | `parseInt` reads the longest prefix made of digits |
| PipelineControl.SpaceLength | src/components/PipelineControl.tsx:63 | the leading white space `parseInt` skips: all white space, and followed by no more of it |
| PipelineControl.ParseIntReads | src/components/PipelineControl.tsx:63 | `parseInt` is a number exactly when a digit follows the leading white space, and then it is the value of the digits found there |
| PipelineControl.Decimal | src/components/PipelineControl.tsx:25 | a number's decimal text is a non-empty string of digits |
| PipelineControl.DecimalValueOfDecimal | src/components/PipelineControl.tsx:63 | reading the decimal text of n gives n |
| PipelineControl.LeadingDigitsPrefix | src/components/PipelineControl.tsx:63 | the digit reader stops at the first non-digit |
| PipelineControl.ParseIntDecimal | src/components/PipelineControl.tsx:63 | `parseInt` reads back a number followed by a unit such as "s" |
| PipelineControl.StepSeconds | src/components/PipelineControl.tsx:18-51 | each step's `estimatedTime` parses to 45, 30, 60 or 50 seconds |
| PipelineControl.TwoDigitDecimal | src/components/PipelineControl.tsx:25 | a two-digit number's text is its tens digit, then its units digit |
| PipelineControl.EstimateSeconds | src/components/PipelineControl.tsx:63 | "<n>s" parses to n |
| PipelineControl.StepIdCases | src/components/PipelineControl.tsx:11-16 | every step id is one of the four keys of the selection |
| PipelineControl.AllSelectedOn | src/components/PipelineControl.tsx:11-16 | the initial selection is complete and enables every step |
| PipelineControl.Toggled | src/components/PipelineControl.tsx:54-57 | a toggle flips exactly the named step, keeps the others, and keeps the selection complete |
| PipelineControl.ToggledTwice | src/components/PipelineControl.tsx:53-58 | toggling twice restores the selection |
| PipelineControl.CountOn | src/components/PipelineControl.tsx:60 | the count never exceeds the number of keys |
| PipelineControl.SelectedCount | src/components/PipelineControl.tsx:60 | the count of enabled steps is between 0 and 4 |
| PipelineControl.CountOnToggled | src/components/PipelineControl.tsx:53-60 | toggling changes a count over distinct keys by exactly one |
| PipelineControl.SelectedCountToggled | src/components/PipelineControl.tsx:53-60 | toggling an enabled step lowers the count by one; toggling a disabled step raises it by one |
| PipelineControl.EnabledSteps | src/components/PipelineControl.tsx:61-62 | the filter keeps no more steps than it is given |
| PipelineControl.TotalOfEnabled | src/components/PipelineControl.tsx:61-63 | filtering then summing the parsed estimates equals the sum of the enabled steps' seconds |
| PipelineControl.TotalTime | src/components/PipelineControl.tsx:61-63 | the total time is a number, never NaN: the seconds of the enabled steps, added |
| PipelineControl.StepsEstimatesRead | src/components/PipelineControl.tsx:18-51 | every step's estimate parses to its seconds |
| PipelineControl.WeightedSecondsOfSteps | src/components/PipelineControl.tsx:61-63 | the enabled steps' seconds are 45, 30, 60 and 50, added for the steps that are on |
| PipelineControl.TotalTimeFormula | src/components/PipelineControl.tsx:61-63 | the total time is a number, never NaN: the sum of 45, 30, 60 and 50 over the enabled steps |
| PipelineControl.TotalTimeExtremes | src/components/PipelineControl.tsx:11-63 | everything enabled is 185 s; nothing enabled is 0 s |
| PipelineControl.SelectedCountFormula | src/components/PipelineControl.tsx:60 | the count adds one per enabled step |
| PipelineControl.StartDisabled | src/components/PipelineControl.tsx:167 | Start is disabled exactly when no step is enabled, which is exactly when the total time is 0 |
| PipelineControl.Minutes | src/components/PipelineControl.tsx:156 | `Math.ceil(t / 60)` is the fewest whole minutes covering t |
| PipelineControl.MinutesOfAll | src/components/PipelineControl.tsx:156 | 185 s shows as 4 minutes and 0 s as 0 |
| PipelineControl.PipelinePanel.constructor | src/components/PipelineControl.tsx:11-16 | every step starts enabled |
| PipelineControl.PipelinePanel.ToggleStep | src/components/PipelineControl.tsx:53-58 | the selection becomes its toggle, and stays complete |
| ClusterTable.JsRemainder | src/components/visualizations/ClusterTable.tsx:12 | JavaScript `%` takes the dividend's sign and truncates the quotient |
| ClusterTable.ClusterColor | src/components/visualizations/ClusterTable.tsx:10-13 | ids from 1 take palette entry (id - 1) mod 5; any colour given is one of the palette's |
| ClusterTable.ClusterColorCycle | src/components/visualizations/ClusterTable.tsx:10-13 | positive ids cycle through the five colours, with period 5 |
| ClusterTable.ClusterColorsDistinct | src/components/visualizations/ClusterTable.tsx:10-13 | ids 1..5 get five different colours |
| ClusterTable.ClusterColorNonPositive | src/components/visualizations/ClusterTable.tsx:12 | an id ≤ 0 gets a colour exactly when id - 1 is a multiple of 5 (a remainder of -0 gives the first colour); otherwise `undefined` |
| ClusterTable.DiversityLevel | src/components/visualizations/ClusterTable.tsx:15-19 | High at 3.5 and above; Medium from 2.5 up to 3.5; Low below 2.5 |
| ClusterTable.DiversityMonotone | src/components/visualizations/ClusterTable.tsx:15-19 | more diversity never gives a lower band, and the colours tell the bands apart |
| ClusterTable.Badges | src/components/visualizations/ClusterTable.tsx:96-112 | Dominant iff size > 40; High Diversity iff diversity > 3.5; Rare iff size < 25; no badge twice |
| ClusterTable.BadgeRules | src/components/visualizations/ClusterTable.tsx:96-112 | never Dominant and Rare together; High Diversity implies the High band, but 3.5 itself is High without the badge; at most two badges |
| ClusterTable.Share | src/components/visualizations/ClusterTable.tsx:69 | a share is of a fixed 150: 150 gives 100%, and sizes up to 150 give 0..100% |
| ClusterTable.ShareSumScales | src/components/visualizations/ClusterTable.tsx:69 | the shares sum to total × 100 / 150, which is 100% exactly when the sizes sum to 150 |
| ClusterTable.SortedClusters | src/components/visualizations/ClusterTable.tsx:21 | the copy is sorted by size, largest first, and holds exactly the given rows |
| ClusterTable.SortedClustersStable | src/components/visualizations/ClusterTable.tsx:21 | rows already in order keep their order |
| ClusterTable.TableRows | src/components/visualizations/ClusterTable.tsx:46-48 | one row per cluster, sorted by size, holding exactly the given clusters; each row shows its own cluster's colour, share, band and badges |
| PerformanceMetricsView.BandOf | src/components/visualizations/PerformanceMetrics.tsx:10-14 | Excellent from 0.8, Good from 0.6 up to 0.8, Fair below 0.6 |
| PerformanceMetricsView.ScoreColor | src/components/visualizations/PerformanceMetrics.tsx:10-14 | the colour class is that of the score's band |
| PerformanceMetricsView.ScoreLabel | src/components/visualizations/PerformanceMetrics.tsx:55 | the label is the name of the score's band |
| PerformanceMetricsView.BarColor | src/components/visualizations/PerformanceMetrics.tsx:67-70 | the bar colour is that of the score's band |
| PerformanceMetricsView.BandsDistinct | src/components/visualizations/PerformanceMetrics.tsx:10-14 | two scores share a label exactly when they share a colour, and exactly when they share a band |
| PerformanceMetricsView.MetricCards | src/components/visualizations/PerformanceMetrics.tsx:16-39 | three cards: accuracy, R², and 1 - MSE (marked inverted) |
| PerformanceMetricsView.BarWidth | src/components/visualizations/PerformanceMetrics.tsx:71 | a card's bar is its score × 100, for the inverted card too |
| PerformanceMetricsView.BarWidthIsScore | src/components/visualizations/PerformanceMetrics.tsx:71 | every bar is score × 100 and unclamped: negative when MSE > 1 or R² < 0 |
| PerformanceMetricsView.LowerMseNoWorse | src/components/visualizations/PerformanceMetrics.tsx:36 | a lower MSE never gives the MSE card a worse band |
| FeatureImportanceChart.MaxImportance | src/components/visualizations/FeatureImportanceChart.tsx:9 | `Math.max` bounds every importance and is attained |
| FeatureImportanceChart.BarWidth | src/components/visualizations/FeatureImportanceChart.tsx:18 | a width is a number exactly when the maximum is not 0, and is then the share of the maximum × 100: in (0, 100] for 0 < importance ≤ max, and 100 exactly at the maximum |
| FeatureImportanceChart.BarWidths | src/components/visualizations/FeatureImportanceChart.tsx:17-18 | one width per feature |
| FeatureImportanceChart.BarWidthBounds | src/components/visualizations/FeatureImportanceChart.tsx:9-18 | with positive importances every width lies in (0, 100]; a bar is full exactly at the maximum, and at least one is |
| FeatureImportanceChart.WidthOfShare | src/components/visualizations/FeatureImportanceChart.tsx:18 | x / m × 100 lies in (0, 100] and is 100 exactly when x = m |
| FeatureImportanceChart.CategoryColor | src/components/visualizations/FeatureImportanceChart.tsx:11-13 | blue exactly for Environmental, green for everything else |
| FeatureImportanceChart.CategoryBadge | src/components/visualizations/FeatureImportanceChart.tsx:33-37 | the badge is blue exactly when the bar is blue |
| FeatureImportanceChart.Ranks | src/components/visualizations/FeatureImportanceChart.tsx:24 | the ranks are 1..n, strictly increasing in list order |
| FeatureImportanceChart.ReplaceFirst | src/components/visualizations/FeatureImportanceChart.tsx:31 | `replace` keeps the length, and without an occurrence changes nothing |
| FeatureImportanceChart.ReplaceFirstSpec | src/components/visualizations/FeatureImportanceChart.tsx:31 | only the first occurrence changes; later ones stay |
| FeatureImportanceChart.ReplaceFirstCount | src/components/visualizations/FeatureImportanceChart.tsx:31 | exactly one copy of the pattern character goes |
| FeatureImportanceChart.UpperAscii | src/components/visualizations/FeatureImportanceChart.tsx:31 | a–z become A–Z, every other character is kept, and word characters stay word characters |
| FeatureImportanceChart.CapitalizeWords | src/components/visualizations/FeatureImportanceChart.tsx:31 | capitalising keeps the length |
| FeatureImportanceChart.CapitalizeWordsSpec | src/components/visualizations/FeatureImportanceChart.tsx:31 | every word start in a–z becomes upper case, and nothing else changes; capitalising twice is capitalising once |
| FeatureImportanceChart.DisplayName | src/components/visualizations/FeatureImportanceChart.tsx:31 | the display name has the identifier's length |
| FeatureImportanceChart.DisplayNameExample | src/components/visualizations/FeatureImportanceChart.tsx:31 | "pH_level" shows as "PH Level" |
| FeatureImportanceChart.PhSpaced | src/components/visualizations/FeatureImportanceChart.tsx:31 | `replace('_', ' ')` turns "pH_level" into "pH level" |
| FeatureImportanceChart.PhCapitalized | src/components/visualizations/FeatureImportanceChart.tsx:31 | capitalising "pH level" gives "PH Level" |
| FeatureImportanceChart.DisplayNameLaterUnderscore | src/components/visualizations/FeatureImportanceChart.tsx:31 | "a_b_c" shows as "A B_c": only the first '_' is replaced, and '_' is a word character |

## Left out

- **The file reader.** `FileReader`'s asynchronous read and its failure path are not modelled. `processFile` records the file and its parse in one step. The source records the file first and fills the preview when reading ends.
- **The analysis timer.** Its 3-second delay is left out; completion is the explicit `CompleteAnalysis` call.
- App.AppState.CompleteAnalysis: requires the analysis phase. No view offers a way out of that phase, so it is the only phase a pending timer can fire in.
- **Floating point.** Numbers are exact reals. `toFixed` formatting and rounding of displayed values are not modelled.
- **Values never produced or never read.** The `data` field of `AnalysisData` is always `[]`. `isSimulated`, which a parsed file leaves undefined, is modelled as false.
- **Other views.** `UmapPlot`, `ResultsVisualization` and `Header` render the results without computing anything the core relies on. Styling, icons and list keys are left out.
- **`parseInt` coverage.** It is modelled for unsigned decimal text after white space. Signs, radix prefixes and very long inputs never occur among the fixed estimates.
- **`toggleStep`'s string key.** It takes any string in the source. Here it takes one of the four step ids, the only values the view passes.
- Sequences.SortDesc: states sortedness and permutation, but not stability. The ranking's values are distinct draws in practice.
- **Literal sample files.** No particular CSV text is worked through; `ParseCsvText` covers every file written from plain cells.
- FeatureImportanceChart.BarWidths: a maximum of 0 makes the width NaN or ±Infinity, all written `None`. A negative importance is allowed, but the bounds are proved only for positive importances. The generated importances are always positive.
- **`Math.max` of an empty list.** It gives -Infinity, which is never used: an empty ranking draws no bar.
- FeatureImportanceChart.UpperAscii: upper-cases only a–z. `\b\w` without the `u` flag matches only ASCII word characters, so no other letter reaches it.
- **Console logging.** `console.log` in `loadModel` is left out; the method changes no state.
- **`hasResults`.** It is a parameter of `OpenSaveDialog`; the application derives it from `results !== null`.
- **Which steps run.** The selection never affects what the analysis produces, because `onStartAnalysis` ignores it, so the model does not link the two.

## Findings

| source | as written | input that shows it | evidently intended | confidence | as-written member | corrected member |
|---|---|---|---|---|---|---|
| src/components/ModelManagement.tsx:117-120 | the list shows `model.split('_')[0]` as the name and the rest as the date, but the tag is `<name>_<date>` and names may contain '_' | saving "soil_v2" lists the name "soil", with "v2_<date>" as the date | split the tag at its last '_', since the ISO date part never contains '_' | not executed; high | ModelManagement.UnderscoreNameListed | ModelManagement.SavedNameRoundTrip |
