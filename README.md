# clust4j clusterer base classes in Dafny

This project models the two base classes that carry the sequential logic of the
clust4j clustering library. It proves what their operations compute.

**`KCentroidClusterer`** is `AbstractKCentroidClusterer`, in `kcentroid.dfy`, module `KCentroid`.
- Initial centroids:
  - Record indices `0..m-1` are shuffled with the model's random state. The shuffle is a caller-supplied permutation.
  - The first `k` indices are distinct and in range.
  - Those rows are copied, in order, into the centroid list.
- `predict`:
  - checks the record's dimension first;
  - then scans left to right for the nearest centroid, starting from the `Double.MAX_VALUE` sentinel with a strict `<`.
- `getCentroids` behaves as a defensive copy.
- `getCostOfSystem`:
  - sums an abstract per-cluster cost over the cluster map, in ascending label order;
  - the sum does not depend on that order.
- `BaseKCentroidPlanner` holds the defaults. Its setters are chainable.

**`Clusterer`** is `AbstractClusterer`, in `clusterer.dfy`, module `Clustering`.
- The constructors:
  - settings come from a planner or from a calling model;
  - the parallel flag is the requested value and the allowed value;
  - the kernel, normalization and all-equal warnings come in a fixed order.
- `initData`:
  - copies the matrix cell by cell;
  - fails exactly when a cell is NaN;
  - collects the distinct numbers;
  - raises the all-equal flag when there is exactly one.
- The warnings collector is an append-only list. It keeps a flag that is true exactly when the list is non-empty.
- The fit-summary line selection shows the top lines, one break marker, then the bottom lines.

How Java constructs are modelled:
- **Numbers.** Doubles are `real`. A matrix cell is `NaN | Val(x)`. The largest double, `Double.MAX_VALUE`, is a parameter of `Predict`.
- **Parameters instead of code.** Several things are function-typed parameters:
  - the distance metric;
  - the abstract `getCost`;
  - `Collections.shuffle` with the model's seed;
  - `normalizer.operate`;
  - the rendering of a double as text.
- **State.** Centroids are fresh `array<real>` objects, so the defensive copy has something to prove. The matrix held by the root clusterer is a value, `seq<seq<Cell>>`. `initData` fills a local two-dimensional array.
- **Exceptions** become a `Result`. A `DimensionMismatchException` becomes `Failure(DimensionMismatch(provided, expected))`. A `NaNException` becomes `Failure(NaNException(message))`.
- **The data constructor** can throw, so it is the static factory `Clusterer.FromData`, which returns a `Result`. The constructor `Configure` models the shared field setup.

## Model

| member | source | states |
|---|---|---|
| KCentroid.Range | src/com/clust4j/algo/AbstractKCentroidClusterer.java:147-149 | the record index list holds i at position i for every i < m, so every index below m occurs exactly once and no other value occurs |
| KCentroid.ShuffledPrefixDistinct | src/com/clust4j/algo/AbstractKCentroidClusterer.java:147-156 | the first k entries of any permutation of 0..m-1 (k <= m) are in [0, m) and pairwise distinct |
| KCentroid.MinKey | src/com/clust4j/algo/AbstractKCentroidClusterer.java:116 | the key a TreeMap entry walk visits first: a member of the key set no larger than any other key |
| KCentroid.CostOverRemove | src/com/clust4j/algo/AbstractKCentroidClusterer.java:112-123 | the system cost summed in ascending key order equals any one cluster's cost plus the sum over the remaining clusters, so the order of the walk does not matter |
| KCentroid.EmptyCostOver | src/com/clust4j/algo/AbstractKCentroidClusterer.java:112-123 | the cost of an empty cluster map is 0 |
| KCentroid.BaseKCentroidPlanner.constructor | src/com/clust4j/algo/AbstractKCentroidClusterer.java:48-57 | a new planner keeps its k and carries the class defaults maxIter 100 and minChange 0.005, Euclidean distance and no scaling |
| KCentroid.BaseKCentroidPlanner.SetDist | src/com/clust4j/algo/AbstractKCentroidClusterer.java:69-73 | sets the distance, changes no other field, returns the same planner |
| KCentroid.BaseKCentroidPlanner.SetMaxIter | src/com/clust4j/algo/AbstractKCentroidClusterer.java:75-78 | sets the iteration budget, changes no other field, returns the same planner |
| KCentroid.BaseKCentroidPlanner.SetMinChangeStoppingCriteria | src/com/clust4j/algo/AbstractKCentroidClusterer.java:80-83 | sets the minimum change, changes no other field, returns the same planner |
| KCentroid.BaseKCentroidPlanner.SetScale | src/com/clust4j/algo/AbstractKCentroidClusterer.java:85-89 | sets the scaling flag, changes no other field, returns the same planner |
| KCentroid.KCentroidClusterer.constructor | src/com/clust4j/algo/AbstractKCentroidClusterer.java:20-46 | copies maxIter, minChange and k from the planner; m is the row count; untrained, no labels, no cluster map; the initial indices are the shuffled prefix of length k, distinct and in range; centroid i is a fresh array equal to data row index i |
| KCentroid.KCentroidClusterer.GetRow | src/com/clust4j/algo/AbstractKCentroidClusterer.java:154 | a data row is returned as a fresh array equal to it |
| KCentroid.KCentroidClusterer.InitCentroids | src/com/clust4j/algo/AbstractKCentroidClusterer.java:142-160 | returns exactly the first k entries of the shuffled 0..m-1 (distinct, in range); appends k fresh rows, those indices' data rows in order, after the existing centroids, which it preserves |
| KCentroid.KCentroidClusterer.Predict | src/com/clust4j/algo/AbstractKCentroidClusterer.java:171-190 | fails iff the record length differs from the column count, with that length and the column count; otherwise, when some distance is below the sentinel, a label < k whose distance is minimal and strictly smaller than every earlier label's; when none is, label 0; changes nothing |
| KCentroid.KCentroidClusterer.GetCentroids | src/com/clust4j/algo/AbstractKCentroidClusterer.java:96-106 | as many arrays as centroids, each fresh, pairwise distinct and equal element for element to its centroid |
| KCentroid.KCentroidClusterer.GetCostOfSystem | src/com/clust4j/algo/AbstractKCentroidClusterer.java:112-123 | the sum over every cluster key of getCost(members, centroid), in ascending key order; changes no field, so `cost` and totalCost keep their value |
| Clustering.SingularCorner | src/main/java/com/clust4j/algo/AbstractClusterer.java:167-168 | when the all-equal flag is raised the matrix has a cell at row 0, column 0, and the matrix's one distinct number is that cell's |
| Clustering.NoCellsNoEntries | src/main/java/com/clust4j/algo/AbstractClusterer.java:188-212 | a matrix without cells has no distinct numbers, so ingesting it leaves the all-equal flag false |
| Clustering.CopyEqualsInput | src/main/java/com/clust4j/algo/AbstractClusterer.java:187-207 | an array filled cell for cell from a NaN-free matrix of its shape reads back as that matrix |
| Clustering.FitSummary | src/main/java/com/clust4j/algo/AbstractClusterer.java:372-395 | at most 11 lines: all lines unchanged; more: the first 6, one break marker, then the lines whose index exceeds length - 5 (11 lines shown in all) |
| Clustering.FitSummaryHidesFifthLastLine | src/main/java/com/clust4j/algo/AbstractClusterer.java:372-395 | for a 12-line summary the code shows only 4 lines after the break and hides line 7, the fifth from last |
| Clustering.IntendedFitSummary | src/main/java/com/clust4j/algo/AbstractClusterer.java:370-372 | long summaries: the first top lines, one break, the last bottom lines (6 + 1 + 5); short ones unchanged |
| Clustering.IntendedFitSummaryRestoresHiddenLine | src/main/java/com/clust4j/algo/AbstractClusterer.java:372-395 | the intended selection is the code's selection with line length - 5 put back right after the break |
| Clustering.IntendedFitSummaryKeepsBothEnds | src/main/java/com/clust4j/algo/AbstractClusterer.java:370-372 | every one of the first 6 and the last 5 lines of a long summary is shown |
| Clustering.Clusterer.Configure | src/main/java/com/clust4j/algo/AbstractClusterer.java:142-158 | metric, verbosity, seed, scaling flag and normalizer come from the planner; parallel is requested and allowed; refusing parallelism only logs, so no warning exists yet |
| Clustering.Clusterer.FromCaller | src/main/java/com/clust4j/algo/AbstractClusterer.java:118-138 | without a planner the metric, seed and normalizer come from the caller and verbosity is false; with one they come from it; data, scaling, parallel and all-equal flags always come from the caller |
| Clustering.Clusterer.FromData | src/main/java/com/clust4j/algo/AbstractClusterer.java:140-181 | fails iff the matrix is ingested and holds a NaN; otherwise the planner's settings, the parallel rule, the data (as is, normalized, or copied), the all-equal flag iff ingested with exactly one distinct number, and the warnings: kernel, then normalization (ingested and unscaled only), then all-equal, each only under its condition |
| Clustering.Clusterer.InitData | src/main/java/com/clust4j/algo/AbstractClusterer.java:185-218 | fails iff some cell is NaN (reporting a NaN always rethrows), then changes nothing; otherwise returns the input (normalized when the model normalizes), appends the normalization warning iff not normalizing, sets the all-equal flag iff exactly one distinct number occurs and never clears it |
| Clustering.Clusterer.CopyRow | src/main/java/com/clust4j/algo/AbstractClusterer.java:195-206 | one row of the copy loop: copies the row and adds its numbers to the distinct set, or reports a NaN; other rows of the copy are left alone |
| Clustering.Clusterer.Warn | src/main/java/com/clust4j/algo/AbstractClusterer.java:332-336 | appends the message after every earlier warning and sets the flag, so the flag holds iff the list is non-empty |
| Clustering.Clusterer.WarningsNullIffNone | src/main/java/com/clust4j/algo/AbstractClusterer.java:317-319 | getWarnings is null exactly when hasWarnings is false |
| Clustering.Clusterer.SetSeparabilityMetric | src/main/java/com/clust4j/algo/AbstractClusterer.java:415-417 | sets the metric and nothing else |
| Clustering.Clusterer.LogFitSummary | src/main/java/com/clust4j/algo/AbstractClusterer.java:362-396 | the lines logged, in order: the two heading lines "--" and "Model Fit Summary:", then exactly FitSummary of the table's lines, the break marker included |

The plain getters have no contract beyond their bodies, so they have no rows:
- `DidConverge`, `GetMinChange`, `GetMaxIter`, `GetPredictedLabels`, `IsTrained`, `ItersElapsed` and `TotalCost` in `KCentroidClusterer`;
- `GetDist` and `GetScale` in the planner;
- `GetData`, `GetSeparabilityMetric`, `GetSeed`, `GetVerbose`, `HasWarnings` and `GetWarnings` in `Clusterer`.

## Left out

**Logging and formatting**
- Logging output and verbosity: `Error`, `Info`, `Trace` and `Debug` do nothing in the model. They have no modifies clause, so they cannot change any field, the warnings included; they carry no contract of their own.
  - The info message about the minimum core count leaves out the count, because it is global state.
  - `LogFitSummary` returns the logged lines instead of writing them. It is static because it reads no field of the clusterer.
- `TableFormatter`, the `ModelSummary` objects and `logModelSummary`: text formatting. `LogFitSummary` takes the formatted lines and the break marker as inputs. `logModelSummary` logs every line unchanged.
- `toString`, `sayBye` and `getName`: formatting and timing. The model's name is a parameter of `FromData`.

**Identity and global state**
- UUID model keys, `equals`, `hashCode` and serialisation: identity and I/O.
- `GlobalState`: `PARALLELISM_ALLOWED` is a boolean parameter, and kernel detection is a flag of `Metric`.

**Foreign code, passed as parameters**
- `Collections.shuffle` with `java.util.Random`: the shuffle is a parameter, required to return a permutation of `0..m-1`. Java's random generator is not modelled.
- The distance metrics, `getCost` and `normalizer.operate`: code in other classes. They are function parameters. The normalizer is treated as a whole-matrix function, not as an in-place update.

**Numbers**
- Floating-point detail:
  - cells are reals or NaN;
  - `Double.MAX_VALUE` is the `maxValue` parameter of `Predict`;
  - `HashSet<Double>` equality quirks for ±0.0 are ignored;
  - rounding in the summed system cost is not modelled (real addition is used).
- `fit()`, `assignClustersAndLabels` and `getModelFitSummaryHeaders` are abstract in the modelled code.
  - No convergence loop is invented.
  - `converged`, `iter`, `labels`, `cost` and the cluster map only take their initial values and are read by the getters.

**Preconditions**
- `KCentroid.KCentroidClusterer.constructor`: requires `0 <= k <= m`.
  - The check of `k` happens in `AbstractPartitionalClusterer`, which is not part of this model.
  - A `k` above `m` makes the Java code fail with an index error inside the loop.
- `KCentroid.KCentroidClusterer.GetCostOfSystem`: requires a cluster map whose keys are labels below `k`. Java throws a `NullPointerException` before a fit, or an index error on another key; those throws are not modelled.
- The empty-matrix rejection by the matrix library's own constructor is not part of this model. `FromData` accepts any rectangular matrix, including one without rows.

**Aliasing and types**
- `Clustering.Clusterer.GetWarnings`: returns the list's value, not the live internal list. Aliasing through the returned collection is not modelled.
- `Clustering.Clusterer.FromCaller`: shares the caller's matrix as a value, so reference sharing of `data` is not visible.
- The `volatile` on `hasWarnings`: concurrency; the model is sequential.
- The two core files come from different versions of the library and use different planner types. `KCentroidClusterer` takes the k-centroid planner. `Clusterer` takes a `Params` value with the fields the root constructor reads. The two are not joined into one class hierarchy.
- `Clustering.Clusterer.CopyRow`: the inner loop of `initData` is a static method of its own. It is the same loop, split out to keep the proof small.

**Context files**
- `HierarchicalAgglomerativeParameters` and the `BufferedMatrixReader` tests: they are setter plumbing and file I/O over classes that are not part of this model.

## Findings

| source | as written | input that shows it | evidently intended | confidence | as-written member | corrected member |
|---|---|---|---|---|---|---|
| src/main/java/com/clust4j/algo/AbstractClusterer.java:372-395 | `bottom = top - 1 = 5`, but the loop logs only the lines with index `> length - bottom`. That is 4 bottom lines, and line `length - 5` is replaced by nothing. | a 12-line summary: lines 0-5, break, lines 8-11 are logged; line 7 is never shown | the comment asks for the top few and the bottom few with an extra top line for the header. So the last `bottom` = 5 lines should be shown: index `>= length - bottom` | medium, not executed | Clustering.FitSummaryHidesFifthLastLine | Clustering.IntendedFitSummary |

`Clustering.Clusterer.LogFitSummary` models the loop as written. After the two heading lines, its output is proved equal to `Clustering.FitSummary`. A second reading is possible: that the cap of 11 lines, set by the `> top + bottom` test, is meant to hold, with the break marker taking one of the bottom slots. The comment and the name `bottom` favour five bottom lines, so the row keeps medium confidence. `Clustering.IntendedFitSummaryRestoresHiddenLine` shows that the corrected selection differs from the code's only by the hidden line.
