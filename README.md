# kNN RSSI localizer: a verified model

This project models, in Dafny, the core of a k-nearest-neighbour indoor
localizer. The localizer estimates a 2-D position from a fingerprint of
radio-signal strengths (RSSI), one value per receiving edge.

The model covers four parts of the system:

- **Per-channel Kalman smoothing** (`kalman_filter.dfy`, module `KalmanFilter`).
  - `KalmanFilter1D` is a two-state filter: uninitialized, then tracking an estimate `x` with variance `P`.
  - A missing reading (NumPy's NaN) is `None` of a `Sample = Option<real>`.
  - `KalmanFilterLayer` creates one filter per column on its first `transform`. It feeds each column through its own filter in row order, and the filters keep their state between calls.
  - `Step`, `Run` and `Smooth` are value-level specifications. The two classes and their loops are proved against them.
- **Distance kernels** (`distances.dfy`, module `Distances`).
  - Rowwise and pairwise Manhattan and Euclidean distances.
  - The two name registries, with their aliases, and callable metrics.
- **The preprocessing pipeline** (`base_model.dfy`, module `BaseModels`).
  - `BaseModel` runs its layers in list order before `fit` and `predict`.
  - `Pipeline` is the value-level specification. It is generic in what a layer's `transform` does.
  - `BaseModel.ApplyPreprocessing` is proved against `Pipeline` instantiated with the Kalman layer.
- **The kNN localizer** (`knn_localizer.dfy`, module `Knn`).
  - `fit` stores the preprocessed training data.
  - `predict` computes the training-by-query distance matrix by the squared-norm expansion. For every query row it picks the k nearest training rows and writes the mean of their positions into a fresh M x 2 array.
  - The choice of the k nearest is specified relationally by `IsKNearest`: any k distinct indices no farther than every index left out, ties broken any way. `Nearest` is one such choice. Every property of the mean is proved for all valid choices.

Supporting files:

- `ndarray.dfy` holds the shared array types. A 2-D matrix carries its column count, so a matrix with no rows still has a width. An array of any other rank is `OtherRank`.
- `wrappers.dfy` holds `Option` and `Result`.

All arithmetic is over Dafny's exact `real`s. Each exception the model keeps is an error value of a `Result`:

- `ValueError` for a rank other than 2 in `transform`.
- `KeyError` for a column with no filter.
- `ValueError` for row counts that differ in a rowwise distance.
- `KeyError` for an unknown metric name.
- The matrix-product width error of `A @ B.T`.
- The `argpartition` bound error.

The other exceptions the code can raise are excluded by preconditions and listed under "Left out". These are the `ZeroDivisionError` of a gain with P + R = 0, the `TypeError` of predicting before `fit`, the `IndexError` of too few labels, and NumPy's broadcasting `ValueError`s.

In three places the model follows the code where one might expect other behaviour:

- One might expect k to be allowed to equal the number of training rows N, with every query then getting the mean of all training positions. In the code, `np.argpartition(d, k)` requires `k` to be strictly below the length of `d`. So for any non-empty query with `k >= N`, `_predict` fails on its first row. `PredictSpec` returns `KthOutOfBounds` there.
- One might expect the kNN model to take a metric. The code's `_dist` is always Euclidean and never calls `distances.py`. The model does the same.
- One might expect a dedicated "not fitted" error. The code has no such check. Predicting before fitting makes `_dist` evaluate `None ** 2`, and Python raises `TypeError` before NumPy is involved. `Predict` therefore requires a trained model.

## Model

| member | source | states |
|---|---|---|
| Distances.L1 | src/metrics/distances.py:61-62 | The Manhattan distance of two rows is non-negative and is zero exactly when the rows are equal. |
| Distances.SquaredL2 | src/metrics/distances.py:53-54 | The squared Euclidean distance (the radicand under `sqrt`) is non-negative and is zero exactly when the rows are equal. |
| Distances.L1Symmetric | src/metrics/distances.py:61-62 | The Manhattan distance does not depend on argument order. |
| Distances.SquaredL2Symmetric | src/metrics/distances.py:53-54 | The Euclidean distance does not depend on argument order. |
| Distances.RowwiseEuclidean | src/metrics/distances.py:49-54 | Fails with `ShapeMismatch` exactly when the row counts differ; otherwise gives N distances, entry i that of row i of X and row i of Y. Rows of another width are refused only when the row counts agree, as the row-count check comes first. |
| Distances.RowwiseManhattan | src/metrics/distances.py:57-62 | Fails with `ShapeMismatch` exactly when the row counts differ; otherwise gives N Manhattan distances, entry i that of row i of X and row i of Y. Rows of another width are refused only when the row counts agree. |
| Distances.PairwiseEuclidean | src/metrics/distances.py:69-72 | An N x M matrix whose entry (i, j) is the distance of row i of X and row j of Y; no row-count constraint. |
| Distances.PairwiseManhattan | src/metrics/distances.py:75-78 | An N x M matrix whose entry (i, j) is the Manhattan distance of row i of X and row j of Y; no row-count constraint. |
| Distances.RowwiseDistances | src/metrics/distances.py:4-21 | The metric defaults to "euclidean". A callable metric is applied as given, whatever the shapes. An unregistered name fails with `UnknownMetric`, whatever the shapes. A registered name yields the row-count check, then the chosen kernel's distances. |
| Distances.ErrorsPrecedeWidthCheck | src/metrics/distances.py:17-21 | Inputs whose widths differ still get the row-count `ShapeMismatch` and the `UnknownMetric` lookup failure. |
| Distances.PairwiseDistances | src/metrics/distances.py:24-42 | The metric defaults to "euclidean". A callable metric is applied as given, and an unregistered name fails with `UnknownMetric`, whatever the shapes. A registered name always succeeds with the N x M matrix of the chosen kernel. |
| Distances.AliasesResolveAlike | src/metrics/distances.py:85-97 | "l2" and "euclidean", and "l1" and "manhattan", give identical results in both registries. |
| Distances.PairwiseMatchesRowwise | src/metrics/distances.py:49-78 | Entry (i, j) of the pairwise matrix equals the single rowwise distance of `[X[i]]` and `[Y[j]]`, for both metrics and both spellings. |
| Distances.PairwiseSelfIsSymmetric | src/metrics/distances.py:69-78 | The pairwise matrix of a matrix with itself is symmetric with a zero diagonal, for both metrics. |
| KalmanFilter.Gain | src/preprocessing/layers/kalman_filter.py:88 | The gain lies in (0, 1] and equals 1 exactly when the measurement noise is zero. |
| KalmanFilter.CorrectedVariance | src/preprocessing/layers/kalman_filter.py:88-90 | The corrected variance is non-negative, positive while R > 0, and strictly below the predicted variance. |
| KalmanFilter.Step | src/preprocessing/layers/kalman_filter.py:71-92 | One update keeps the variance admissible (P > 0 when R > 0), never leaves tracking, returns missing only before the first reading, and otherwise returns the new estimate. |
| KalmanFilter.Run | src/preprocessing/layers/kalman_filter.py:56-57 | Feeding a stream returns one value per reading, a missing value only for a missing reading, and keeps the variance admissible. |
| KalmanFilter.FirstReadingStartsTracking | src/preprocessing/layers/kalman_filter.py:73-78 | Uninitialized: a missing reading is returned as missing and the filter stays uninitialized; a reading z is returned exactly and starts tracking at x = z, P = 10. |
| KalmanFilter.MissingReadingGrowsVariance | src/preprocessing/layers/kalman_filter.py:81-85 | Tracking: a missing reading leaves x unchanged, returns x, and grows P by exactly Q. |
| KalmanFilter.CorrectionIsConvex | src/preprocessing/layers/kalman_filter.py:81-92 | Tracking with a reading z: K = (P+Q)/(P+Q+R) lies in (0, 1] (below 1 when R > 0); x' = (1-K)x + Kz lies between x and z (strictly when R > 0); P' = (1-K)(P+Q) < P+Q; x' is returned. |
| KalmanFilter.NoiselessSensorReturnsReading | src/preprocessing/layers/kalman_filter.py:88-92 | With R = 0 a tracking filter returns every reading exactly and its variance drops to 0. |
| KalmanFilter.ReadingAtEstimateIsFixedPoint | src/preprocessing/layers/kalman_filter.py:88-92 | A reading equal to the current estimate returns that estimate. |
| KalmanFilter.RunStaysTracking | src/preprocessing/layers/kalman_filter.py:73-92 | Once tracking, no stream of readings makes a filter uninitialized again. |
| KalmanFilter.RunAppend | src/preprocessing/layers/kalman_filter.py:56-57 | Feeding a then b, the second from where the first left off, is feeding a + b. |
| KalmanFilter.RunOutputIsPrefixOutput | src/preprocessing/layers/kalman_filter.py:56-57 | Later readings never change earlier outputs. |
| KalmanFilter.ConstantStreamWithGap | src/preprocessing/layers/kalman_filter.py:71-92 | With Q = 0.04 and R = 4, the stream 10, NaN, 10, 10 returns 10 four times, and the gap only grows the variance from 10 to 10.04. |
| KalmanFilter.FreshBank | src/preprocessing/layers/kalman_filter.py:25-26 | `_create_filters(n)` yields n filters, all uninitialized. |
| KalmanFilter.FedBank | src/preprocessing/layers/kalman_filter.py:54-57 | After the first n columns are fed, filter c < n holds the state of running its column; every other filter is untouched. |
| KalmanFilter.SmoothedRows | src/preprocessing/layers/kalman_filter.py:51-57 | The output has the input's shape, and a cell is missing only where the input cell is. |
| KalmanFilter.Smooth | src/preprocessing/layers/kalman_filter.py:28-59 | A non-2-D input fails with `NotTwoDimensional` and leaves the filters alone. A 2-D input creates the filters from its width when there are none. It fails exactly when it has more columns than filters. On success it returns a matrix of the same shape that is complete when the input is. |
| KalmanFilter.SmoothCellIsPrefixRun | src/preprocessing/layers/kalman_filter.py:54-57 | Output cell (i, c) is what column c's filter returns after being fed rows 0..i of column c in order. |
| KalmanFilter.SmoothColumnsAreIndependent | src/preprocessing/layers/kalman_filter.py:54-57 | Two inputs that agree on column c give the same output column c and the same filter c afterwards. |
| KalmanFilter.RunFromTrackingNeverMisses | src/preprocessing/layers/kalman_filter.py:81-92 | A tracking filter returns a value for every reading, missing or not, and stays tracking. |
| KalmanFilter.SmoothFillsGapsOnceTracking | src/preprocessing/layers/kalman_filter.py:54-57 | Once every filter of a layer is tracking, `transform` of any 2-D input as wide as the filters succeeds with no missing cell. |
| KalmanFilter.SmoothStreamsAcrossCalls | src/preprocessing/layers/kalman_filter.py:48-57 | Transforming X1 and then X2 with the same layer leaves the same filters, and returns the same rows, as transforming X1 stacked on X2 at once. |
| KalmanFilter.KalmanFilter1D.constructor | src/preprocessing/layers/kalman_filter.py:65-69 | A new filter is uninitialized with the given Q and R (defaults 0.5 and 4.0). |
| KalmanFilter.KalmanFilter1D.Update | src/preprocessing/layers/kalman_filter.py:71-92 | The new fields and the returned value are exactly `Step` of the old state and the reading. |
| KalmanFilter.KalmanFilterLayer.constructor | src/preprocessing/layers/kalman_filter.py:18-22 | A new layer has the given Q and R (defaults 0.04 and 4.0) and no filters. |
| KalmanFilter.KalmanFilterLayer.CreateFilters | src/preprocessing/layers/kalman_filter.py:25-26 | n fresh, distinct, uninitialized filters carrying the layer's Q and R. |
| KalmanFilter.KalmanFilterLayer.EnsureFilters | src/preprocessing/layers/kalman_filter.py:48-49 | Filters are created, sized by this call's width, only when there are none; existing filters and their states are kept. |
| KalmanFilter.KalmanFilterLayer.Transform | src/preprocessing/layers/kalman_filter.py:28-59 | The filters' new states and the result are exactly `Smooth` of the old states and the input. |
| KalmanFilter.SmoothColumns | src/preprocessing/layers/kalman_filter.py:51-59 | Once the filters exist, the filters' new states and the result are `Smooth`'s. |
| KalmanFilter.FeedColumns | src/preprocessing/layers/kalman_filter.py:54-57 | Feeds min(width, filters) columns. Each fed column's filter ends in the state of running that column, and its output column holds what the filter returned. Unfed filters are untouched. |
| KalmanFilter.FeedColumn | src/preprocessing/layers/kalman_filter.py:56-57 | The filter ends in the state of running the column, and output cell i holds its i-th return value. Other output columns are unchanged. |
| BaseModels.Pipeline | src/models/base_model.py:19-22 | One resulting state per layer. |
| BaseModels.EmptyPipelineIsIdentity | src/models/base_model.py:19-22 | With no layers the input is returned unchanged. |
| BaseModels.SingleLayerPipeline | src/models/base_model.py:19-22 | With one layer the pipeline is that layer's `transform`. |
| BaseModels.PipelineOfConcat | src/models/base_model.py:19-22 | Running ls1 + ls2 is running ls1 and then ls2 on its output; ls2 never runs if ls1 fails. |
| BaseModels.RunFromIsPipeline | src/models/base_model.py:20-22 | The loop from position i leaves earlier layers alone and runs the rest as `Pipeline` does. |
| BaseModels.PipelineIsRun | src/models/base_model.py:20-22 | The loop of `_apply_preprocessing`, stated position by position as `RunFrom`, computes `Pipeline`. |
| BaseModels.KalmanTransform | src/models/base_model.py:21 | A Kalman layer keeps its Q and R and its admissibility; a successful result is well formed. |
| BaseModels.KalmanPipelineFillsGaps | src/models/base_model.py:19-22 | Once every layer's filters are tracking, as after a `fit` whose columns each held a reading, preprocessing any 2-D input of that width succeeds with no missing cell. |
| BaseModels.KalmanPipelineKeepsShape | src/models/base_model.py:19-22 | Kalman layers keep their parameters and admissibility. On success a 2-D input keeps its shape and stays complete if it was. A non-2-D input is rejected by the first layer. |
| BaseModels.KalmanPipelineStreamsAcrossCalls | src/models/base_model.py:19-30 | Preprocessing X1 and then X2 with the same layers (as `fit` then `predict` do) ends in the same layer states, and returns the same rows, as preprocessing X1 stacked on X2 in one call. |
| BaseModels.BaseModel.constructor | src/models/base_model.py:16-17 | The list of layers defaults to missing, and a missing list means no layers. |
| BaseModels.BaseModel.ApplyPreprocessing | src/models/base_model.py:19-22 | The layers' new states and the result are exactly `Pipeline` of their old states and the input. |
| BaseModels.BaseModel.Advance | src/models/base_model.py:20-21 | One loop iteration takes the remaining run from position i to position i + 1, or ends it on a failure. |
| BaseModels.BaseModel.TransformLayer | src/models/base_model.py:21 | `layer.transform(X)` changes only that layer, as `KalmanTransform` says. |
| Knn.RadicandIsSquaredL2 | src/models/kNN/kNN_localizer.py:41-45 | Over exact arithmetic, \|a\|² + \|b\|² - 2a·b is the squared Euclidean distance of a and b. |
| Knn.DistMatrixIsSquaredL2 | src/models/kNN/kNN_localizer.py:41-45 | Entry (i, j) of `_dist(A, B)` is the squared distance of `A[i]` and `B[j]`. |
| Knn.DistMatrix | src/models/kNN/kNN_localizer.py:41-45 | `_dist(A, B)`, whose entries are `Radicand` (`A_sq + B_sq - 2 * cross`), has one row per row of A and one column per row of B. |
| Knn.DistancesTo | src/models/kNN/kNN_localizer.py:73 | Each distance of a query to a training row is non-negative and zero exactly when the two rows are equal. |
| Knn.ColumnOfDistMatrix | src/models/kNN/kNN_localizer.py:73 | Column j of the distance matrix holds the distances to query row j alone. |
| Knn.Nearest | src/models/kNN/kNN_localizer.py:73 | The selection satisfies `IsKNearest`, the specification of `argpartition(d, k)[:k]`: k distinct training indices, and no chosen distance exceeds any unchosen one. |
| Knn.SingleNearestIsClosest | src/models/kNN/kNN_localizer.py:73 | With k = 1 the chosen index is no farther than any index. |
| Knn.LabelSumBounds | src/models/kNN/kNN_localizer.py:76 | n labels between lo and hi sum to between n·lo and n·hi. |
| Knn.MeanBounds | src/models/kNN/kNN_localizer.py:76 | Labels between lo and hi have their mean between lo and hi. |
| Knn.MeanBetweenExtremes | src/models/kNN/kNN_localizer.py:76 | Each coordinate of the mean lies between the smallest and the largest chosen label. |
| Knn.MeanOfNearest | src/models/kNN/kNN_localizer.py:73-76 | The prediction for one distance column is a 2-D position, made of `Mean` (`np.mean(nn_y, axis=0)`) in each coordinate. |
| Knn.RowPrediction | src/models/kNN/kNN_localizer.py:71-76 | The prediction for one query row is a 2-D position. |
| Knn.RowPredictionIsMeanOfNearest | src/models/kNN/kNN_localizer.py:73-76 | The prediction is the coordinate-wise mean of the labels of a valid k-nearest selection, and each coordinate lies between two chosen labels. |
| Knn.PredictionWithinChosenLabels | src/models/kNN/kNN_localizer.py:73-76 | For any valid k-nearest selection, each coordinate of the mean of its labels lies between two of the chosen labels. |
| Knn.OneNearestNeighbourOfExactMatch | src/models/kNN/kNN_localizer.py:73-76 | With k = 1 and a query equal to exactly one training row, every valid selection is that row, and the mean is its position. |
| Knn.OneNearestPredictsExactMatch | src/models/kNN/kNN_localizer.py:41-76 | With k = 1 a query equal to exactly one training row is predicted at that row's position. |
| Knn.PredictSpec | src/models/kNN/kNN_localizer.py:56-78 | Fails with a width mismatch exactly when the widths differ. Otherwise it fails with `KthOutOfBounds` exactly when there is a query row and k is not below the number of training rows. Otherwise it succeeds with M rows of 2 values. |
| Knn.MeansByColumn | src/models/kNN/kNN_localizer.py:66-76 | One 2-D position per query column. |
| Knn.PredictionIsPerRow | src/models/kNN/kNN_localizer.py:66-76 | Row j of a prediction is the prediction for query row j on its own. |
| Knn.PredictionRowsAreIndependent | src/models/kNN/kNN_localizer.py:66-76 | Two queries that share a row get the same prediction for it, whatever their other rows. |
| Knn.OneNearestReproducesTrainingLabels | src/models/kNN/kNN_localizer.py:56-78 | With k = 1, predicting distinct training fingerprints (more than one) returns their training positions. |
| Knn.FillMeans | src/models/kNN/kNN_localizer.py:66-78 | The loop over query rows either fails with `KthOutOfBounds` (exactly when there is a row and k is not below N) or returns a fresh M x 2 array holding `MeansByColumn`. |
| Knn.KnnLocalizer.constructor | src/models/kNN/kNN_localizer.py:12-25 | A new model holds k (default 5), its layers (none by default) and no training data. |
| Knn.KnnLocalizer.FitCore | src/models/kNN/kNN_localizer.py:48-54 | `_fit` stores X and y unchanged and returns the model itself. |
| Knn.KnnLocalizer.Preprocess | src/models/base_model.py:25 | The layers' new states and the result are `Pipeline`'s. The training data is untouched. A complete 2-D input stays complete and 2-D. |
| Knn.KnnLocalizer.Fit | src/models/base_model.py:24-26 | `y` defaults to missing. The layers advance as `Pipeline` says. On a layer error nothing is stored; otherwise the preprocessed X and the untouched y are stored and the model is returned. |
| Knn.KnnLocalizer.PredictCore | src/models/kNN/kNN_localizer.py:56-78 | Fails exactly when `PredictSpec` fails, with the same error. Otherwise returns a fresh array whose contents are `PredictSpec`'s matrix. |
| Knn.KnnLocalizer.Predict | src/models/base_model.py:28-30 | The layers advance from the state `fit` left them in, as `Pipeline` says. A layer error is returned. Otherwise the result is `PredictSpec` on the preprocessed query, and the training data is untouched. The raw query may miss readings that preprocessing fills. |

## Left out

- Distances.RowwiseEuclidean: returns the squared distance, without `np.sqrt`, because reals have no square root here. The root is monotone, non-negative and zero only at zero, so it changes no property stated above.
- Distances.PairwiseEuclidean: returns the squared distance, for the same reason.
- Knn.DistMatrix: returns the squared `_dist`, for the same reason. The root would not change which rows are nearest.
- Floating point is not modelled: all arithmetic is exact. This covers rounding, float32 storage, and the NaN `np.sqrt` gives when rounding makes the radicand of `_dist` slightly negative. `RadicandIsSquaredL2` shows that the exact radicand is never negative.
- Knn.KnnLocalizer.Predict: requires that no NaN survives preprocessing, in the training data or the query. NaN cells in the raw query are allowed when the layers fill them, and `KalmanPipelineFillsGaps` shows that tracking filters fill every one. A NaN that survives is one with no layers, or one that comes before a column's first reading. The source would pass such a NaN into `_dist` and `argpartition`, where the ordering of NaN is NumPy's.
- Knn.KnnLocalizer.PredictCore: requires k >= 1, a fitted model, complete data and at least as many 2-D labels as training rows. The source checks none of these. Without a fitted model Python raises `TypeError` on `None ** 2`. With too few labels NumPy raises `IndexError`. With k = 0 the result is the NaN mean of no labels.
- BaseModels.BaseModel.constructor: requires the layers to own disjoint objects, so the same `KalmanFilterLayer` cannot appear twice in the list. Python accepts that, and the two positions then share one set of filters, each call feeding them twice. Such aliasing is not modelled.
- Knn.KnnLocalizer.constructor: requires disjoint layers, for the same reason.
- The abstract `BaseLayer` interface and its no-op `fit` are not modelled. The Kalman layer is the only layer, so `BaseModel` holds Kalman layers. `Pipeline` is generic in the layer's `transform`.
- BaseModels.KalmanTransform: fails, without touching the layer, on states and arrays that the classes cannot produce: invalid noise parameters or a malformed array. This branch is not part of `transform`.
- KalmanFilter.KalmanFilter1D.constructor: requires Q > 0 and R >= 0, the range in which the filter is meaningful. The source accepts any numbers.
- KalmanFilter.KalmanFilterLayer.constructor: requires Q > 0 and R >= 0, as the filters it creates do.
- NumPy broadcasting is not modelled. A registered distance kernel that reaches its arithmetic requires rows of one width (`Conformable`). The lookup, the callable metric and the row-count check are modelled at any width. Arrays of rank other than 2 are modelled only as far as `transform` rejecting them. `np.zeros_like` on an integer-typed input, which would truncate the smoothed values, is not modelled.
- Calls of a callable metric are modelled as the given function's result. What the function does is not modelled.
- `argpartition`'s own tie order is not modelled. Every property of a prediction holds for every valid k-nearest selection. `Nearest` fixes one (the lowest index among equal distances) so that `predict` is a function.
- `fit(X, y=None)` is modelled with `y` as an `Option`. Storing `None` is allowed, and `Predict` then requires labels.
- Data loading, the data containers, partitions and the reporting script are not part of this model.
