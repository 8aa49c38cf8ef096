# Face-model fitters, modelled in Dafny

This project models the fitting layer of a face-model fitting program. A fitter adjusts the
parameters of a morphable face until a rendering of it matches a target image. Those parameters are:

- the shape coefficients;
- one ambient-light intensity;
- a three-component directed-light vector.

The fitter never renders anything itself. It sends *render requests* (a face plus a label) to a
renderer. Each reply comes back later with the same label. The fitter prices the rendered
observation against the target and decides what to request next.

The model has five modules: four model one source file each, and `Wrappers` (`wrappers.dfy`) holds the `Option` type they share.

- `ModelFitting` (`model_fitter.dfy`) is the shared base. It contains:
  - the flat parameter vector of a face, laid out as coefficients, then ambient light, then directed light;
  - the correction of the initial face, whose coefficients are padded with zeros or truncated to the requested count;
  - the labels;
  - the cost of an observation: the mean squared channel-0 deviation over the drawn pixels, where the last channel flags a drawn pixel;
  - the class `ModelFitter`. It records every request it sends in an `outbox` and every face it hands to the completion callback in `delivered`.
- `BatchGradientDescent` (`bgd_fitter.dfy`) models the finite-difference gradient-descent fitter.
  - Its cursor walks from the sentinel -5 over the ambient light (-4), the directed light (-3..-1) and the coefficients (0..n-1).
  - Each coordinate takes three replies: `start`, `right_derivative` and `left_derivative`.
  - The last `start` of a pass takes one gradient step and sends `start_iteration`.
  - `Reply` is the transition of one reply as a function of the state.
  - The class `BGDFitter` performs the same transition in place on its three derivative arrays.
  - `Run` answers every request with a fixed cost function of the face. The lemmas about `Run` show three things:
    - a pass leaves the symmetric finite difference of every coordinate behind;
    - a pass takes exactly `3 * (n + 4) + 1` replies;
    - a run finishes after `max(0, maxLoops - 1)` gradient steps.
- `GibbsSampling` (`gibbs_sampler_fitter.dfy`) models the coordinate-wise grid search.
  - For one entry of the parameter vector it sends one request per value of an odd grid over [-4, 4].
  - Replies fill an error table, in any order.
  - Once the table is full it commits a value: the first minimum while the loop counter is below the determined loops, a weighted random pick afterwards.
  - It then asks for a `pre` render, which moves it on to the next entry.
  - `Reply` is the transition as a function. The class `GibbsSamplerFitter` performs it in place on its parameter array.
- `Images` (`image.dfy`) models the image helper: a flat row-major buffer with a height and a width, its matrix view, and the row and column crops and splits.

Modelling choices:

- **The renderer is an outbox.** Requests are appended to `ModelFitter.outbox`. A reply arrives as a call of `ReceiveImage` with the observation and the label.
- **Outcomes.** One reply either sends requests (`Emit`), finishes with a face (`Finish`), or raises (`Fault`). A fault leaves the state as it was.
- **Labels.** The source's string labels (`'init'`, `'pre'`, `'start'`, `'start_iteration'`, `'right_derivative'`, `'left_derivative'`), `None` and integer grid indices become the constructors of `Label`.
- **Randomness and `exp`.** The Gibbs fitter's uniform draw (`rand()`) and `exp` are parameters. `exp` is only assumed to be positive.

## Model

| member | source | states |
|---|---|---|
| ModelFitting.AsArray | src/fitter/GibbsSamplerFitter.py:30 | the flat vector has one entry per coefficient, one for the ambient light and one per directed component, with the ambient light right after the coefficients |
| ModelFitting.FromArray | src/fitter/GibbsSamplerFitter.py:46-48 | a flat vector of at least n + 4 entries becomes a face with n coefficients, one ambient value and three directed components, and flattening that face gives the vector back |
| ModelFitting.FromArrayAsArray | src/fitter/GibbsSamplerFitter.py:29-30 | rebuilding a face from its flat vector gives the same face |
| ModelFitting.AsArrayLayout | src/fitter/BGDFitter.py:59-64 | the flat vector holds the coefficients first, the ambient light at index n and the directed light after it |
| ModelFitting.ParameterCountIsArrayLength | src/fitter/ModelFitter.py:20-22 | the flat vector of a face with n coefficients has n + 1 + 3 entries, the `_dimensions` count |
| ModelFitting.DefaultFace | src/fitter/ModelFitter.py:26-31 | the default face has n zero coefficients, no directed light and ambient light 0.5 |
| ModelFitting.PadOrTruncate | src/fitter/ModelFitter.py:33-36 | the corrected coefficients have exactly n entries, keep the first min(len, n) given ones, are 0 after them, and are unchanged when the length is already right |
| ModelFitting.CorrectCoefficients | src/fitter/ModelFitter.py:33-36 | the copying loop produces exactly the padded-or-truncated coefficients |
| ModelFitting.InitialFace | src/fitter/ModelFitter.py:25-41 | the initial face is the given face or the default, has n coefficients, keeps its lights, and is unchanged when its coefficient count is already n |
| ModelFitting.DrawnCountPositive | src/fitter/ModelFitter.py:76 | the number of drawn pixels is positive exactly when some pixel is drawn |
| ModelFitting.SquaredErrorBounds | src/fitter/ModelFitter.py:79-80 | the summed squared deviation is never negative and is 0 when every drawn pixel matches the target |
| ModelFitting.Deviation | src/fitter/ModelFitter.py:74-80 | the cost exists exactly when some pixel is drawn, is never negative, and is 0 when every drawn pixel's channel 0 equals the target |
| ModelFitting.Cost | src/fitter/ModelFitter.py:74-80 | the cost of an observation with a drawn pixel is never negative |
| ModelFitting.DeviationReadsDrawnChannelZero | src/fitter/ModelFitter.py:76-79 | the pixel count and the squared error depend only on which pixels are drawn and on their channel 0 |
| ModelFitting.DeviationCongruent | src/fitter/ModelFitter.py:76-79 | two observations with the same drawn pixels and the same channel 0 on them have the same cost |
| ModelFitting.ModelFitter.constructor | src/fitter/ModelFitter.py:11-41 | the base fitter keeps the target, the coefficient count, the parameter count n + 4 and the corrected initial face, and it has sent nothing yet |
| ModelFitting.ModelFitter.RequestFace | src/fitter/ModelFitter.py:58-65 | a request appends exactly the face and its label to the outbox and delivers nothing |
| ModelFitting.ModelFitter.Finish | src/fitter/ModelFitter.py:50-56 | finishing hands the face to the callback when there is one, and otherwise does nothing |
| BatchGradientDescent.Slot | src/fitter/BGDFitter.py:73 | a coordinate from -4 to n-1 names an entry of the n + 4 derivatives, with negative coordinates counting from the end |
| BatchGradientDescent.DerivativeFace | src/fitter/BGDFitter.py:102-119 | the perturbed face moves a coefficient by dx, or the ambient light or one directed component by dx / 2, and leaves every other value as it was |
| BatchGradientDescent.PerturbsOneEntry | src/fitter/BGDFitter.py:102-119 | in the flat vector the perturbed face differs from the base face in exactly the entry of the coordinate, when dx is not 0 |
| BatchGradientDescent.DifferenceQuotient | src/fitter/BGDFitter.py:121-122 | the finite difference times dx is the rise y1 - y0, it is 0 for equal costs and changes sign when the two costs are swapped |
| BatchGradientDescent.Update | src/fitter/BGDFitter.py:59-67 | the gradient step keeps the face's shape |
| BatchGradientDescent.UpdateWithZeroGradient | src/fitter/BGDFitter.py:59-67 | with all derivatives 0 the gradient step leaves the face unchanged |
| BatchGradientDescent.UpdateDescends | src/fitter/BGDFitter.py:59-67 | with a positive step each coefficient, the ambient light and each directed component move against the sign of their derivative |
| BatchGradientDescent.NewIteration | src/fitter/BGDFitter.py:56-69 | a new iteration counts the loop, resets the cursor to -5, applies the gradient step to the face and sends it as `start_iteration` |
| BatchGradientDescent.Begin | src/fitter/BGDFitter.py:30-39 | start gives the face with ambient light 1 and no directed light, three zero arrays of n + 4 entries and one `start_iteration` request for that unchanged face |
| BatchGradientDescent.Derive | src/fitter/BGDFitter.py:71-100 | a derivative reply keeps the face, the loop and the cursor, sends at most one request, raises exactly for an unlabelled or integer-labelled reply, and leaves the whole state, accumulators included, unchanged when it raises or ignores an `init` or `pre` reply |
| BatchGradientDescent.Reply | src/fitter/BGDFitter.py:41-54 | every reply keeps the state well formed, sends at most one request, and asks for right and left renders only while the cursor is on a coordinate |
| BatchGradientDescent.StartAdvancesCursor | src/fitter/BGDFitter.py:48-54 | a `start` reply before the last coordinate moves the cursor on by one, stores the cost in its slot and asks for the +dx render |
| BatchGradientDescent.LastStartBeginsIteration | src/fitter/BGDFitter.py:48-50 | the `start` reply at the last coordinate begins the next iteration |
| BatchGradientDescent.UnpricedIgnoresCost | src/fitter/BGDFitter.py:41-50 | the final `start_iteration` reply, the last `start` reply of a pass and the replies with other labels have the same effect whatever their cost, since the source never prices them |
| BatchGradientDescent.RightReply | src/fitter/BGDFitter.py:84-90 | a right reply stores the forward difference from the centre cost in the coordinate's slot and asks for the -dx render |
| BatchGradientDescent.LeftReply | src/fitter/BGDFitter.py:91-98 | a left reply stores the backward difference, replaces the centre cost by the mean of both differences and asks for the base face |
| BatchGradientDescent.ReplyFaults | src/fitter/BGDFitter.py:41-100 | a reply raises exactly when it is unlabelled or carries an integer; a reply that raises, and an `init` or `pre` reply, leaves the state as it was, and the ignored ones send nothing |
| BatchGradientDescent.FinishesAtLoopBound | src/fitter/BGDFitter.py:42-47 | a `start_iteration` reply at the loop bound finishes with the current face |
| BatchGradientDescent.CoordinateCycle | src/fitter/BGDFitter.py:71-100 | the three replies of one coordinate store the mean of the forward and backward differences in its slot and ask for the base face again |
| BatchGradientDescent.Pass | src/fitter/BGDFitter.py:41-100 | the rest of a pass takes 3 replies per coordinate plus one, leaves every later coordinate's symmetric difference in place and ends with the gradient step from those derivatives |
| BatchGradientDescent.Finishes | src/fitter/BGDFitter.py:41-69 | from the start of a pass with loop counter L, the run finishes after max(0, maxLoops - L) full passes plus one reply |
| BatchGradientDescent.GradientSteps | src/fitter/BGDFitter.py:30-69 | from `start` a run finishes after max(0, maxLoops - 1) gradient steps, with the loop counter at max(1, maxLoops) |
| BatchGradientDescent.BGDFitter.constructor | src/fitter/BGDFitter.py:10-28 | the fitter starts with cursor -5, loop 0, its settings and an empty base fitter |
| BatchGradientDescent.BGDFitter.Start | src/fitter/BGDFitter.py:30-39 | start sets the state to `Begin` and sends its request |
| BatchGradientDescent.BGDFitter.NextIteration | src/fitter/BGDFitter.py:56-69 | the in-place iteration step sets the state to `NewIteration` of the old state and sends its request |
| BatchGradientDescent.BGDFitter.ReceiveImage | src/fitter/BGDFitter.py:41-54 | a reply is priced only when a derivative is computed from it (an unpriced one may have no drawn pixel) and moves the state to `Reply`, sending its requests and delivering the face when it finishes |
| BatchGradientDescent.BGDFitter.Respond | src/fitter/BGDFitter.py:41-54 | the branch order of the reply handler, given the cost, reaches the state and outcome of `Reply` |
| BatchGradientDescent.BGDFitter.GetDerivative | src/fitter/BGDFitter.py:71-100 | the in-place derivative step updates the arrays exactly as `Derive` does |
| GibbsSampling.Linspace | src/fitter/GibbsSamplerFitter.py:38-41 | the grid has m values, starting at -4 and ending at 4 when m > 1 |
| GibbsSampling.Grid | src/fitter/GibbsSamplerFitter.py:38-41 | an entry with s steps gets s + 1 values when s is even and s + 2 when s is odd |
| GibbsSampling.LinspaceEvenlySpaced | src/fitter/GibbsSamplerFitter.py:38-41 | neighbouring grid values are 8 / (m - 1) apart, so the grid increases |
| GibbsSampling.LinspaceSymmetric | src/fitter/GibbsSamplerFitter.py:38-41 | the grid is symmetric about 0, and an odd grid has 0 in its middle |
| GibbsSampling.FiveValueGrid | src/fitter/GibbsSamplerFitter.py:38-41 | three or four steps give the grid -4, -2, 0, 2, 4 |
| GibbsSampling.Candidates | src/fitter/GibbsSamplerFitter.py:44-48 | one request per grid value, the k-th labelled k |
| GibbsSampling.CandidateDiffersAtOneEntry | src/fitter/GibbsSamplerFitter.py:44-48 | candidate k is the current parameter vector with only the cursor's entry set to the k-th grid value |
| GibbsSampling.BeginCoordinate | src/fitter/GibbsSamplerFitter.py:35-48 | moving to entry i sets the cursor to i, takes its grid, empties the error table, keeps the parameters, face and loop, and sends the candidates |
| GibbsSampling.Begin | src/fitter/GibbsSamplerFitter.py:26-33 | start resets the loop, takes the initial face and its flat vector, and sends `init` followed by the candidates of entry 0 |
| GibbsSampling.BeginFromAnyTable | src/fitter/GibbsSamplerFitter.py:26-33 | start does not depend on the cursor, grid or table left from an earlier run |
| GibbsSampling.ListIndex | src/fitter/GibbsSamplerFitter.py:63 | a list index is valid exactly from -m to m - 1, and a negative one counts from the end |
| GibbsSampling.Fill | src/fitter/GibbsSamplerFitter.py:63 | a reply's cost goes into the slot its index names, every other slot is kept, and an index outside the table raises |
| GibbsSampling.MaxOf | src/fitter/GibbsSamplerFitter.py:69 | the largest error is an error of the table and bounds every error |
| GibbsSampling.Normaliser | src/fitter/GibbsSamplerFitter.py:71 | the normaliser X is positive |
| GibbsSampling.Weights | src/fitter/GibbsSamplerFitter.py:71-76 | the weights are undefined (NaN) exactly when the largest error is 0, and are otherwise one positive weight per error |
| GibbsSampling.CumulativePick | src/fitter/GibbsSamplerFitter.py:73-84 | the pick is the first index whose running weight total reaches the draw, or the last index when none does |
| GibbsSampling.Sample | src/fitter/GibbsSamplerFitter.py:70-84 | the sampled index is a valid index, and it is the last one when every weight is NaN |
| GibbsSampling.SampleIndex | src/fitter/GibbsSamplerFitter.py:71-84 | the subtracting loop with its -1 marker picks exactly the index `Sample` defines |
| GibbsSampling.FirstArgmin | src/fitter/GibbsSamplerFitter.py:86 | argmin gives an index whose error is at most every error and strictly below every earlier one |
| GibbsSampling.Choose | src/fitter/GibbsSamplerFitter.py:70-86 | the committed index is a valid grid index |
| GibbsSampling.DeterminedLoopsTakeArgmin | src/fitter/GibbsSamplerFitter.py:85-86 | below the determined loops, the committed value's error is minimal and earlier entries are strictly worse |
| GibbsSampling.Commit | src/fitter/GibbsSamplerFitter.py:88-104 | the commit sets only the cursor's entry to the chosen value and rebuilds the face; at the last entry of the last loop it sends an unlabelled request, at the last entry of another loop it resets the cursor to 0 and counts the loop, and otherwise it sends `pre` |
| GibbsSampling.Reply | src/fitter/GibbsSamplerFitter.py:50-104 | a reply raises exactly for `pre` past the last entry, for an integer outside the table, or for a BGD string label, and then leaves the state unchanged |
| GibbsSampling.NextCoordinate | src/fitter/GibbsSamplerFitter.py:53-55 | `pre` raises exactly past the last entry and otherwise keeps the state well formed |
| GibbsSampling.Record | src/fitter/GibbsSamplerFitter.py:63-104 | an integer reply raises exactly when its index is outside the table, and then leaves the state as it was |
| GibbsSampling.InitIgnored | src/fitter/GibbsSamplerFitter.py:51-52 | an `init` reply changes nothing and sends nothing |
| GibbsSampling.PreAdvances | src/fitter/GibbsSamplerFitter.py:53-55 | a `pre` reply before the last entry starts the next entry with the parameters and loop kept |
| GibbsSampling.PartialFillWaits | src/fitter/GibbsSamplerFitter.py:63-66 | a reply that leaves a slot empty only records its cost |
| GibbsSampling.ArrivalOrderIrrelevant | src/fitter/GibbsSamplerFitter.py:63-89 | two replies for different empty slots lead to the same state and outcome in either order, including the commit when the second one fills the table |
| GibbsSampling.LastFillCommits | src/fitter/GibbsSamplerFitter.py:63-89 | the reply that fills the last empty slot commits the chosen value at the cursor's entry |
| GibbsSampling.WrapSkipsFirstEntry | src/fitter/GibbsSamplerFitter.py:98-102 | after the wrap to cursor 0 the next `pre` starts entry 1, so entry 0 is searched only in the first loop |
| GibbsSampling.FinalReplyFinishes | src/fitter/GibbsSamplerFitter.py:94-97 | at the last entry of the last loop the unlabelled request's reply finishes with the committed face |
| GibbsSampling.GibbsSamplerFitter.constructor | src/fitter/GibbsSamplerFitter.py:9-24 | the fitter keeps its settings, defaults every entry to one step (a three-value grid) and has sent nothing |
| GibbsSampling.GibbsSamplerFitter.Start | src/fitter/GibbsSamplerFitter.py:26-33 | start sets the state to `Begin` and sends its requests in order |
| GibbsSampling.GibbsSamplerFitter.LoadInitialFace | src/fitter/GibbsSamplerFitter.py:27-32 | the parameter array becomes the initial face's flat vector, the loop 0, and `init` is sent |
| GibbsSampling.GibbsSamplerFitter.GetParameter | src/fitter/GibbsSamplerFitter.py:35-48 | the in-place move to entry i reaches the state of `BeginCoordinate` and sends its candidates |
| GibbsSampling.GibbsSamplerFitter.RequestCandidates | src/fitter/GibbsSamplerFitter.py:44-48 | the fan-out loop sends exactly the candidates, in grid order |
| GibbsSampling.GibbsSamplerFitter.Select | src/fitter/GibbsSamplerFitter.py:68-86 | the selection returns the index `Choose` defines |
| GibbsSampling.GibbsSamplerFitter.ReceiveImage | src/fitter/GibbsSamplerFitter.py:50-104 | a reply, priced when it carries an index, moves the state to `Reply`, sends its requests and delivers the face when it finishes |
| GibbsSampling.GibbsSamplerFitter.Respond | src/fitter/GibbsSamplerFitter.py:50-104 | the label dispatch with its cost reaches the state and outcome of `Reply` |
| GibbsSampling.GibbsSamplerFitter.NextParameter | src/fitter/GibbsSamplerFitter.py:53-55 | the in-place `pre` step reaches the state and outcome of `NextCoordinate` |
| GibbsSampling.GibbsSamplerFitter.RecordError | src/fitter/GibbsSamplerFitter.py:63-104 | the in-place integer-label step reaches the state and outcome of `Record` |
| GibbsSampling.GibbsSamplerFitter.CommitChoice | src/fitter/GibbsSamplerFitter.py:88-104 | the in-place commit writes one array entry and reaches the state and outcome of `Commit` |
| Images.Or | classes/image/Image.py:8-10 | `x or d` is x unless x is missing or 0 |
| Images.NewImage | classes/image/Image.py:7-10 | the image keeps the flattened data and the height (default: the row count) and fails exactly when the height is 0 and no width is given; the width is the given one, or else the data size divided by the height, rounded down |
| Images.FlattenRectangular | classes/image/Image.py:9 | flattening rows of width w puts cell (r, c) at index r * w + c |
| Images.Row | classes/image/Image.py:14 | row r of the matrix view is data[r * w .. r * w + w] |
| Images.GetMatrix | classes/image/Image.py:13-14 | the reshape succeeds exactly when height * width is the data size and then gives height rows of width entries |
| Images.MatrixCell | classes/image/Image.py:13-14 | cell (r, c) of the matrix view is data[r * width + c] |
| Images.MatrixFlattens | classes/image/Image.py:13-14 | flattening the matrix view gives the data back |
| Images.RowsRoundTrip | classes/image/Image.py:7-14 | an image built from non-empty rectangular rows has those rows as its matrix view |
| Images.Bound | classes/image/Image.py:18 | a Python slice bound is clamped to [0, n] after negative bounds count from the end |
| Images.PySlice | classes/image/Image.py:18 | a Python slice is the sequence between its clamped bounds, or empty when they cross |
| Images.PySliceSplit | classes/image/Image.py:22 | the slices before and after any split point put together give the sequence back |
| Images.PySliceWindow | classes/image/Image.py:18 | a window from a non-negative offset is cut off at the end of the sequence and is empty past it |
| Images.CropVertical | classes/image/Image.py:17-18 | the vertical crop is the slice of rows from offset to offset + height, and fails exactly when the reshape fails |
| Images.CropVerticalRows | classes/image/Image.py:17-18 | for non-negative arguments the crop holds rows offset up to min(offset + height, height of the image) |
| Images.SplitVertical | classes/image/Image.py:21-22 | the first half of a vertical split is the row slice [0:height] and the two halves put together are the matrix |
| Images.Columns | classes/image/Image.py:26 | the column slice keeps every row and slices each one |
| Images.CropHorizontal | classes/image/Image.py:25-26 | the horizontal crop has one row per image row, each the slice of columns from offset to offset + width |
| Images.CropHorizontalColumns | classes/image/Image.py:25-26 | for non-negative arguments each cropped row holds columns offset up to min(offset + width, width of the image) |
| Images.SplitHorizontal | classes/image/Image.py:28-29 | per row, the first half of a horizontal split is the column slice [0:width], and the two halves put together are the row of the matrix |
| Images.SplitHorizontalIgnoresOffset | classes/image/Image.py:28-29 | the offset argument of the horizontal split has no effect |

## Left out

- Rendering, the OpenCL kernels, the mesh `Face` class, the viewer and the program entry point are not part of this model. The renderer is reduced to the outbox and to the cost function a `Run` applies.
- Asynchrony: replies are delivered by explicit calls, one at a time. Interleavings are covered only through `GibbsSampling.ArrivalOrderIrrelevant`.
- The PNG dump in the gradient-descent finish and the progress `print` of the Gibbs fitter are I/O and are left out.
- Floating point: every value is a `real`. `float32` rounding, `linspace` with `dtype='f'` and the NaN of `0 / 0` are not modelled bit for bit. The all-NaN weights case is modelled by its outcome: no comparison succeeds, so the last index is picked.
- `exp` and `rand()` are parameters. `exp` is assumed positive; the draw is any real.
- ModelFitting.Cost: a reply with no drawn pixel has no cost. The source takes the numpy mean of an empty selection and gets NaN. `Deviation` returns None in that case. Each `ReceiveImage` requires a pricable observation (`Priceable`) only for the replies it prices: integer-labelled replies in the Gibbs fitter, and derivative replies (`Prices`) in the gradient-descent fitter.
- ModelFitting.Deviation: the converse, that cost 0 means every drawn pixel matches, is not stated.
- An observation is always two-dimensional (one row per pixel). The cost's branch for a one-dimensional observation is unreachable in the source: the mask at ModelFitter.py:76 indexes the observation's last column first, which raises on a one-dimensional array. The model has no such branch.
- Wiring of the gradient-descent constructor:
  - it passes `initial` and `initial_face` into the base's `initial_face` and `callback` slots;
  - `start` reads a `_initial` attribute the base never sets.

  The model passes the initial face and the callback flag to the base in the intended slots. `start` uses the corrected initial face's coefficients.
- Sizes, made consistent with one coefficient count n:
  - The source sizes derivative arrays as `_dimensions + 4` and slices `_dimensions` coefficients. The model uses n + 4 entries and n coefficients.
  - The gradient-descent cursor's last coordinate is `_dimensions - 1` in the source, which already counts the four light entries. The model's last coordinate is n - 1, the last coefficient.
  - The source's default steps have one entry per coefficient while the cursor runs over n + 4 entries. The model gives every one of the n + 4 entries a step count (default 1) and requires given steps to have that length.
- The layout of a face's flat vector (coefficients, ambient light, directed light) is taken from how the gradient-descent update slices its derivatives. The parameter-face class is not part of this model.
- BatchGradientDescent.BGDFitter.constructor: it requires dx != 0, and so does every step through `Good`. In the source a zero dx makes every finite difference an inf or NaN numpy scalar without raising, and the run goes on with those derivatives. The model does not cover that degenerate run.
- BatchGradientDescent.Reply: it requires that right and left replies arrive only while the cursor is on a coordinate (cursor at least -4). The fitter only ever asks for those. In the source, such a reply with the cursor at -5 would index slot -5.
- GibbsSampling.NextCoordinate: a `pre` reply past the last entry is a fault with the state kept. The source first overwrites the cursor and then raises `IndexError`.
- Before `start` the source's face, cursor, grid and error table are `None`. The model uses placeholders, a `started` flag and empty arrays and sequences.
- Images.NewImage: the width default is Python 2 floor division of the size by the height, as an integer. Negative heights and widths and ragged rows are not modelled: sizes are `nat` and rows are flattened by concatenation.
- GibbsSampling.Weights: the weights are not claimed to sum to 1. The source normalises `exp(e / max)` by the sum of `exp(-e / max)`, so in general they do not.
