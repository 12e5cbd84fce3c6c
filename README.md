# Polygon image approximation: decoding, Iterated Local Search and Tabu Search

The repository approximates a reference picture with semi-transparent
polygons. A candidate solution is a flat chromosome of reals in [0, 1]. Each
polygon takes `2 * polySize + 4` genes: an (x, y) pair per vertex, then red,
green, blue and alpha. Two scripts search for a good chromosome, scoring each
one by painting it and comparing the painting with the reference (mean
squared error):

- `proj_ia_ILS.py` runs an Iterated Local Search. Every gene is nudged with a
  chance of 1 in 128, and a candidate is kept when its score is not worse.
- `proj_ia_tabusearch.py` runs a Tabu Search. Each iteration perturbs every
  gene, retrying while the result is in a bounded FIFO tabu list, mutates the
  result, records it in the tabu list and keeps it when its score is not
  worse. A stagnation counter tracks non-improving iterations.

This project models those three files in Dafny:

- `genes.dfy` (module `Genes`): the random stream, `uniform`, `randint`,
  clamping to [0, 1] and `randomFloat`. Both searches share them.
- `image_test.dfy` (module `ImageTest`): `splitList` and its properties. Also
  the chunk decoding done by `polygonDataToImage`, as a loop proved against a
  reference definition by index arithmetic, and `calculateMse` and the
  `getDifference` dispatch.
- `ils.dfy` (module `Ils`): `perturbation` and `ils` as methods with loops.
  They are proved against the recursive specification `IlsFrom`.
- `tabu_search.dfy` (module `TabuSearch`): `perturbation` (nested loops plus
  the tabu retry), `mutation`, the tabu list and `tabu_search`. They are
  proved against the specifications `PerturbAttempt`, `Perturb`, `Mutated`,
  `TabuPush`, `TabuStep` and `TabuRun`.

Python's global `random` generator becomes an explicit stream `rs` of unit
variates, the values `random.random()` returns. It is consumed in the order
the scripts draw:

- Each ILS gene uses two draws: the offset, then the `randint`.
- One Tabu perturbation attempt uses one draw per coordinate gene, polygon by
  polygon, then one per colour gene.
- A mutation uses one draw per gene.

The score function is any deterministic function `seq<real> -> real`. In the
scripts it is `getDifference(individual, "MSE")`.

## Model

| member | source | states |
|---|---|---|
| Genes.Uniform | AIExam-ILS/proj_ia_ILS.py:63 | `uniform(a, b)` from a unit draw lies between its two bounds, whichever is smaller |
| Genes.RandInt | AIExam-ILS/proj_ia_ILS.py:64 | `randint(lo, hi)` from a draw in [0, 1) lies in lo..hi |
| Genes.Clamp01 | AIExam-ILS/proj_ia_ILS.py:66-69 | the two-comparison clamp yields the point of [0, 1] nearest to its input, and the input itself when already in [0, 1] |
| Genes.RandomFloat | AIExam-ILS/proj_ia_ILS.py:32-33 | `randomFloat` returns exactly n values, each within [low, up] when the draws are unit variates |
| Ils.Perturbation | AIExam-ILS/proj_ia_ILS.py:55-74 | the append loop returns a chromosome of the input's length equal to the per-gene specification `Perturbed`, gene k using draws 2k (offset) and 2k+1 (randint) even when the offset is discarded |
| Ils.PickHits | AIExam-ILS/proj_ia_ILS.py:64-65 | the randint draw hits, `randint(1, 128) == 1`, exactly when the draw is below 1/128 |
| Ils.PerturbedGenes | AIExam-ILS/proj_ia_ILS.py:62-72 | each perturbed gene is the clamped shifted gene when its pick draw hits and the input gene unchanged otherwise |
| Ils.PerturbedInUnit | AIExam-ILS/proj_ia_ILS.py:66-72 | perturbing a chromosome in [0, 1] leaves it in [0, 1] |
| Ils.Accept | AIExam-ILS/proj_ia_ILS.py:102-105 | the candidate replaces the solution iff its score is less than or equal (ties accepted); the kept score never increases |
| Ils.IlsFrom | AIExam-ILS/proj_ia_ILS.py:89-105 | the search from any state never raises the score, keeps the chromosome length, and keeps the recorded score equal to the solution's score |
| Ils.IlsFromInUnit | AIExam-ILS/proj_ia_ILS.py:89-105 | a search that starts in [0, 1] stays in [0, 1] |
| Ils.IlsFromSplit | AIExam-ILS/proj_ia_ILS.py:89-105 | i + j iterations are i iterations followed by j more on the remaining draws, so more iterations never give a larger score |
| Ils.Ils | AIExam-ILS/proj_ia_ILS.py:78-107 | `ils` returns the result of `IlsFrom` from the drawn start point; it scores no worse than the start point, is the start point after 0 iterations, has NumOfParams genes and lies in [0, 1] when the draws are unit variates |
| ImageTest.Trunc | AIExam-ILS/image_test.py:48 | Python's `int()` truncates toward zero: the floor for non-negative values and the ceiling for negative ones |
| ImageTest.SplitList | AIExam-ILS/image_test.py:141-144 | `splitList` yields no chunks iff the list is empty |
| ImageTest.SplitListFlatten | AIExam-ILS/image_test.py:141-144 | concatenating the chunks of `splitList` gives back the input list |
| ImageTest.SplitListSizes | AIExam-ILS/image_test.py:141-144 | there are no chunks iff the list is empty; every chunk but the last holds exactly chunkSize elements, and the last holds between 1 and chunkSize |
| ImageTest.SplitListCount | AIExam-ILS/image_test.py:141-144 | the number of chunks is ceil(len / chunkSize) |
| ImageTest.SplitListChunk | AIExam-ILS/image_test.py:143-144 | chunk k is the slice from k * chunkSize to the next multiple of chunkSize or the end of the list |
| ImageTest.SplitListAllFull | AIExam-ILS/image_test.py:141-144 | every chunk is full iff the length is a multiple of chunkSize |
| ImageTest.DecodeChunk | AIExam-ILS/image_test.py:43-55 | decoding a chunk succeeds iff it holds at least 2 * polySize + 4 genes, and then gives exactly polySize vertices |
| ImageTest.DecodeAll | AIExam-ILS/image_test.py:37-55 | decoding a chromosome succeeds iff its length is a multiple of 2 * polySize + 4, and then gives length / chunk polygons |
| ImageTest.ExtractPolygon | AIExam-ILS/image_test.py:43-55 | the vertex loop (index advancing by 2) and the colour reads equal `DecodeChunk`, including the IndexError on a short chunk |
| ImageTest.DecodeAllByChunks | AIExam-ILS/image_test.py:37-55 | decoding over the `splitList` chunks agrees with `DecodeAll`: it fails iff some chunk is short, and otherwise polygon k is the decoding of chunk k |
| ImageTest.PolygonDataToImage | AIExam-ILS/image_test.py:25-63 | `polygonDataToImage` paints the polygons of `DecodeAll`, or fails with IndexError exactly when `DecodeAll` does |
| ImageTest.TruncScaled | AIExam-ILS/image_test.py:48 | a gene in [0, 1] scaled by d and truncated lies in 0..d |
| ImageTest.ChunkInRange | AIExam-ILS/image_test.py:46-55 | a full chunk of genes in [0, 1] decodes to polySize vertices in [0, width] x [0, height] and colour components in 0..255 |
| ImageTest.DecodedInRange | AIExam-ILS/image_test.py:42-55 | for a chromosome in [0, 1], every decoded polygon has its vertices in [0, width] x [0, height] and its colour components in 0..255 |
| ImageTest.SumSquaredError | AIExam-ILS/image_test.py:135 | the summed squared channel difference is 0 iff the image equals the reference |
| ImageTest.CalculateMse | AIExam-ILS/image_test.py:133-135 | the MSE is non-negative and is 0 iff every channel of every pixel equals the reference |
| ImageTest.GetDifference | AIExam-ILS/image_test.py:65-82 | it fails with IndexError iff the chromosome length is not a multiple of the chunk size; otherwise it returns the MSE for "MSE" and one minus the similarity for any other method name; the MSE is non-negative and 0 iff the painting equals the reference |
| TabuSearch.GeneIndexBijective | AIExam-TS/proj_ia_tabusearch.py:39-46 | over i < POL_COUNT and j < chunk, the index i * chunk + j is in range, determines (i, j), and reaches every gene of the chromosome |
| TabuSearch.PerturbOnce | AIExam-TS/proj_ia_tabusearch.py:35-52 | the two pairs of nested loops, updating the list in place, compute `PerturbAttempt`: coordinate genes shifted by up to 0.005, colour genes shifted by up to 0.05 and clamped, each with its own draw in loop order |
| TabuSearch.ColourGenesInUnit | AIExam-TS/proj_ia_tabusearch.py:44-52 | every colour and alpha gene of a perturbation attempt lies in [0, 1], whatever the input |
| TabuSearch.CoordGenesMayLeaveUnit | AIExam-TS/proj_ia_tabusearch.py:39-41 | coordinate genes are not clamped: an all-zero chromosome in [0, 1] with all-zero draws perturbs to a first gene of -0.005, outside [0, 1] |
| TabuSearch.Perturb | AIExam-TS/proj_ia_tabusearch.py:35-59 | a chromosome returned after the tabu retries is never in the tabu list, keeps the input length, and leaves a proper suffix of the draws |
| TabuSearch.ExplorationInert | AIExam-TS/proj_ia_tabusearch.py:35-59 | the `exploration` flag never changes the result of `perturbation`; it is only forwarded on retry |
| TabuSearch.Perturbation | AIExam-TS/proj_ia_tabusearch.py:35-59 | the recursive retry computes `Perturb` |
| TabuSearch.Mutated | AIExam-TS/proj_ia_tabusearch.py:67-74 | mutation keeps the length and puts every mutated gene in [0, 1], whatever the input |
| TabuSearch.Mutation | AIExam-TS/proj_ia_tabusearch.py:61-77 | the in-place loop computes `Mutated`, and a NumOfParams-gene result lies entirely in [0, 1] |
| TabuSearch.TabuPush | AIExam-TS/proj_ia_tabusearch.py:96-98 | the append-then-pop(0) update keeps the list within 200, puts the newest candidate last, and drops exactly the oldest entry when the list was full |
| TabuSearch.PushIsWindow | AIExam-TS/proj_ia_tabusearch.py:96-98 | one push on a list of at most 200 entries leaves exactly the last 200 of the list with the candidate appended |
| TabuSearch.TabuPushAllWindow | AIExam-TS/proj_ia_tabusearch.py:96-98 | after any sequence of pushes, the tabu list is exactly the last 200 candidates pushed (FIFO eviction) |
| TabuSearch.PushInUnit | AIExam-TS/proj_ia_tabusearch.py:96-98 | pushing a chromosome in [0, 1] on a tabu list in [0, 1] leaves every entry in [0, 1] |
| TabuSearch.Exploration | AIExam-TS/proj_ia_tabusearch.py:88 | the `exploration` flag is never set while the stagnation counter is 0 |
| TabuSearch.TabuStep | AIExam-TS/proj_ia_tabusearch.py:86-105 | one iteration: the perturbed tuple checked for membership is not in the old tabu list; the mutated candidate lies in [0, 1] and is pushed whether or not it is accepted; it replaces the best solution iff its score is less than or equal, which resets the counter to 0, and otherwise the counter grows by 1; the best score never increases |
| TabuSearch.ExplorationAfterStep | AIExam-TS/proj_ia_tabusearch.py:88-105 | an accepted candidate clears the `exploration` flag; a rejected one sets it exactly when the counter goes past 10000 |
| TabuSearch.StepInUnit | AIExam-TS/proj_ia_tabusearch.py:88-105 | one iteration from a best solution and tabu list in [0, 1] keeps both in [0, 1] |
| TabuSearch.TabuRun | AIExam-TS/proj_ia_tabusearch.py:86-105 | over any number of iterations the best score never increases, the best solution keeps its length and its recorded score, and the tabu list stays within 200 |
| TabuSearch.TabuRunInUnit | AIExam-TS/proj_ia_tabusearch.py:86-105 | the best solution and every tabu entry stay in [0, 1] |
| TabuSearch.StartState | AIExam-TS/proj_ia_tabusearch.py:80-85 | the search starts from a drawn NumOfParams-gene point in [0, 1], scored by the fitness function, with an empty tabu list and a zero counter |
| TabuSearch.TabuOutcome | AIExam-TS/proj_ia_tabusearch.py:79-107 | the search's final best solution scores no worse than the start point, lies in [0, 1] when the draws are unit variates, and is the start point after 0 iterations |
| TabuSearch.TabuSearch | AIExam-TS/proj_ia_tabusearch.py:79-107 | `tabu_search` returns the best solution of `TabuRun` from the start point; it scores no worse than the start point, is the start point after 0 iterations, and lies in [0, 1] when the draws are unit variates |

## Left out

- Painting: PIL's `Image.new`, `ImageDraw.polygon` and alpha compositing belong to a foreign library. The painter is the function field `paint` of `TestImage`, applied to the whole decoded polygon list.
- ImageTest.PolygonDataToImage: draws the polygons all at once after decoding, not one by one onto a canvas. A short chunk therefore yields the error with no canvas state, as Python's exception discards the canvas.
- SSIM and cv2: `structural_similarity` and the BGR conversion are foreign numerics. The similarity is the function field `similarity`; images are flat sequences of BGR pixels with integer channels.
- ImageTest.GetDifference: the painted image having a different pixel count from the reference is reported as `ShapeMismatch`, where numpy would raise a broadcast error. The real painter always produces the reference's size.
- Plotting, `saveImage`, `hideTicks`, `toCv2`, folder creation, `print` logging and the periodic snapshots are I/O with no effect on the search state.
- The module-level scripts are not modelled: loading `MonaLisa.png`, seeding the generator, running 1,200,000 iterations and `plt.show()`. Neither are the unused constants `MAX_ITERATIONS` and `MARKER_POSITION`.
- Floating point: genes and scores are reals, so IEEE rounding and NaN are not modelled.
- Genes.RandInt: models `randint(lo, hi)` as `lo + floor((hi - lo + 1) * u)` of a unit draw, whereas CPython draws random bits with rejection. The model takes one draw per `randint` call, as the script makes one call per gene, and keeps the 1-in-128 probability; the exact stream positions differ from CPython's.
- TabuSearch.Perturb: Python retries by a nested call, so a long run of tabu hits (about 1000 in a row, CPython's default recursion limit) ends the run with RecursionError; the model does not count the recursion depth. Here each retry consumes fresh draws of a finite stream, and running out of draws yields `Exhausted`. `TabuSearch.TabuSearch` then returns `None`.
- Ils.Ils: requires enough draws for every iteration; the stream has no end in Python.
- The tabu membership test compares the pre-mutation perturbed tuple, while the list stores post-mutation candidates. `TabuSearch.TabuStep` states both, as the source does.
- The code has no up-front length check. It raises IndexError when it indexes the short last chunk (`image_test.py` lines 48 and 52-55), so `DecodeAll` and `GetDifference` fail with IndexError exactly when the length is not a multiple of the chunk size.
