# Fourier contour drawer, modelled in Dafny

The program draws a closed contour with epicycles. It has two core parts:

- **`compute_dft` (module `Fourier`, file `fourier.dfy`).** It turns the discrete Fourier transform of one sampled coordinate into a list of records `{freq, amp, phase}`, one per transform value. It then sorts that list by amplitude, largest first, using Python's stable sort.
- **`FourierDrawerAnimator` (module `Animator`, file `animator.dfy`).**
  - The constructor picks the quadrant half-size `S` from the curve's extent and fixes the four quadrant anchors at `(±S, ±S)`.
  - `_calculate_chain` builds the chain of epicycle points as running sums from an anchor. In the Y mode it swaps each point's two offsets about the anchor.
  - `update` computes frame `f` of `F` at time `t = f/F`:
    - the X chain at the top-right anchor;
    - the swapped Y chain at the bottom-left anchor;
    - the drawn point `(x_tip.x, y_tip.y)`;
    - the two projection segments.
    It then appends the drawn point to the two trace lists.

The model is imperative where the source is:

- `ComputeDft` fills an array in a loop and sorts it in place with a stable insertion sort.
- `CalculateChain` fills a fresh array with prefix sums. In the Y mode it writes a second array one column at a time.
- The animator is a class. Its `traceX`/`traceY` sequence fields are appended to by `Update`.

Each method is proved against a specification function:

- `Records`, `IsDftOutput`, `Chain`, `Scale`, `FrameAt`, `TraceX`, `TraceY`.

Lemmas state what the program relies on, in terms of those functions. The numeric library does not appear in the model:

- The FFT's values are taken as input: for each `k`, the modulus and argument of `X_k`.
- `cos`, `sin` and `pi` are parameters, bundled in a `Trig` value.
- The circle facts assume only `cos² + sin² = 1`.

## Model

| member | source | states |
|---|---|---|
| Fourier.RecordOf | src/fourier.py:19-26 | the record built for transform value `k`: frequency `k`, phase `arg(X_k)`, and an amplitude that times `n` gives back `abs(X_k)` |
| Fourier.Records | src/fourier.py:18-26 | the list the construction loop leaves: one record per transform value, in strictly ascending frequency (the order the stable sort then keeps among ties) |
| Fourier.ComputeDft | src/fourier.py:15-31 | the result has one record per transform value; as a multiset it equals the records `{freq: k, amp: abs(X_k)/n, phase: arg(X_k)}`; amplitudes are non-increasing; records of equal amplitude appear in ascending frequency |
| Fourier.SortByAmplitude | src/fourier.py:29 | the in-place sort leaves amplitudes non-increasing and is a permutation of its input; for input in ascending frequency (as the construction loop produces), equal amplitudes stay in ascending frequency (stability) |
| Fourier.Insert | src/fourier.py:29 | one insertion step moves the record at `i` behind every record of greater or equal amplitude, leaving the prefix strictly ranked, the rest untouched and the multiset unchanged |
| Fourier.SwapDown | src/fourier.py:29 | exchanging two neighbours changes those two cells only and keeps the multiset |
| Fourier.DftOutputDescribesTransform | src/fourier.py:19-29 | in any sorted output, each record is the record built for its own frequency (amp = abs(X_k)/n, phase = arg(X_k)); every frequency `0..n-1` occurs; no frequency occurs twice |
| Fourier.AmplitudesNonNegative | src/fourier.py:20 | with non-negative moduli, every amplitude is non-negative |
| Fourier.RankedHeadsEqual | src/fourier.py:29 | two strictly ranked lists with the same elements have the same first element |
| Fourier.RankedPermutationsEqual | src/fourier.py:29 | two strictly ranked lists with the same elements are equal |
| Fourier.DftOutputUnique | src/fourier.py:19-29 | the sorted output is determined by the transform values alone, so every run (and its first-M truncation) gives the same list |
| Fourier.FourPointRecords | src/fourier.py:19-26 | for the transform `[0, -2i, 0, 2i]` of the signal `[0, 1, 0, -1]`, the unsorted records have amplitudes `[0, 0.5, 0, 0.5]` |
| Fourier.FourPointSortedIsPermutation | src/fourier.py:29 | the expected sorted list for `[0, 1, 0, -1]` is a permutation of its records |
| Fourier.FourPointSignal | src/fourier.py:15-31 | for the signal `[0, 1, 0, -1]` the output is exactly: freq 1, then freq 3 (amplitude 0.5 each), then freq 0, then freq 2 (amplitude 0) |
| Animator.Max | src/animator.py:29 | Python's `max(a, b)`: at least both arguments and equal to one of them |
| Animator.Angle | src/animator.py:94 | the angle `phase + 2 pi freq t` of one epicycle; at `t = 0` it is the record's phase |
| Animator.Contribution | src/animator.py:94-96 | one epicycle's offset `(amp cos a, amp sin a)`; a zero amplitude gives no offset |
| Animator.SumOf | src/animator.py:90-98 | the running sum `curr_val_x, curr_val_y`, started at `(0, 0)` and advanced by one offset per coefficient in list order (its properties are stated by SumOfStep and SumOfStill) |
| Animator.PlainChain | src/animator.py:89-99 | the unswapped chain: `len(coeffs) + 1` points starting at the center, point `i` the center plus the first `i` offsets (stated by PlainChainIsRunningSum) |
| Animator.SwapAbout | src/animator.py:106-108 | one point re-embedded about the center, x from its y offset and y from its x offset (its distance property is SwapKeepsDistance) |
| Animator.Swapped | src/animator.py:104-108 | the Y-mode array: as many points as the chain, the center kept as the first point when it is the first point |
| Animator.SwappedTwiceIsIdentity | src/animator.py:104-108 | swapping twice about the same center gives the points back, so the Y-mode embedding loses nothing |
| Animator.Circles | src/animator.py:119-128 | the circles drawn for a chain: one per coefficient, circle `i` centred on `chain[i]` with radius `amp_i` (stated by CirclesCarryTheChain) |
| Animator.FrameTime | src/animator.py:115 | the time `t = frame / total_frames` of a frame (stated by FrameTimeInUnitInterval and FrameTimeIncreasing) |
| Animator.MaxAbs | src/animator.py:27-28 | `np.max(np.abs(column))` bounds every magnitude in the column from above and is attained by one of them |
| Animator.Scale | src/animator.py:27-29 | `S` is non-negative, is at least 1.5 times every coordinate magnitude on both axes, and equals 1.5 times one of them |
| Animator.CurveFitsInEveryQuadrant | src/animator.py:29-35 | the curve's points, placed about any anchor `(±S, ±S)`, stay in that anchor's square of half-size `S`, inside the axis limits `±2S` (src/animator.py:43-45) |
| Animator.Chain | src/animator.py:88-112 | the chain has `len(coeffs) + 1` points and starts at the center; with no coefficients it is the single point `center` |
| Animator.SumOfStep | src/animator.py:97-98 | the running sum after `i + 1` offsets is the sum after `i` offsets plus offset `i` |
| Animator.PlainChainIsRunningSum | src/animator.py:90-99 | in the plain mode point `i` is the center plus the first `i` offsets, so consecutive points differ by exactly one epicycle's `(amp cos a, amp sin a)` |
| Animator.SwappedChainExchangesOffsets | src/animator.py:101-108 | in the Y mode point `i` is the center plus the plain offset with its coordinates exchanged |
| Animator.TruncatedChainIsPrefix | src/animator.py:93-99 | the chain of the first `m` coefficients is the first `m + 1` points of the full chain |
| Animator.SumOfStill | src/animator.py:93-98 | a sum of zero offsets is the origin |
| Animator.StillChainAtZeroAmplitude | src/animator.py:93-108 | with all amplitudes zero every chain point is the center, in both modes |
| Animator.ContributionOnCircle | src/animator.py:94-96 | each offset has length `amp` |
| Animator.SwapKeepsDistance | src/animator.py:104-108 | the column swap preserves distances |
| Animator.StepDistance | src/animator.py:97-99 | a point moved by `d` is at distance `abs(d)` from where it was |
| Animator.EpicyclesLinkUp | src/animator.py:93-108 | point `i + 1` of a chain lies on the circle of radius `amp_i` about point `i`, in both modes |
| Animator.SingleEpicycleTipOnCircle | src/animator.py:93-112 | with one coefficient the tip stays on the circle of radius `amp` about the anchor |
| Animator.ChainLinksHaveAmplitudeLength | src/animator.py:93-108 | every link of a chain is as long as its coefficient's amplitude |
| Animator.CirclesOfLinks | src/animator.py:119-121 | circles drawn at the chain points with the amplitudes as radii pass through the next points, once the links have those lengths |
| Animator.CirclesCarryTheChain | src/animator.py:119-128 | circle `i` (center `chain[i]`, radius `amp_i`) passes through `chain[i + 1]` |
| Animator.FrameTimeInUnitInterval | src/animator.py:115 | for `0 <= frame < total_frames`, `t = frame/total_frames` lies in `[0, 1)` |
| Animator.FrameTimeIncreasing | src/animator.py:115 | later frames have strictly later times |
| Animator.FourierDrawerAnimator.constructor | src/animator.py:18-35 | stores the coefficient lists and points, starts both traces empty, sets `S = Scale(points)` and the anchors `TL = (-S, S)`, `TR = (S, S)`, `BL = (-S, -S)`, `BR = (S, -S)` |
| Animator.FourierDrawerAnimator.FrameAt | src/animator.py:115-145 | the geometry of one frame: the time, the X chain at TR, the swapped Y chain at BL, their tips, circles, the drawn point `(x_tip.x, y_tip.y)` and the two projection segments (stated by DrawnPointIsReconstruction, ProjectionsAreAxisAligned, FrameCirclesCarryTheChain, StillPenAtZeroAmplitude) |
| Animator.FourierDrawerAnimator.TraceX | src/animator.py:137 | the x entries that frames `0 .. count-1` add to `trace_x`, exactly `count` of them, entry `f` being frame `f`'s drawn x |
| Animator.FourierDrawerAnimator.TraceY | src/animator.py:138 | the y entries that frames `0 .. count-1` add to `trace_y`, exactly `count` of them, entry `f` being frame `f`'s drawn y |
| Animator.FourierDrawerAnimator.CalculateChain | src/animator.py:87-112 | returns a newly allocated array (as `np.zeros` allocates) of `len(coeffs) + 1` points equal to the specified chain in the requested mode, and a tip equal to its last point |
| Animator.FourierDrawerAnimator.SwapColumns | src/animator.py:104-108 | writes a newly allocated array (as `np.zeros_like` allocates), column by column, whose points are the input points re-embedded about the center |
| Animator.FourierDrawerAnimator.Update | src/animator.py:114-145 | the frame's state is `FrameAt(frame, total)` and the drawn point is `(x_tip.x, y_tip.y)`; each trace gains that point's coordinate at its end and keeps its earlier entries; both traces keep equal lengths |
| Animator.FourierDrawerAnimator.TraceXGrows | src/animator.py:137 | the x entries of one more frame are the earlier entries plus that frame's drawn x |
| Animator.FourierDrawerAnimator.TraceYGrows | src/animator.py:138 | the y entries of one more frame are the earlier entries plus that frame's drawn y |
| Animator.FourierDrawerAnimator.AdvanceTrace | src/animator.py:137-138 | one call of `update` appends the frame's drawn x and y to the traces |
| Animator.FourierDrawerAnimator.PlayFrames | src/animator.py:150-152 | the animation's `update(f, F)` for `f = 0 .. F-1` appends exactly `F` entries to each trace: entry `f` is the point drawn at frame `f`, and earlier entries are kept |
| Animator.FourierDrawerAnimator.DrawnPointIsReconstruction | src/animator.py:131-135 | the drawn point is the bottom-right anchor moved by the real part of the X chain's sum horizontally and the real part of the Y chain's sum vertically |
| Animator.FourierDrawerAnimator.ProjectionsAreAxisAligned | src/animator.py:141-145 | the vertical projection runs from the X tip (last point of the X chain) to the drawn point with equal x; the horizontal one from the Y tip to the drawn point with equal y |
| Animator.FourierDrawerAnimator.StillPenAtZeroAmplitude | src/animator.py:114-138 | with all amplitudes zero the drawn point is the bottom-right anchor in every frame |
| Animator.FourierDrawerAnimator.FrameCirclesCarryTheChain | src/animator.py:117-128 | in every frame each drawn circle passes through the next point of its chain, for both chains |

## Left out

- `np.fft.fft` (src/fourier.py:16) is a foreign library call. `ComputeDft` receives its values, for each `k` the modulus and the argument, as input. The FFT's own rejection of an empty signal is outside the model, and an empty transform gives the empty list.
- `np.cos`, `np.sin` and `np.pi` are parameters bundled in a `Trig` value, not computed. Results that need the Pythagorean identity require it explicitly.
- Floating-point rounding, NaN and infinities are not modelled. All arithmetic is on `real`.
- Fourier.SortByAmplitude: stability is stated only for input in ascending frequency, the order the construction loop produces. The general statement, that equal keys keep their input order for any input, is not proved.
- Some caller errors are preconditions rather than modelled error paths:
  - the constructor requires a non-empty point list, because `np.max` raises on an empty column;
  - `Update` requires `total_frames != 0`, because `frame / total_frames` raises on division by zero.
  The code has no other error checks: `compute_dft` does not reject an empty signal, `_calculate_chain` does not reject an empty coefficient list, and `update` does not reject a time outside `[0, 1)`. The model adds no such checks.
- Rendering is not modelled, with two exceptions: the circle centers and radii, and the projection segments, are kept in `FrameState`. The rest is out:
  - figure and axes setup and labels (src/animator.py:37-74);
  - `set_data` on the artists;
  - the returned artist list;
  - `_setup_image` and its image reading (src/animator.py:76-85);
  - `image_path`.
- `save_animation`'s `FuncAnimation` timer, its extra initial draw call, `tight_layout` and GIF writing are out. `PlayFrames` models only the sequence of `update(f, F)` calls for `f = 0 .. F-1`.
- `src/contour.py` (image thresholding and contour extraction) and `main.py` (orchestration and files) are not part of this model. `main.py` truncates each list to its first 100 coefficients. `TruncatedChainIsPrefix` and `DftOutputUnique` cover the facts that truncation relies on.
