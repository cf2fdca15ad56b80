# Verified model of the Canny-style image-processing kernel

This project models the image-processing core of the perception demos in Dafny:
the `Array2D` pixel grid, the edge-detection stages, the colour operations and
the test-pattern generators. It proves properties about the model.

- **The grid.** `Array2D` is a flat, row-major, channel-interleaved buffer. Sample
  `(row, col, chan)` is stored at `channels*(width*row+col)+chan`.
- **The edge-detection stages.**
  - `convolve`: a true 2D convolution. The kernel is turned by 180 degrees and
    out-of-grid samples are replaced by a padding value.
  - `computeGradients`: Sobel magnitude and angle, with the angle folded into [0, pi].
  - `nonMaxSuppress`: four direction bins; ties keep the pixel.
  - `doubleThreshold`: writes 0, 127 or 255.
  - `edgeConnect`: one in-place, row-major hysteresis pass.
- **Colour operations.** `grayscale`, `filterColor`, `isolateColor`,
  `stretchColorRange` and `stretchColor`.
- **Kernels and helpers.** The fixed kernels `gaussianBlur5`, `sobelX` and
  `sobelY`, the `fillArray` helper, and the `util.js` pattern generators and `lerp`.

Modules follow the source:

| file | module | models |
|---|---|---|
| grid.dfy | `Grid` | the `Array2D` class, its shape and index arithmetic, and the row-major pass predicate shared by the stages |
| convolution.dfy | `Convolution` | `convolve`, `fillArray` and the sum a convolution computes |
| kernels.dfy | `Kernels` | `gaussianBlur5`, `sobelX` and `sobelY`, with their sums and symmetries |
| gradients.dfy | `Gradients` | `computeGradients` |
| suppression.dfy | `Suppression` | `nonMaxSuppress` |
| threshold.dfy | `Threshold` | `doubleThreshold` |
| hysteresis.dfy | `Hysteresis` | `edgeConnect` |
| color.dfy | `Color` | `gammaExpand`, `grayscale`, `filterColor`, `isolateColor`, `stretchColorRange` and `stretchColor` |
| util.dfy | `Util` | `lerp`, `mag2d` and the `create*` generators |

How the model is written:
- **Samples.** Samples are `real` and arithmetic is exact.
- **Library functions.** `Math.sqrt`, `Math.atan2` and `Math.pow` are
  function-valued parameters: nothing is assumed about them. `Math.PI` is the
  decimal constant 3.141592653589793.
- **Grid and loops.** `Array2D` is a class whose `data` array the stages update in
  place. Each loop of the source is a loop in the model, and its invariant states
  which pixels have been written so far.
- **Stage specifications.** Each stage is proved against a specification function
  on sequences: `Response` for convolve, `SuppressAt` for non-max suppression,
  `Classify` for the threshold and `EdgeConnected` for hysteresis. Lemmas prove what
  those functions mean.
- **Shape preconditions.** The source never checks shapes. Its implicit assumptions
  become preconditions:
  - the buffer length is `width*height*channels`;
  - convolution kernels are square;
  - `computeGradients` needs a square grid, because it allocates `4*width*width`
    entries;
  - `grayscale` and `nonMaxSuppress` need four channels;
  - stages that write channels 0..2 need at least three channels;
  - `stretchColorRange` needs `max != min`.
- **Constants kept as written.** `gammaExpand` divides by 12.96 and groups its
  argument as `c + (0.055 / 1.055)`. The sRGB standard (IEC 61966-2-1) divides by
  12.92 and uses `(c + 0.055) / 1.055`. The model keeps the source's constants.
  `Color.LuminanceDarkGray` shows one consequence: the gray pixel (10, 10, 10)
  becomes 9.

## Model

| member | source | states |
|---|---|---|
| Grid.Shape.Index | 24-Perception/js/imageProcessing.js:35-37 | the index of an in-range (row, col, chan) lies inside the buffer `[0, width*height*channels)` |
| Grid.IndexInjective | 24-Perception/js/imageProcessing.js:35-48 | two in-range positions with the same index are the same position, so a write never aliases another sample |
| Grid.IndexDistinct | 24-Perception/js/imageProcessing.js:46-48 | every in-range position other than the written one has a different index |
| Grid.Array2D.constructor | 24-Perception/js/imageProcessing.js:8-13 | the grid keeps the given buffer and shape; the caller supplies a buffer of length `width*height*channels` |
| Grid.Array2D.CenterRow | 24-Perception/js/imageProcessing.js:18-20 | the centre row r is floor(height / 2): `2r <= height < 2r + 2` |
| Grid.Array2D.CenterCol | 24-Perception/js/imageProcessing.js:25-27 | the centre column c is floor(width / 2): `2c <= width < 2c + 2` |
| Grid.Array2D.SetValue | 24-Perception/js/imageProcessing.js:46-48 | after the write, getValue at the same position returns the value; every other sample is unchanged |
| Grid.SetRgb | 24-Perception/js/imageProcessing.js:301-303 | the three setValue calls every stage makes write the value into channels 0..2 of one pixel and nothing else |
| Convolution.FilterEntry | 24-Perception/js/imageProcessing.js:189 | the kernel index `height*(height-fr-1)+(width-fc-1)` is in range and reads the kernel turned by 180 degrees |
| Convolution.AccumulateRow | 24-Perception/js/imageProcessing.js:184-200 | the column loop adds, in order, each sample (or defaultValue off the grid) times its turned kernel weight |
| Convolution.ConvolveAt | 24-Perception/js/imageProcessing.js:181-201 | the filter loops compute exactly `Response`, the padded convolution sum at (i, j, chan) |
| Convolution.Convolve | 24-Perception/js/imageProcessing.js:170-210 | channels 0..2 of every pixel become `Response` of the grid as it was before the call; channel 3 and beyond are unchanged |
| Convolution.FillArray | 24-Perception/js/imageProcessing.js:415-419 | the first `length` entries of the target equal the source's; the rest of the target is unchanged |
| Convolution.IdentityKernel | 24-Perception/js/imageProcessing.js:170-210 | the 1x1 kernel [1] reproduces every sample, so convolving with it changes nothing |
| Convolution.UniformResponse | 24-Perception/js/imageProcessing.js:184-200 | on a uniform neighbourhood (padding included) the response is the sum of the weights, each scaled by the common value |
| Convolution.ResponseBounds | 24-Perception/js/imageProcessing.js:184-200 | with samples and padding in [0, 255] the response lies between 255 times the negative weights' sum and 255 times the positive weights' sum |
| Kernels.GaussianBlur5 | 24-Perception/js/imageProcessing.js:423-429 | a fresh one-channel 5x5 grid holding the 25 Gaussian weights k/273 |
| Kernels.SobelX | 24-Perception/js/imageProcessing.js:431-435 | a fresh one-channel 3x3 grid holding the horizontal Sobel weights |
| Kernels.SobelY | 24-Perception/js/imageProcessing.js:437-441 | a fresh one-channel 3x3 grid holding the vertical Sobel weights |
| Kernels.GaussianSum | 24-Perception/js/imageProcessing.js:423-429 | the Gaussian weights sum to 1, so their numerators sum to 273 |
| Kernels.GaussianRowSums | 24-Perception/js/imageProcessing.js:423-429 | the Gaussian's row sums are 17, 66, 107, 66 and 17 over 273 |
| Kernels.GaussianTransposed | 24-Perception/js/imageProcessing.js:423-429 | the Gaussian kernel equals its transpose |
| Kernels.GaussianFlippedRows | 24-Perception/js/imageProcessing.js:423-429 | the Gaussian kernel is unchanged when turned upside down |
| Kernels.GaussianFlippedCols | 24-Perception/js/imageProcessing.js:423-429 | the Gaussian kernel is unchanged when mirrored left to right |
| Kernels.GaussianUniform | 24-Perception/js/imageProcessing.js:423-429 | on a uniform neighbourhood the Gaussian blur returns the common value |
| Kernels.SobelRowSums | 24-Perception/js/imageProcessing.js:431-441 | the Sobel kernels' row sums (whole, positive part, negative part) as the convolution loop meets them |
| Kernels.SobelSums | 24-Perception/js/imageProcessing.js:431-441 | each Sobel kernel sums to 0, with +4 of positive and -4 of negative weight |
| Kernels.SobelTranspose | 24-Perception/js/imageProcessing.js:431-441 | sobelY is sobelX transposed and negated |
| Kernels.SobelUniform | 24-Perception/js/imageProcessing.js:431-441 | on a uniform neighbourhood, e.g. a flat grid equal to defaultValue, both Sobel responses are 0 |
| Kernels.SobelBounds | 24-Perception/js/imageProcessing.js:431-441 | with samples and padding in [0, 255] each Sobel response lies in [-1020, 1020] |
| Gradients.FoldAngle | 24-Perception/js/imageProcessing.js:234-240 | for an atan2 result in [-pi, pi] the folded angle lies in [0, pi] and differs from it by 0, pi or 2 pi; it is pi only for pi or -pi; angles in [0, pi] are kept |
| Gradients.GradientsRow | 24-Perception/js/imageProcessing.js:229-252 | one row of the loop writes magnitude and folded angle into channels 0..2 of that row's pixels |
| Gradients.ComputeGradients | 24-Perception/js/imageProcessing.js:218-255 | two fresh four-channel grids: channels 0..2 hold `mag2d` and the folded `atan2` of channel 0 of both inputs; channel 3 keeps the fill value 255 |
| Suppression.Offset | 24-Perception/js/imageProcessing.js:278-297 | the neighbours compared are adjacent to the pixel and distinct from it |
| Suppression.Bin | 24-Perception/js/imageProcessing.js:278-297 | for angles in [0, pi] the chosen direction (0, pi/4, pi/2 or 3pi/4, modulo pi) is at most pi/8 from the angle |
| Suppression.BinNearest | 24-Perception/js/imageProcessing.js:278-297 | for angles in [0, pi] no other direction is nearer to the angle than the chosen one; angles from 7pi/8 on, pi included, use the horizontal neighbours |
| Suppression.Max | 24-Perception/js/imageProcessing.js:300 | Math.max returns one of its arguments and is at least both |
| Suppression.Suppress | 24-Perception/js/imageProcessing.js:300 | the value is 0 exactly when a neighbour is strictly larger, and the current magnitude otherwise, so ties keep the pixel |
| Suppression.SuppressAt | 24-Perception/js/imageProcessing.js:273-300 | a suppressed magnitude is either 0 or the pixel's own magnitude |
| Suppression.Neighbours | 24-Perception/js/imageProcessing.js:276-297 | the branches select the two neighbours along `Offset(Bin(angle))` and its opposite |
| Suppression.SuppressPixel | 24-Perception/js/imageProcessing.js:273-300 | the value computed for an interior pixel is `SuppressAt` of the magnitudes under its angle |
| Suppression.SuppressRow | 24-Perception/js/imageProcessing.js:272-304 | one row of the loop writes `SuppressAt` into channels 0..2 of that row's interior pixels |
| Suppression.NonMaxSuppress | 24-Perception/js/imageProcessing.js:263-308 | a fresh grid of the same shape; channels 0..2 of interior pixels hold `SuppressAt`; border pixels and channel 3 equal the magnitudes; the inputs are not modified |
| Suppression.KeptIsRidge | 24-Perception/js/imageProcessing.js:300 | a nonzero result equals the magnitude and is at least both neighbours compared |
| Suppression.SuppressIdempotent | 24-Perception/js/imageProcessing.js:263-308 | on non-negative magnitudes a second pass with the same angles changes no interior pixel |
| Threshold.Classify | 24-Perception/js/imageProcessing.js:322-331 | the class is 255 iff value > hi, 127 iff lo < value <= hi (a value equal to hi above lo is weak), and 0 otherwise |
| Threshold.ClassifyMonotone | 24-Perception/js/imageProcessing.js:322-331 | a larger magnitude never gets a lower class |
| Threshold.DoubleThreshold | 24-Perception/js/imageProcessing.js:318-337 | channels 0..2 of every pixel, border included, become the class of its channel 0; channel 3 is untouched |
| Hysteresis.StrongDetected | 24-Perception/js/imageProcessing.js:351-361 | the offset loops find 255 in channel 0 of the 3x3 block exactly when `StrongNear` holds |
| Hysteresis.EdgeConnect | 24-Perception/js/imageProcessing.js:345-370 | the buffer becomes `EdgeConnected` of the old buffer: one row-major pass of visits over the interior, each reading the partly updated grid |
| Hysteresis.VisitCells | 24-Perception/js/imageProcessing.js:353-367 | a visit writes 255 or 0 into channels 0..2 of a weak pixel, by its block, and nothing else |
| Hysteresis.VisitTracked | 24-Perception/js/imageProcessing.js:347-368 | visiting the next pixel keeps every sample at its expected value |
| Hysteresis.RowTracked | 24-Perception/js/imageProcessing.js:347-368 | up to any column of a row, visited weak pixels hold their outcome and every other sample its input value |
| Hysteresis.RowsTracked | 24-Perception/js/imageProcessing.js:346-369 | the same holds at the start of every row |
| Hysteresis.RowDone | 24-Perception/js/imageProcessing.js:346-369 | finishing a row's interior is reaching the start of the next row |
| Hysteresis.EdgeConnectedCells | 24-Perception/js/imageProcessing.js:345-370 | sample by sample: an interior weak pixel's channels 0..2 become 255 if its block held 255 when it was visited, else 0; every other sample, border and channel 3 included, keeps its value |
| Hysteresis.EdgeConnectedSettles | 24-Perception/js/imageProcessing.js:345-370 | no interior pixel is left at 127, a 255 is never lowered, and thresholded input ({0, 127, 255}) ends in {0, 255} inside the border |
| Hysteresis.StrongStays | 24-Perception/js/imageProcessing.js:345-370 | a pixel that is 255 at any point of the pass is 255 in the result |
| Hysteresis.PromotedWhenStrongNear | 24-Perception/js/imageProcessing.js:353-367 | a weak interior pixel ends at 255 iff its block held 255 at the moment it was visited |
| Hysteresis.PromotedByInput | 24-Perception/js/imageProcessing.js:345-370 | a weak pixel next to a pixel that is 255 in the input is promoted |
| Hysteresis.StrongWhenVisited | 24-Perception/js/imageProcessing.js:353-367 | a promoted pixel had a 255 among its eight neighbours when it was visited, since it was still 127 itself |
| Hysteresis.PromotedSupported | 24-Perception/js/imageProcessing.js:345-370 | every promoted pixel touches another pixel that is 255 in the result |
| Color.GammaExpandLinear | 24-Perception/js/imageProcessing.js:83-85 | on the linear segment [0, 0.04045] expansion keeps the order of components, stays non-negative and darkens every positive component; 0 is its only fixed point |
| Color.Luminance | 24-Perception/js/imageProcessing.js:97-103 | the gray level written is a whole number |
| Color.LuminanceBlack | 24-Perception/js/imageProcessing.js:92-108 | a black pixel stays black |
| Color.LuminanceDarkGray | 24-Perception/js/imageProcessing.js:84-101 | the dark gray (10, 10, 10) becomes 9, because expansion divides by 12.96 and compression multiplies by 12.92 |
| Color.Grayscale | 24-Perception/js/imageProcessing.js:92-108 | channels 0..2 of every pixel become the gray level of its old channels 0..2; channel 3 is untouched |
| Color.FilterColor | 24-Perception/js/imageProcessing.js:136-144 | every channel among 0..2 whose show flag is off becomes 0 in every pixel; all other samples are unchanged |
| Color.FilteredTwice | 24-Perception/js/imageProcessing.js:136-144 | filtering twice keeps exactly the channels both filters show |
| Color.IsolateColor | 24-Perception/js/imageProcessing.js:116-126 | channel 0, 1 or 2 is kept and the other two of 0..2 zeroed; any other channel number changes nothing |
| Color.IsolatedChannel | 24-Perception/js/imageProcessing.js:116-126 | after isolation the chosen channel keeps its value and the other colour channels are 0 |
| Color.Stretch | 24-Perception/js/imageProcessing.js:400 | the stretch expression maps min to targetMin and max to targetMax |
| Color.StretchMonotone | 24-Perception/js/imageProcessing.js:400 | for max > min and targetMax >= targetMin the stretch preserves order |
| Color.StretchRange | 24-Perception/js/imageProcessing.js:400 | values in [min, max] land in [targetMin, targetMax] |
| Color.StretchInverse | 24-Perception/js/imageProcessing.js:400 | stretching back from the target range undoes a stretch |
| Color.StretchColorRange | 24-Perception/js/imageProcessing.js:394-406 | channels 0..2 of every pixel are stretched from [min, max] to [targetMin, targetMax]; channel 3 is untouched |
| Color.MaxOf | 24-Perception/js/imageProcessing.js:379-381 | the reduce with Math.max returns an element that no element exceeds |
| Color.MinOf | 24-Perception/js/imageProcessing.js:382-384 | the reduce with Math.min returns an element that no element undercuts |
| Color.StretchColor | 24-Perception/js/imageProcessing.js:377-387 | stretches channels 0..2 with the minimum and maximum of the whole buffer, alpha included; fails and changes nothing exactly when the buffer is empty or all samples are equal |
| Color.StretchColorRangeBound | 24-Perception/js/imageProcessing.js:377-387 | after a successful stretchColor every colour sample lies in [targetMin, targetMax] |
| Util.Lerp | 24-Perception/js/util.js:141-143 | lerp gives start at delta 0 and from at delta 1 |
| Util.LerpBetween | 24-Perception/js/util.js:141-143 | for delta in [0, 1] the result lies between start and from |
| Util.LerpAffine | 24-Perception/js/util.js:141-143 | lerp moves by (from - start) per unit of delta |
| Util.Mag2d | 24-Perception/js/util.js:55-57 | Math.sqrt is only applied to a non-negative quantity, and to 0 for the zero vector |
| Util.Mag2dSymmetric | 24-Perception/js/util.js:55-57 | the magnitude ignores the order and the signs of the components |
| Util.Clamp | 24-Perception/js/util.js:171 | the clamped value lies in [0, 255]; values already inside are kept, values above 255 become 255 and values below 0 become 0 |
| Util.LineProfileExact | 24-Perception/js/util.js:170-171 | `floor(d/3*206)` clamped is `min(206*d/3, 255)` in integer division; 0 at distance 0, 255 from distance 4 on |
| Util.ThickProfileExact | 24-Perception/js/util.js:191-192 | 50 within distance 2, otherwise `min(40*d, 255)`; always in [0, 255] |
| Util.DiagonalProperties | 24-Perception/js/util.js:219-220 | 0 on the main diagonal, symmetric in (i, j), within [0, 255], and at least 100 off the diagonal |
| Util.GradientProperties | 24-Perception/js/util.js:233-234 | the ramp value is `min(10*j, 255)` clamped and never decreases along a row |
| Util.Paint | 24-Perception/js/util.js:166-179 | the shared row-major loop of the generators: channels 0..2 of every pixel get the pattern value; channel 3 is untouched |
| Util.CreateClear | 24-Perception/js/util.js:257-266 | channels 0..2 of every pixel become `color`; channel 3 is untouched |
| Util.CreateVerticalLine | 24-Perception/js/util.js:166-179 | channels 0..2 of every pixel get the line profile of its column around centerCol + offset; channel 3 is untouched |
| Util.CreateVerticalLineThick | 24-Perception/js/util.js:186-199 | channels 0..2 get the thick profile of the column; channel 3 is untouched |
| Util.CreateHorizontalLine | 24-Perception/js/util.js:201-213 | channels 0..2 get the line profile of the row around centerRow + offset; channel 3 is untouched |
| Util.CreateDiagonalLine | 24-Perception/js/util.js:215-227 | channels 0..2 get `min(100*abs(i-j), 255)`; channel 3 is untouched |
| Util.CreateLineGradient | 24-Perception/js/util.js:229-241 | channels 0..2 get the clamped ramp `10*j`, the same in every row; channel 3 is untouched |

## Left out

- Floating point: samples are exact reals. NaN, infinities and rounding are not modelled.
  - `Math.floor` is `.Floor` on reals.
  - `Math.pow(v, 2)` in `mag2d` is `v * v`.
- `Math.sqrt`, `Math.atan2` and `Math.pow` are parameters with no assumed properties.
  - The luminance formula of `grayscale` is kept but not analysed beyond the two gray-level lemmas.
  - Color.GammaExpand has no contract of its own: its power segment is Math.pow, a parameter, so
    only the linear segment is analysed (Color.GammaExpandLinear).
  - Gradients.FoldAngle's range is stated for atan2 results in [-pi, pi], the range of Math.atan2.
- Color.StretchColor: the source's reduce throws on an empty buffer, and its stretch produces NaN
  when every sample is equal. The model returns `false` and leaves the grid unchanged in both cases.
- Color.StretchColorRange: requires `max != min`. The source divides by zero there and writes NaN
  or infinities.
- Color.Grayscale: requires exactly four channels, the stride it hard-codes in its index
  `4*(width*i+j)`. With another channel count the source would read and write the wrong samples.
- Suppression.NonMaxSuppress: requires exactly four channels. The source reads both input grids
  through their own `getValue`, which uses each grid's own channel count. Only the result grid is
  built with a hard-coded 4 channels over a copy of the magnitudes, so with another channel count
  only its `setValue` writes land on the wrong samples.
- Convolution.UniformResponse: states the uniform response as the sum of scaled weights for any
  kernel. The closed form "value times the kernel sum" is proved only for the three fixed kernels
  (Kernels.SobelUniform, Kernels.GaussianUniform).
- Convolution.ResponseBounds: holds only for samples and padding in [0, 255], the range of colour
  levels.
- Gradients.ComputeGradients: requires a square grid. The source allocates `4*width*width` samples
  for each result grid, which matches the image's size only when height equals width; the demos
  pass square images.
- Gradients.ComputeGradients: requires sourceY to have the shape of sourceX. The source reads
  sourceY with its own shape and has no meaning otherwise.
- Not modelled:
  - `noisify`, which uses Math.random.
  - `GaussianFilter` and `gaussian`, floating-point kernel construction.
  - `createRadialGradient`, which needs sqrt of non-squares.
  - `divergingColormap` and `heatMapColorforValue`, which format colour strings.
  - The canvas drawing helpers, `readURL` (file I/O), and the UI and demo components.
