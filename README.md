# sciscripttools core, modelled in Dafny

This project models the computational core of a small scientific plotting toolkit and its CO2 scripts. All of it is sequential numeric and array logic.

- **Shared colour range** (`ScaleSync`, `LegacyPlot.ShareMinMaxData`). A group of two or three (x, y, z) series gets 2k off-screen sentinel points at (-1000, -1000). Every z array also gets min(z_j), max(z_j) of every series j. Afterwards each series reports the group-wide z range, and its own data is an unchanged prefix.
- **Array helpers** (`ArrayBounds`, `LogError`).
  - In-place clamping.
  - Filtering a series by a z window or by (possibly negative) indices.
  - The zero-guarded log relative error. Its guard on `a` fires only when `a` holds more than one zero, and it overwrites the caller's array.
- **Unit conversions and the CO2 saturation curve** (`UnitConversion`, `Co2`).
  - Kelvin to Fahrenheit and back, and psig to pascal.
  - The fifth-degree fit in Fahrenheit, and its composition into a kelvin-to-pascal curve, evaluated by a loop over temperatures.
  - The 25-point boundary sampled from the triple point to the critical point.
- **Plot decision logic** (`LegacyPlot`, `FigurePlot`).
  - Axis limits, histogram x limits, colour-bar aspects and selection, and histogram weight normalisation.
  - The figure-parameter record: loaded from a dictionary, exported and re-stored.
  - The LaTeX unit string, axes-argument normalisation, and subplot labels.
- **Smoothing report** (`Smoothing`).
  - A one-pole filter with factor 20, and the absolute and percentage error series.
  - Averages over the last 1000 samples, and a 0.035 s time grid.
  - A 15-wide moving average (numpy 'valid' convolution, including its argument swap for short input), and the settling time.

How the model represents the source:

- Python floats are Dafny `real`s, so all arithmetic is exact.
- `log10` is a function-valued parameter that the model does not interpret.
- numpy and Python exceptions become `Result.Failure` with an `Error` kind.
- Arrays the source changes in place are Dafny `array`s, and the methods that change them carry `modifies` clauses.
- Arrays the source rebuilds with `np.append` are values.
- The parameter record is a `class` whose constructor and `UpdateDictionary` set its fields.

Modelled behaviour worth knowing:

- `compute_log_percentage_error` leaves a lone zero of `a` in place, so that position comes out as +inf (`LogError.InfiniteExactlyAtLoneZero`).
- A failed JSON load in `figure_parameters` reaches a log call that names an undefined variable, so the constructor raises a NameError rather than the "Expecting a dictionary" exception (`FigurePlot.ResolveParameters`).
- Over the reals, the CO2 fit passes within 6 kPa of the critical point (`Co2.CurveMeetsCriticalPoint`). At the triple-point temperature, however, it gives a negative pressure (`Co2.CurveBelowZeroAtTriplePoint`). The plotted boundary therefore starts outside the fit's range.
- `add_min_max_points` and `add_min_max_points_3plots` append 2k sentinel points to each x and y (four for a pair, six for a triple), one per appended extremum (legacy_files/utility.py:36-50, 74-100).

## Model

| member | source | states |
|---|---|---|
| UnitConversion.KToF | legacy_files/utility.py:6-8 | converting the result back with convert_F_to_K returns the input temperature |
| UnitConversion.FToK | legacy_files/utility.py:10-12 | converting the result back with convert_K_to_F returns the input temperature |
| UnitConversion.KToFInvertsFToK | legacy_files/utility.py:6-12 | Fahrenheit to kelvin and back is the identity |
| UnitConversion.FreezingPoint | legacy_files/utility.py:6-12 | 273.15 K is 32 °F and 32 °F is 273.15 K |
| UnitConversion.PsigToPascal | legacy_files/utility.py:14-20 | the result times 14.503773800722 equals (psig + 14.696) times 100000 |
| UnitConversion.PsigToPascalIncreasing | legacy_files/utility.py:14-20 | the conversion is strictly increasing |
| UnitConversion.ZeroGaugeIsOneAtmosphere | legacy_files/utility.py:14-20 | 0 psig converts to between 101325 and 101325.5 Pa |
| ScaleSync.Extrema | legacy_files/utility.py:46-49 | what each z array receives: two values per series of the group, 2k in all |
| ScaleSync.ExtremaAt | legacy_files/utility.py:47-49 | entry 2j of the appended values is min(z_j) and entry 2j+1 is max(z_j) |
| ScaleSync.ExtremaBounds | legacy_files/utility.py:44-49 | the group-wide min and max occur among the appended extrema and bound all of them |
| ScaleSync.SharedRangeIsGroupRange | legacy_files/utility.py:44-49 | after synchronisation every series' z min and max equal the group-wide min and max |
| ScaleSync.SharedRangeKeepsData | legacy_files/utility.py:37-49 | each output array starts with its input unchanged; only sentinels follow the x and y data |
| ScaleSync.SharedRangeLengths | legacy_files/utility.py:78-90 | each x, y and z grows by exactly 2k, so equal lengths stay equal |
| ScaleSync.AppendSentinels | legacy_files/utility.py:39-41 | every coordinate array gets exactly `count` sentinels appended and nothing else |
| ScaleSync.ExtremaStep | legacy_files/utility.py:47-49 | one inner-loop turn appends min(z_j), max(z_j) and so extends the extrema of z_0..z_{j-1} to those of z_0..z_j |
| ScaleSync.AppendGroupExtrema | legacy_files/utility.py:47-49 | fails (np.min of an empty array) exactly when some input z is empty; otherwise the output followed by all extrema in order |
| ScaleSync.AppendExtrema | legacy_files/utility.py:46-49 | fails (np.min of an empty array) exactly when there is an output and some input z is empty; otherwise every output gets all extrema in order |
| ScaleSync.AddMinMaxPoints | legacy_files/utility.py:24-59 | fails exactly when z1 or z2 is empty; otherwise x and y get four -1000s and z gets min(z1), max(z1), min(z2), max(z2), which is the synchronised group |
| ScaleSync.AddMinMaxPoints3Plots | legacy_files/utility.py:61-104 | fails exactly when some z is empty; otherwise the result is the synchronised group of three (six sentinels, six extrema) |
| ScaleSync.TwoSeriesShareRange | legacy_files/utility.py:24-59 | z ranges [0, 10] and [5, 20] both become [0, 20] |
| ArrayBounds.Bounded | legacy_files/utility.py:107-114 | with lower <= upper every element ends in range, in-range elements are unchanged, values above become upper and below become lower; with upper < lower everything becomes lower |
| ArrayBounds.BoundedIdempotent | legacy_files/utility.py:111-112 | clamping twice is clamping once |
| ArrayBounds.BoundArray | legacy_files/utility.py:107-114 | returns the same array object, whose contents become the clamped old contents |
| ArrayBounds.InRangeIndices | legacy_files/utility.py:118 | exactly the positions with lower <= z <= upper, strictly ascending |
| ArrayBounds.Take | legacy_files/utility.py:119-121 | fancy indexing: fails exactly when some index is outside -n..n-1; otherwise element k is s at index k, negative indices counting from the end |
| ArrayBounds.BoundDataIndices | legacy_files/utility.py:125-131 | succeeds exactly when x, y and z all accept the indices, and returns the three selections |
| ArrayBounds.BoundData | legacy_files/utility.py:116-123 | an out-of-range index is the only failure; on success z keeps exactly its in-range values, in order, and x, y, z stay equally long |
| ArrayBounds.TakeInRangeIndices | legacy_files/utility.py:116-123 | selecting z at its in-range positions yields its in-range values in order |
| ArrayBounds.BoundDataKeepsInRangePoints | legacy_files/utility.py:116-123 | for equally long x, y, z: never fails, outputs are equally long, z output is the in-range values, and output k is input point i_k |
| ArrayBounds.BoundDataFailure | legacy_files/utility.py:116-123 | fails exactly when an in-range position of z lies past the end of x or y |
| LogError.ZeroCount | legacy_files/utility.py:155 | 0 exactly when no element is zero, and never more than the length |
| LogError.AbsoluteError | legacy_files/utility.py:151-152 | every entry positive: abs(a - b), or 1e-16 where a equals b |
| LogError.ZerosReplaced | legacy_files/utility.py:156 | no zeros remain; non-zeros unchanged; zeros become 1e-16 |
| LogError.AdjustedA | legacy_files/utility.py:154-156 | a unchanged when it holds at most one zero; otherwise zero-free with non-zeros unchanged |
| LogError.ErrorOf | legacy_files/utility.py:158 | for the positive guarded error: +inf exactly when the denominator is zero |
| LogError.LogPercentageError | legacy_files/utility.py:149-161 | output length equals input length |
| LogError.InfiniteExactlyAtLoneZero | legacy_files/utility.py:154-158 | position i is +inf exactly when a has one zero and it is at i |
| LogError.ExactMatchUsesEpsilon | legacy_files/utility.py:151-158 | where b equals a non-zero a, the result is log10(abs(1e-16 / a)) |
| LogError.EqualArraysGiveEpsilon | legacy_files/utility.py:149-161 | [1.0] against [1.0] gives log10(1e-16) |
| LogError.NotSymmetric | legacy_files/utility.py:158 | swapping a and b changes the result ([1],[2] gives log10(1), [2],[1] gives log10(0.5)) |
| LogError.AbsoluteErrorArray | legacy_files/utility.py:151-152 | a fresh array holding the guarded absolute error |
| LogError.ReplaceZeros | legacy_files/utility.py:156 | the array's zeros become 1e-16 in place, nothing else changes |
| LogError.ErrorArray | legacy_files/utility.py:158 | element k is log10 of abs(error / a) at k, or +inf where a is zero |
| LogError.ComputeLogPercentageError | legacy_files/utility.py:149-161 | different lengths fail with a unchanged; otherwise returns the log percentage error of the old arrays and leaves the caller's a adjusted |
| Co2.MolesPerKgValue | legacy_files/co2.py:8-11 | moles_per_kg times 44.01 is 1000 |
| Co2.TripleBelowCritical | legacy_files/co2.py:13-14 | the triple point is below the critical point in temperature and in pressure |
| Co2.SaturationPsiaIsHorner | legacy_files/co2.py:51-56 | the fifth-degree polynomial equals its Horner form |
| Co2.Co2VapourisationCondensationPressure | legacy_files/co2.py:49-58 | the gauge result plus one atmosphere is the absolute fit |
| Co2.VapourisationCondensationPressure | legacy_files/co2.py:61-65 | the ±14.696 cancel: result times 14.503773800722 is the absolute fit at the Fahrenheit temperature times 100000 |
| Co2.CurveMeetsCriticalPoint | legacy_files/co2.py:61-65 | at 304.25 K the curve lies between 7390000 and 7396000 Pa |
| Co2.CurveBelowZeroAtTriplePoint | legacy_files/co2.py:61-65 | at 216.55 K the curve is negative |
| Co2.VapourisationCondensationPressureLine | legacy_files/co2.py:67-74 | same length as the temperatures, element i is the curve at temperature i |
| Co2.BoundaryTemperatures | legacy_files/co2.py:78 | 25 temperatures from 216.55 to 304.25 inclusive |
| Co2.BoundaryTemperaturesIncrease | legacy_files/co2.py:78 | the boundary temperatures strictly increase and stay in [216.55, 304.25) before the last |
| Co2.VapourisationCondensationPressureBoundary | legacy_files/co2.py:76-79 | the plotted x are the 25 temperatures and y the curve at each |
| LegacyPlot.ShareMinMaxData | legacy_files/plot.py:92-113 | returns the caller's own list; length 2 or 3 is replaced by the synchronised group (failing, untouched, when a z is empty); any other length is untouched |
| LegacyPlot.SharePair | legacy_files/plot.py:97-102 | fails, leaving the list untouched, exactly when a z is empty; otherwise both slots hold the synchronised pair |
| LegacyPlot.ShareTriple | legacy_files/plot.py:104-111 | fails, leaving the list untouched, exactly when a z is empty; otherwise the three slots hold the synchronised triple |
| LegacyPlot.AxisLimits | legacy_files/plot.py:32-34 | x from 240 to max(x), y from 0 to max(y); fails on an empty array |
| LegacyPlot.SentinelsOutsideView | legacy_files/plot.py:30-34 | after synchronisation the sentinels lie left of and below the view, and the upper limits are those of the raw data |
| LegacyPlot.ErrorHistogramXLimits | legacy_files/plot.py:258-265 | lower is min(x); upper is strictly positive and above lower; it is max(x) when that is positive and more than 0.5 above min(x) |
| LegacyPlot.Aspects | legacy_files/plot.py:148-157 | each aspect is 15 or 30; normal is 15 exactly for 1 normal and 2 error plots, error is 15 exactly for 2 normal and 1 error plot |
| LegacyPlot.AspectsNeverBothShort | legacy_files/plot.py:148-157 | at most one colour bar is shortened |
| LegacyPlot.CbarFor | legacy_files/plot.py:159-165 | a colour bar exists exactly for a group with plots |
| LegacyPlot.Cbars | legacy_files/plot.py:176-182 | one or two entries drawn from cbar_n and cbar_e; cbar_n comes first and the list holds no 0 when cbar_n exists; each bar is listed exactly when it exists or the other does not |
| LegacyPlot.CbarsSelection | legacy_files/plot.py:159-182 | no normal plots gives [cbar_e]; else no error plots gives [cbar_n]; else both; with any plot the list holds no 0 and one entry per non-empty group; with none it is [0] |
| LegacyPlot.Normaliser | legacy_files/plot.py:203-206 | a non-zero n is kept; from 0 it stays 0 only while all arrays are empty; it is non-zero once the array in hand is non-empty |
| LegacyPlot.Weights | legacy_files/plot.py:208 | one weight per element, each weight times n is 1 |
| LegacyPlot.NormaliserStep | legacy_files/plot.py:203-206 | one loop turn: a zero n takes the length of the array in hand, a non-zero n is kept, and a non-empty array never meets n = 0 |
| LegacyPlot.HistogramWeightsAt | legacy_files/plot.py:203-208 | one weight per element of array i, each times the normaliser reached after array i being 1 |
| LegacyPlot.HistogramWeights | legacy_files/plot.py:196-208 | histogram i is weighted by the normaliser reached after array i, as HistogramWeightsAt states |
| LegacyPlot.FirstLengthNormalisesAll | legacy_files/plot.py:203-208 | with n = 0 and a non-empty first array, every histogram uses the first length and the first histogram's weights sum to 1 |
| Smoothing.Smoothed | sciscripttools/smoothing.py:14-21 | the filter output has the length of the data |
| Smoothing.SmoothData | sciscripttools/smoothing.py:14-21 | the loop produces the filter output |
| Smoothing.SmoothedRecurrence | sciscripttools/smoothing.py:14-18 | first output data[0]/20, then s_k = s_{k-1} + (data[k] - s_{k-1})/20 |
| Smoothing.StateBounded | sciscripttools/smoothing.py:18 | with data in [lo, hi] and lo <= 0 <= hi the state stays in [lo, hi] |
| Smoothing.SmoothedBounded | sciscripttools/smoothing.py:14-19 | every smoothed value stays in [lo, hi] under the same condition |
| Smoothing.ErrorSeries | sciscripttools/smoothing.py:25 | same length; error plus smoothed is the datum |
| Smoothing.PercentageSeries | sciscripttools/smoothing.py:26 | non-finite exactly when some datum is zero; otherwise value times datum is error times 100 |
| Smoothing.StableAverage | sciscripttools/smoothing.py:28-30 | nan exactly for an empty series (numpy only warns); otherwise the non-negative mean of the absolute values of the last 1000 samples |
| Smoothing.StableAverageBounded | sciscripttools/smoothing.py:28-30 | when the last 1000 samples lie within [-b, b], the stable average is at most b |
| Smoothing.TimeGrid | sciscripttools/smoothing.py:37-39 | num_samples points |
| Smoothing.TimeGridValues | sciscripttools/smoothing.py:37-39 | point i is 0.035 i |
| Smoothing.MovingAverage | sciscripttools/smoothing.py:42-44 | fails exactly for an empty operand; len(v) - w + 1 window means when v is long enough, else w - len(v) + 1 copies of sum(v)/w |
| Smoothing.MovingAverageOfConstant | sciscripttools/smoothing.py:42-48 | a constant signal averages to the constant |
| Smoothing.FirstBelow | sciscripttools/smoothing.py:50 | the smallest position below the threshold, or none exactly when there is no such position |
| Smoothing.GenerateSmoothedDataReport | sciscripttools/smoothing.py:8-50 | on success every series is its specification and the settling time is time[k] for the first qualifying k; fails exactly on empty data (np.convolve raises; the averages would be nan), a zero datum, or no usable k |
| Smoothing.SettlingTime | sciscripttools/smoothing.py:37-50 | the settling time is 0.035 k for the first window whose average is below the overall average |
| FigurePlot.ParameterKeysCount | sciscripttools/plot.py:97-120 | the record has 14 distinct keys |
| FigurePlot.LoadParameter | sciscripttools/plot.py:41-51 | the stored value, or None when the key is missing |
| FigurePlot.Reloaded | sciscripttools/plot.py:66-120 | the export of a record loaded from d has exactly the 14 keys, d's values where present and None elsewhere |
| FigurePlot.ReloadedIdempotent | sciscripttools/plot.py:97-125 | loading an export and exporting again changes nothing |
| FigurePlot.ReloadedFixedPoint | sciscripttools/plot.py:97-125 | a dictionary survives load and export exactly when its keys are the 14 parameter keys |
| FigurePlot.ResolveParameters | sciscripttools/plot.py:53-61 | a string whose load fails raises NameError; a loaded or given non-dictionary raises; a dictionary is used as it is |
| FigurePlot.FigureParameters.constructor | sciscripttools/plot.py:39-92 | stores the dictionary and loads each field from its key |
| FigurePlot.FigureParameters.CreateDictionary | sciscripttools/plot.py:97-120 | exactly the 14 keys, each with its field's value |
| FigurePlot.FigureParameters.UpdateDictionary | sciscripttools/plot.py:122-125 | the stored dictionary becomes the export of the fields, nothing else changes, returns 0 |
| FigurePlot.ExportReloads | sciscripttools/plot.py:97-125 | a record built from its own export has the same fields |
| FigurePlot.NewFigureParameters | sciscripttools/plot.py:39-92 | fails exactly as the argument resolution does; otherwise a new record over the resolved dictionary |
| FigurePlot.AsList | sciscripttools/plot.py:242-245 | a single axes object becomes a one-element list, a sequence is kept |
| FigurePlot.Label | sciscripttools/plot.py:275 | three characters with the letter in the middle |
| FigurePlot.SubplotLabelTexts | sciscripttools/plot.py:270-275 | fails exactly beyond six axes; label i is "(" + alphabet[i] + ")" |
| FigurePlot.SubplotLabelsDistinct | sciscripttools/plot.py:270-275 | no two subplots share a label |
| FigurePlot.StandardFigure.constructor | sciscripttools/plot.py:193-210 | the axes are stored as a list, the record as given |
| FigurePlot.StandardFigure.ArgumentAxes | sciscripttools/plot.py:234-247 | None gives the figure's axes; a single object is wrapped; a sequence is returned unchanged |
| FigurePlot.StandardFigure.ArgumentAxesIdempotent | sciscripttools/plot.py:234-247 | passing the result back in changes nothing |
| FigurePlot.StandardFigure.LatexUnit | sciscripttools/plot.py:345-359 | no unit gives "" whatever the brackets; otherwise round or square wrapping of \si{unit}, anything else raises; None brackets means the record's |
| FigurePlot.LatexUnitRecoverable | sciscripttools/plot.py:354-357 | the unit can be read back from the string, and character 6 shows the bracket style |
| FigurePlot.StandardFigure.SubplotLabels | sciscripttools/plot.py:258-283 | fails exactly beyond six selected axes; the labels of the selected axes, with the offsets defaulting to the record's |
| FigurePlot.StandardFigure.SubplotLabelsRight | sciscripttools/plot.py:285-305 | fails exactly beyond six axes; the labels of all axes, with the right-hand offsets defaulting to the record's |
| FigurePlot.NewStandardFigure | sciscripttools/plot.py:193-210 | a record is used as it is, a dictionary becomes a new record, anything else raises |

## Left out

- All matplotlib rendering is not modelled:
  - scatter, colour bars, histograms, text, limits and label calls, arrows and the 3-D critical planes;
  - `scatter_n_separate`, `scatter_3d`, `fit_analysis`, `set_titles`, `set_cbar_labels`, `add_vertical_line_with_text`;
  - `standard_font`, `FixedOrderFormatter`, `standard_size`, `standard_axes_ticks`, `standard_legend`, `reduce_axes_clutter`, `standard_size_adjust`, and the `xlabel`/`ylabel` wrappers.
  These are calls into a plotting library the model cannot see. Only the values they are given are modelled.
- `add_zone` (legacy_files/utility.py:135-147) only draws a rectangle and a text, so it is not modelled.
- JSON file reading in `figure_parameters`, `save_data` and the `.io` and `.plot_defaults` modules are not part of this model. The parsed file content is the `loaded` parameter. The default `fig_params_report` must be passed explicitly.
- `log10`, `np.average` and `np.std` are not modelled as floating-point operations: `log10` is an uninterpreted parameter, and averages are exact means over the reals. IEEE rounding is not modelled.
- The boundary curve's monotonicity is an empirical property of the fitted coefficients, so it is not stated.
- LogError.ComputeLogPercentageError: arrays of different lengths always fail. numpy would broadcast a length-1 operand; that case is not modelled.
- Smoothing.PercentageSeries: a zero datum gives the failure `NonFinite`. numpy would instead carry inf or NaN on into the averages and the moving average.
- Smoothing.GenerateSmoothedDataReport: the model stops at the settling time. The standard deviation, the prints and the plotting tail (sciscripttools/smoothing.py:52-90, which names the undefined `st` and `standard_deviation`) are not modelled.
- FigurePlot.StandardFigure.ArgumentAxes: the absent argument is an `Option`. The source's `axes == None` test on a numpy array of axes compares element-wise; that is not modelled.
- FigurePlot.StandardFigure.SubplotLabels: the source draws the first six labels before it fails on a seventh axis. The model returns only the failure.
- LegacyPlot.ShareMinMaxData: the caller's list is an array whose slots are replaced in place. The x, y and z arrays inside each slot are values, because `np.append` never changes them.
