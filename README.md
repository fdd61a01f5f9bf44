# reviutils, modelled in Dafny

This project models the core of `reviutils`, a Python toolbox for Chinese
environmental-noise reporting and map making. It covers these parts:

- **Coordinate conversion** (`reviutils/gis`). Four coordinate reference systems: WGS84, GCJ02, BD09 and MapBar.
  - Five elementary transforms and the out-of-China guard.
  - The router `_Convertor`. It maps an ordered pair of systems to a path of transforms and folds that path over one point or over a batch.
  - The module-level converter with its nine registrations.
  - `Location.convert_to`.
- **Shared helpers** (`reviutils/common`):
  - `grade`, a `bisect_left` over breakpoints;
  - `get_passrate`;
  - the banker's rounding `round_half_even`.
- **Noise pollution** (`reviutils/noisepollution`, `src/noisepollution`):
  - `is_daytime` with its single dispatch on int, float, bool, datetime and string;
  - `get_evaluation`, which grades a level against the HJ 640-2012 tables;
  - the GB 3096-2008 functional areas and `get_func_area_info`;
  - the decision logic of `calc_Leq`, `calc_Lt`, `calc_Ldn` and `calc_PSL`.
- **Map objects** (`reviutils/omap`):
  - the argument checks of `Polyline`;
  - the folder tree built by `FolderDetail.add_child` and `Folder.add_child`;
  - `obj_to_json`;
  - `ItemManager`.
- **Audio** (`audio/clipper.py`):
  - clipping by sample positions and by times;
  - `rand_clip`, which crops a long signal at a random start or zero-pads a short one.

## How the Python is modelled

Each source file is one module. `PyCore` holds the Python semantics they share:

- The exceptions the code raises are values of `Error`.
- A call that can raise returns `Result`.
- `int()` on a float is `Trunc`, which truncates toward zero.
- `x % m` on floats is `FloatMod`, whose result takes the sign of the modulus.
- Floats are `real`s.

Pure code stays functional. Code that updates things in place is written as classes with `modifies` frames:

- the `_Convertor` registry;
- the `ParentID` of an item;
- a folder's child list;
- the list an `ItemManager` shares with its caller.

Loops in the source are methods with invariants, each proved equal to a specification function:

- `transform` and `transform_batch`;
- the percentile loop of `calc_PSL`;
- the recursion and loops of `obj_to_json`;
- the padding of `rand_clip`.

Behaviour of the code worth noting:

- **MapBar sign term.** `_mapbar_to_wgs84` rebinds `lng` and `lat` to their reduced values (`reviutils/gis/convertor.py:51-52`) before it picks the `±1` term (`:55-56`). The reduced value is never negative, so the term is `+1` unless that value is exactly 0.
- **Missing registry entry.** `transform` and `transform_batch` raise `ValueError` for a pair with no registered path (`:118`, `:127`).
- **Empty batch.** A batch with no pairs along a non-empty path raises while it unpacks the empty result of a stage (`:129`).
- **Integer hours.** `is_daytime` on an int outside `0..23` raises `AssertionError`. The message it carries is a `ValueError` instance (`reviutils/noisepollution/hourhelper.py:19`).

Things taken as parameters:

- The math-library functions (`sin`, `cos`, `sqrt`, `atan2`) and the GCJ02 ellipsoid offset are fields of `GisConvertor.MathLib`.
- The numerics of the sound levels (energy mean, energy sum, quantile) are fields of `SplHelper.LevelMath`.
- The hour that `strptime` parses from a string is part of `HourHelper.TimeArg`.
- The random start drawn by `np.random.randint` is a parameter of `AudioClipper.RandClip`, constrained to the range `randint` draws from.
- The random id and the timestamp of a map item are constructor arguments.

## Model

| member | source | states |
|---|---|---|
| GisConvertor.EpsgCodesDistinct | reviutils/gis/convertor.py:5-9 | distinct systems carry distinct EPSG codes, so the enum has no aliases |
| GisConvertor.OutOfChina | reviutils/gis/convertor.py:41-47 | true exactly when the longitude is outside [72.004, 137.8437] or the latitude outside [0.8293, 55.8271] |
| PyCore.FloatMod | reviutils/gis/convertor.py:51-52 | Python float `%` with a positive modulus lands in [0, m) |
| GisConvertor.MapBarReduce | reviutils/gis/convertor.py:51-52 | both scaled coordinates reduce into [0, 36000000) |
| GisConvertor.MapBarToWgs84 | reviutils/gis/convertor.py:50-58 | definition over the abstract `MathLib`: reduce, run the two truncated passes (`MapBarPasses`), scale back by 1e-5; no contract of its own, its properties are `MapBarSignTerm`, `MapBarPeriodicInLng` and `MapBarOnGrid` |
| GisConvertor.MapBarSignTerm | reviutils/gis/convertor.py:55-56 | the ±1 correction is -1 only when the reduced coordinate is exactly 0 and +1 otherwise, whatever the sign of the input |
| GisConvertor.FloatModShift | reviutils/gis/convertor.py:51 | adding a whole multiple of the modulus does not change `%` |
| GisConvertor.MapBarPeriodicInLng | reviutils/gis/convertor.py:50-58 | the MapBar transform gives the same point for longitudes 360 degrees apart |
| GisConvertor.MapBarOnGrid | reviutils/gis/convertor.py:53-57 | over reals, the result lies on the 1e-5 degree grid (integers divided by 100000) |
| GisConvertor.Wgs84ToGcj02 | reviutils/gis/convertor.py:61-73 | definition over the abstract `MathLib`, whose `gcjOffset` stands for the ellipsoid offset; no contract of its own, its properties are `GcjIdentityOutsideChina` and `GcjOppositeOffsets` |
| GisConvertor.Gcj02ToWgs84 | reviutils/gis/convertor.py:76-88 | definition over the abstract `MathLib`; no contract of its own, its properties are `GcjIdentityOutsideChina` and `GcjOppositeOffsets` |
| GisConvertor.GcjIdentityOutsideChina | reviutils/gis/convertor.py:61-78 | outside the box both WGS84-to-GCJ02 and GCJ02-to-WGS84 return the input unchanged |
| GisConvertor.GcjOppositeOffsets | reviutils/gis/convertor.py:64-87 | inside the box the two directions add and subtract the same offset computed at the input point |
| GisConvertor.Gcj02ToBd09 | reviutils/gis/convertor.py:91-95 | definition over the abstract `MathLib`: the polar perturbation `Perturbed` with sign +1, then the offset (0.0065, 0.006); no property is claimed of it alone |
| GisConvertor.Bd09ToGcj02 | reviutils/gis/convertor.py:98-103 | definition over the abstract `MathLib`: the offset removed, then `Perturbed` with sign -1; no property is claimed of it alone |
| GisConvertor.BdOppositePerturbations | reviutils/gis/convertor.py:91-103 | BD09 to GCJ02 undoes the offset exactly, so the round trip is the forward perturbation followed by the backward one |
| GisConvertor.RunAppend | reviutils/gis/convertor.py:119-120 | folding a concatenated path equals folding the second part over the result of the first |
| GisConvertor.Register | reviutils/gis/convertor.py:109-112 | the entry for (from, to) becomes the given list, or a one-element list for a single function; every other entry is unchanged |
| GisConvertor.Convertor.constructor | reviutils/gis/convertor.py:106-107 | a new converter has an empty registry |
| GisConvertor.Convertor.AddTransform | reviutils/gis/convertor.py:109-112 | the registry afterwards is `Register` of the old one (last write wins) |
| GisConvertor.Convertor.Transform | reviutils/gis/convertor.py:114-121 | the loop returns exactly `Converted`: identity for equal systems, ValueError for an unregistered pair, else the path folded in order |
| GisConvertor.ConvertedIdentity | reviutils/gis/convertor.py:115-116 | converting a point to its own system returns it unchanged, registered or not |
| GisConvertor.ConvertedFailsIffUnregistered | reviutils/gis/convertor.py:117-118 | conversion fails exactly when the systems differ and no path is registered, and the error is ValueError |
| GisConvertor.ConvertedAfterRegister | reviutils/gis/convertor.py:109-121 | after registering a path for a pair of different systems, converting along that pair runs exactly that path |
| GisConvertor.Zip | reviutils/gis/convertor.py:125 | `zip` pairs elements position by position up to the shorter length |
| GisConvertor.RunBatchPointwise | reviutils/gis/convertor.py:128-130 | a batch run fails exactly when a non-empty path meets no pairs; otherwise each output pair is the scalar run on the matching input pair |
| GisConvertor.BatchMatchesScalar | reviutils/gis/convertor.py:123-130 | a successful batch has one result per zipped pair, in input order, each equal to the scalar conversion |
| GisConvertor.BatchFailsIff | reviutils/gis/convertor.py:123-130 | the batch fails exactly for an unregistered pair of different systems, or when no pairs meet a non-empty registered path |
| GisConvertor.Convertor.TransformBatch | reviutils/gis/convertor.py:123-130 | the loop returns exactly `BatchConverted` |
| GisConvertor.NewDefaultConvertor | reviutils/gis/convertor.py:137-150 | after its nine registrations the module-level converter holds exactly the default registry |
| GisConvertor.DefaultGraphIsTable | reviutils/gis/convertor.py:140-150 | the default registry holds exactly the table of direct and composed paths, and nothing for any other pair |
| GisConvertor.RegistrationsAreTable | reviutils/gis/convertor.py:140-150 | the nine registrations, made in source order, leave exactly the table's paths registered |
| GisConvertor.LookupsDetermineGraph | reviutils/gis/convertor.py:107-112 | two registries with the same source systems, no empty inner dictionary and the same lookups are the same dictionary |
| GisConvertor.TableDeterminesGraph | reviutils/gis/convertor.py:107-112 | any registry whose lookups match the table is the default registry |
| GisConvertor.RegistrationsBuildDefault | reviutils/gis/convertor.py:140-150 | the nine registrations build exactly the default registry, as a dictionary |
| GisConvertor.DefaultUnregistered | reviutils/gis/convertor.py:140-150 | between different systems, a pair is unregistered exactly when it targets MapBar |
| GisConvertor.DefaultPathsChain | reviutils/gis/convertor.py:140-150 | every registered path starts at its source system, links stage to stage, and ends at its target |
| GisConvertor.DefaultConverted | reviutils/gis/convertor.py:114-150 | with the default registry, a registered pair of different systems runs its tabled path |
| GisConvertor.DirectEdge | reviutils/gis/convertor.py:114-121 | a pair of different systems whose default path is one function converts by applying that function |
| GisConvertor.DefaultMapBarToWgs84 | reviutils/gis/convertor.py:140 | MapBar to WGS84 applies the MapBar transform |
| GisConvertor.DefaultWgs84ToGcj02 | reviutils/gis/convertor.py:141 | WGS84 to GCJ02 applies the WGS84-to-GCJ02 transform |
| GisConvertor.DefaultGcj02ToWgs84 | reviutils/gis/convertor.py:142 | GCJ02 to WGS84 applies the GCJ02-to-WGS84 transform |
| GisConvertor.DefaultGcj02ToBd09 | reviutils/gis/convertor.py:143 | GCJ02 to BD09 applies the GCJ02-to-BD09 transform |
| GisConvertor.DefaultBd09ToGcj02 | reviutils/gis/convertor.py:144 | BD09 to GCJ02 applies the BD09-to-GCJ02 transform |
| GisConvertor.DefaultMapBarToGcj02 | reviutils/gis/convertor.py:147 | MapBar to GCJ02 is MapBar to WGS84 followed by WGS84 to GCJ02 |
| GisConvertor.DefaultMapBarToBd09 | reviutils/gis/convertor.py:148 | MapBar to BD09 is the three elementary transforms in order |
| GisConvertor.DefaultWgs84ToBd09 | reviutils/gis/convertor.py:149 | WGS84 to BD09 goes through GCJ02 |
| GisConvertor.DefaultBd09ToWgs84 | reviutils/gis/convertor.py:150 | BD09 to WGS84 goes through GCJ02 |
| GisConvertor.DefaultComposedIsChained | reviutils/gis/convertor.py:146-150 | every composed entry equals converting step by step through the intermediate systems |
| GisConvertor.DefaultWgs84ToGcj02OutsideChina | reviutils/gis/convertor.py:141-142 | with the default registry a point outside China converts between WGS84 and GCJ02 unchanged, in both directions |
| GisMain.ConvertTo | reviutils/gis/main.py:10-12 | the result carries the target system and the converter's coordinates, or the converter's ValueError |
| GisMain.ConvertToSelf | reviutils/gis/main.py:10-12 | converting a location to its own system returns an equal location |
| GisMain.ConvertToFailsIff | reviutils/gis/main.py:10-12 | conversion fails exactly when a location is sent to MapBar from another system |
| GisMain.ConvertToChains | reviutils/gis/main.py:10-12 | MapBar to GCJ02 and then to BD09 equals MapBar to BD09 directly |
| Common.BisectLeft | reviutils/common/__init__.py:32 | the insertion point lies between `lo` and `hi` |
| Common.CountBelow | reviutils/common/__init__.py:32 | the count of entries below the score never exceeds the length |
| Common.BisectLeftSplits | reviutils/common/__init__.py:32 | on sorted breakpoints everything before the insertion point is below the score and everything from it on is at least the score |
| Common.SplitIsCount | reviutils/common/__init__.py:32 | a position that splits a sorted sequence that way is the number of entries below the score |
| Common.BisectLeftIsCount | reviutils/common/__init__.py:32 | on sorted breakpoints `bisect_left` equals the number of breakpoints strictly below the score |
| Common.CountBelowMonotone | reviutils/common/__init__.py:32 | a higher score has at least as many breakpoints below it |
| Common.Grade | reviutils/common/__init__.py:14-33 | the grade at the insertion point, and IndexError exactly when that point is past the end of `grades` |
| Common.GradeSorted | reviutils/common/__init__.py:32-33 | on sorted breakpoints the grade is the one indexed by the number of breakpoints below the score |
| Common.GradeTotal | reviutils/common/__init__.py:32-33 | with more grades than breakpoints grading never raises |
| Common.GradeMonotone | reviutils/common/__init__.py:32-33 | a higher score never gets an earlier grade |
| Common.GradeExamples | reviutils/common/__init__.py:26-30 | 75 on 60/70/80/90 with grades EDCBA is C; a score on a breakpoint takes the lower grade |
| Common.GetPassrate | reviutils/common/__init__.py:35-56 | the replacement exactly when the total is 0 or, with `check_pass`, the pass count is 0; otherwise the percentage times the total equals 100 times the pass count |
| Common.PassrateExamples | reviutils/common/__init__.py:45-51 | 10 of 20 is 50%, 0 of 20 is 0%, and 0 of 20 with `check_pass` is the replacement |
| Common.NearestEven | reviutils/common/__init__.py:111 | the nearest integer, within 1/2, and even on a tie |
| Common.NearestEvenUnique | reviutils/common/__init__.py:111 | any integer closer than 1/2, or an even one at exactly 1/2, is the nearest-even integer |
| Common.RoundHalfEven | reviutils/common/__init__.py:96-113 | the result is the multiple of the quantum whose index is the nearest-even integer to value/quantum; the quantum of `Decimal(f'{10**(-p)}')` (`:111`) is 1 for p <= 0, 10^-p up to p = 323, and 0.1 once the float underflows to 0.0; `'-'` exactly when that index needs more than 28 digits or when p <= -4300, where `10**(-p)` has more digits than `str()` converts by default (4300) |
| Common.RoundHalfEvenWithinHalfQuantum | reviutils/common/__init__.py:111 | a rounded value lies within half a quantum of the value |
| Common.NearestMultipleIndex | reviutils/common/__init__.py:111 | a multiple k·q nearer to the value than q/2, or at exactly q/2 with k even, has index `NearestEven(value/q)`, so it is the multiple `RoundHalfEven` returns |
| Common.CoefficientLimitIsPower | reviutils/common/__init__.py:111 | the limit on the quantized coefficient is 10^28, the default context's 28 digits |
| Common.RoundHalfEvenExamples | reviutils/common/__init__.py:106-113 | 3.141592653589793 to two places is 3.14, ties go to the even digit, and precision -4300 gives `'-'` where -4299 still rounds |
| HourHelper.Range | reviutils/noisepollution/hourhelper.py:9-10 | `range(lo, hi)` holds exactly the integers in [lo, hi) |
| HourHelper.RangeSize | reviutils/noisepollution/hourhelper.py:9-10 | `range(lo, hi)` holds `hi - lo` integers |
| HourHelper.IsDaytime | reviutils/noisepollution/hourhelper.py:13-41 | int: AssertionError outside 0..23, else daytime iff 6..21; float: the same on `int(f)`; bool: itself; datetime: hour in 6..21; string: ValueError when unparsable, else its hour's rule; any other type: NotImplementedError |
| HourHelper.FloatHourAccepted | reviutils/noisepollution/hourhelper.py:30-33 | a float hour is accepted exactly in (-1, 24), since `int()` truncates toward zero |
| HourHelper.SixteenDayHours | reviutils/noisepollution/hourhelper.py:9-20 | the daytime clock hours are exactly `range(6, 22)`, sixteen of them |
| HourHelper.DispatchAgrees | reviutils/noisepollution/hourhelper.py:17-37 | a parsed string, a datetime, an int and a whole float for the same hour are judged alike |
| Evaluation.TablesWellFormed | src/noisepollution/evaluation.py:12-24 | every breakpoint table has four sorted entries and every result type five labels |
| Evaluation.LabelIndex | src/noisepollution/evaluation.py:43 | the label index is at most 4, so it always names a label |
| Evaluation.GetEvaluation | src/noisepollution/evaluation.py:26-43 | raises exactly what `is_daytime` raises; otherwise the label indexed by the number of breakpoints below the value in the day or night table |
| Evaluation.EvaluationIsLabel | src/noisepollution/evaluation.py:42-43 | for any accepted time the result is one of the five labels |
| Evaluation.EvaluationMonotone | src/noisepollution/evaluation.py:43 | a louder value never gets a better label |
| Evaluation.QuietGetsFirstLabel | src/noisepollution/evaluation.py:43 | a value at or below the first breakpoint gets the first label |
| Evaluation.EvaluationExamples | src/noisepollution/evaluation.py:36-40 | 70 dB at noon is 二级 on the traffic scale and 差 on the regional scale |
| FuncArea.TableFacts | reviutils/noisepollution/funcarea.py:18-25 | every area appears once, the ids are 30 to 35 in order, and no night limit exceeds its day limit |
| FuncArea.IdsOfTable | reviutils/noisepollution/funcarea.py:20-25 | some area has a given id exactly when it is between 30 and 35 |
| FuncArea.FindByName | reviutils/noisepollution/funcarea.py:51-53 | the position of the first area whose display name or member name matches, or none when no area matches |
| FuncArea.FindById | reviutils/noisepollution/funcarea.py:58-60 | an area with the given id, or none when no area has it |
| FuncArea.GetFuncAreaInfo | reviutils/noisepollution/funcarea.py:27-66 | a name succeeds iff some area matches it; an id iff it is 30..35, returning that id; a member returns its own info; ValueError for an unknown name or id; NotImplementedError for any other type |
| FuncArea.NameLookup | reviutils/noisepollution/funcarea.py:49-53 | a string that is an area's display name or member name returns that area's info |
| FuncArea.NameMatchesUnique | reviutils/noisepollution/funcarea.py:18-25 | no string is the display name or member name of two different areas |
| FuncArea.FindByIdFinds | reviutils/noisepollution/funcarea.py:58-60 | searching any list that holds an area for the area's id finds that area |
| FuncArea.FindInTable | reviutils/noisepollution/funcarea.py:56-61 | searching the table for an area's id finds that area |
| FuncArea.IdLookupUnique | reviutils/noisepollution/funcarea.py:56-61 | looking up an area's id returns that area's info |
| FuncArea.AreaIdInjective | reviutils/noisepollution/funcarea.py:20-25 | different functional areas carry different ids |
| FuncArea.NameLookupExample | reviutils/noisepollution/funcarea.py:37-40 | "F0" and "0类" both find area F0 |
| FuncArea.UnknownNameExample | reviutils/noisepollution/funcarea.py:49-54 | a name that is neither a display name nor a member name raises ValueError |
| FuncArea.IdLookupExamples | reviutils/noisepollution/funcarea.py:41-44 | id 31 finds F1, the member F2 gives its own info, and id 36 raises ValueError |
| SplHelper.CalcLeq | reviutils/noisepollution/splhelper.py:11-37 | `None` exactly for an empty series; otherwise the rounded equivalent level |
| SplHelper.CalcLt | reviutils/noisepollution/splhelper.py:91-116 | `"-"` exactly for an empty series; otherwise the rounded summed level |
| SplHelper.InvalidHours | reviutils/noisepollution/splhelper.py:58-59 | empty exactly when every hour is in 0..23; each reported hour is out of range and comes from the input |
| SplHelper.Keep | reviutils/noisepollution/splhelper.py:67-70 | the kept rows come from the input and carry the requested day flag |
| SplHelper.LdnInput | reviutils/noisepollution/splhelper.py:72 | the day levels in order, then each night level raised by 10 |
| SplHelper.CalcLdn | reviutils/noisepollution/splhelper.py:39-89 | raises for out-of-range hours (reporting them) before comparing lengths; empty input passes both checks and raises KeyError('Leq') (`NoLeqColumn`), because the empty `IsDay` column is no boolean mask; otherwise Ld, Ln and Ldn are the rounded levels of the day rows, the night rows and the Ldn input, and the returned hour and level lists are those rows' |
| SplHelper.KeepAppend | reviutils/noisepollution/splhelper.py:67-70 | splitting a concatenation gives the concatenated splits, so input order is kept |
| SplHelper.KeepPartitions | reviutils/noisepollution/splhelper.py:67-70 | the day and night rows together hold every input row exactly once |
| SplHelper.KeepClassifies | reviutils/noisepollution/splhelper.py:67-70 | for validated hours, day rows have hours 6..21 and night rows the rest of 0..23 |
| SplHelper.LdnInputCoversAll | reviutils/noisepollution/splhelper.py:65-72 | the Ldn input has one value per input row |
| SplHelper.HourCheckFirst | reviutils/noisepollution/splhelper.py:58-63 | an out-of-range hour is reported even when the lengths also differ; valid hours with unequal lengths report both lengths |
| SplHelper.Digits | reviutils/noisepollution/splhelper.py:141 | the decimal digits of a natural number: at least one, all digits, two or more exactly from 10 on |
| SplHelper.DigitsInjective | reviutils/noisepollution/splhelper.py:141 | different numbers print differently |
| SplHelper.IntString | reviutils/noisepollution/splhelper.py:141 | `str(n)` starts with a minus sign exactly for negative `n` |
| SplHelper.Key | reviutils/noisepollution/splhelper.py:141 | `f'L{percent}'` is "L" followed by the printed percentage |
| SplHelper.KeyInjective | reviutils/noisepollution/splhelper.py:141 | different percentages get different keys |
| SplHelper.KeyIndex | reviutils/noisepollution/splhelper.py:141 | the position of a key in the dictionary, or its size exactly when the key is absent |
| SplHelper.Store | reviutils/noisepollution/splhelper.py:141 | assigning to an existing key keeps the key order; a new key goes last |
| SplHelper.LookupStore | reviutils/noisepollution/splhelper.py:141 | after an assignment the key maps to the new value and every other key to its old one, and keys stay distinct |
| SplHelper.LookupUpdate | reviutils/noisepollution/splhelper.py:141 | replacing the value at a key's position changes the lookup of that key only |
| SplHelper.CalcPsl | reviutils/noisepollution/splhelper.py:118-144 | `None` for an empty series; otherwise the loop returns exactly the outcome of running the percentages in order |
| SplHelper.PslStaysFailed | reviutils/noisepollution/splhelper.py:139-140 | once a percentage fails its assertion the whole call fails with that error |
| SplHelper.PslFailsIff | reviutils/noisepollution/splhelper.py:139-140 | the call raises exactly when some percentage lies outside (0, 100), and the error is AssertionError |
| SplHelper.PslKeys | reviutils/noisepollution/splhelper.py:136-142 | for valid percentages the keys are their first occurrences in order, distinct, and each key holds the rounded quantile at `1 - p/100` |
| SplHelper.DefaultKeyStrings | reviutils/noisepollution/splhelper.py:118 | the default percentages 10, 50 and 90 print as L10, L50 and L90 |
| SplHelper.ThreePercentKeys | reviutils/noisepollution/splhelper.py:136-142 | three distinct valid percentages give their three keys in order |
| SplHelper.DefaultPercentKeys | reviutils/noisepollution/splhelper.py:118-142 | the default call yields the keys L10, L50 and L90 in that order |
| OmapSamples.NewPolyline | reviutils/omap/samples/main.py:90-127 | an odd coordinate count raises ValueError; a count outside the type's bounds raises AssertionError; a bad line width or alpha raises ValidationError; otherwise the fields are kept |
| OmapSamples.PolylineAcceptedIff | reviutils/omap/samples/main.py:105-113 | a polyline is built exactly when all checks pass, and then it has between `length_min` and `length_max` points |
| OmapSamples.OddCountBeforeBounds | reviutils/omap/samples/main.py:105-107 | the parity check comes before the bounds check |
| OmapSamples.ConvertRoundTrip | reviutils/omap/samples/main.py:14-28 | erasing the conversion gives back the object view: nothing is lost or reordered |
| OmapSamples.ConvertKeys | reviutils/omap/samples/main.py:15-27 | the result has the object's attribute names, in order |
| OmapSamples.ConvertLeavesNoRawModel | reviutils/omap/samples/main.py:17-25 | every model reached through attributes, or directly as a list element, is converted; only a list inside a list is copied as it is |
| OmapSamples.NestedListCopied | reviutils/omap/samples/main.py:19-25 | a list inside a list is copied as it is, without converting the models inside it |
| OmapSamples.ObjToJson | reviutils/omap/samples/main.py:14-28 | the recursive loops return exactly the reference conversion `Convert` |
| OmapSamples.FolderDetail.constructor | reviutils/omap/samples/main.py:239 | a new folder detail has no children |
| OmapSamples.FolderDetail.Child | reviutils/omap/samples/main.py:263-265 | the number of children; no contract of its own, `FolderDetail.AddChild` states how it grows |
| OmapSamples.FolderDetail.AddChild | reviutils/omap/samples/main.py:267-274 | appends the item, or the items of nested lists in order, up to the first unsupported value; NotImplementedError exactly when there is one; `Child` grows by the number appended |
| OmapSamples.FlattenPrefixStops | reviutils/omap/samples/main.py:268-274 | once an element raises, later elements add nothing |
| OmapSamples.NestedListFlattens | reviutils/omap/samples/main.py:268-272 | a nested list adds its items in depth-first order |
| OmapSamples.UnsupportedKeepsEarlier | reviutils/omap/samples/main.py:268-274 | items before an unsupported value stay appended when it raises |
| OmapSamples.Item.constructor | reviutils/omap/samples/Base.py:24-34 | the item holds the given id, parent, type, object and timestamp |
| OmapSamples.Item.View | reviutils/omap/samples/Base.py:30-34 | the item's attribute dictionary has its five attributes |
| OmapSamples.FirstRefusing | reviutils/omap/samples/main.py:294-296 | the position of the first list element whose `ParentID` cannot be set, or the length when there is none |
| OmapSamples.AssignedAreTop | reviutils/omap/samples/main.py:294-298 | the items given a new parent are among the items named at the top level of the argument, and are all of them when nothing refuses |
| OmapSamples.RefusedError | reviutils/omap/samples/main.py:294-298 | the exception is that of the argument itself, or of the first list element that refuses `ParentID` |
| OmapSamples.RefusalErrors | reviutils/omap/samples/main.py:294-298 | a pydantic model refuses with ValueError, alone or after accepted items in a list; a nested list before it refuses first, with AttributeError |
| OmapSamples.Item.AddChild | reviutils/omap/samples/main.py:293-300 | sets the parent of the child or of each list element up to the first one that refuses, and then raises that value's error (AttributeError for a list or a built-in, ValueError for a pydantic model such as a `FolderDetail`) with the folder unchanged; otherwise the folder's detail appends as `FolderDetail.add_child` does and the folder itself is returned |
| OmapManager.ItemManager.constructor | reviutils/omap/__init__.py:5-9 | no list gives a fresh empty list; a given list is held itself, not a copy |
| OmapManager.ItemManager.Len | reviutils/omap/__init__.py:14-15 | the number of held items; no contract of its own, `ItemManager.AddItem` and `ItemManager.SavedPayload` state how it grows and that the payload has that many entries |
| OmapManager.ItemManager.AddItem | reviutils/omap/__init__.py:11-15 | the item is appended, the length grows by one, and the saved payload gains its conversion at the end |
| OmapManager.ItemManager.SavedPayload | reviutils/omap/__init__.py:23-25 | version V9.9.3, type 1, one converted item per held item in order, each of which erases back to the item |
| OmapManager.ItemManager.SaveOvjsn | reviutils/omap/__init__.py:17-25 | the loop builds exactly the saved payload |
| OmapManager.SharedListGrows | reviutils/omap/__init__.py:5-12 | appending through a manager built on a caller's list grows that list |
| AudioClipper.ClipBySamples | audio/clipper.py:28-35 | ValueError exactly when the positions are out of order or out of range; otherwise the window `start..end` |
| AudioClipper.ClipJoins | audio/clipper.py:34 | adjacent windows join into the window that spans both |
| AudioClipper.ClipWhole | audio/clipper.py:28-35 | the full range gives the signal back |
| AudioClipper.ClipSignal | audio/clipper.py:13-25 | a zero rate raises ZeroDivisionError first; otherwise the positions `int(sr*t)` are checked as in the by-samples clip and every channel is cut to the same window |
| AudioClipper.Padded | audio/clipper.py:51-55 | the intended pad: target length, the signal at the start, zeros elsewhere |
| AudioClipper.PaddedRoundTrip | audio/clipper.py:51-55 | clipping the padded signal at the start gives the signal back |
| AudioClipper.SliceBound | audio/clipper.py:55 | a slice bound is normalised into 0..n as Python does |
| AudioClipper.PaddedAsWritten | audio/clipper.py:55 | the pad as written: a slice assignment that raises ValueError when the two slice lengths differ |
| AudioClipper.PadDropsLastSample | audio/clipper.py:55 | for a non-empty signal the pad as written equals the intended pad of the signal without its last sample |
| AudioClipper.PadEmptySignal | audio/clipper.py:51-55 | as written, an empty signal raises ValueError exactly when placed at 0 in a target of two or more samples, and otherwise gives the all-zero pad |
| AudioClipper.PadCounterexamples | audio/clipper.py:51-55 | [1.0] padded to 2 at 0 gives [0, 0] instead of [1, 0]; the empty signal raises instead of giving [0, 0] |
| AudioClipper.Pad | audio/clipper.py:52-55 | the loop fills a fresh array equal to the intended pad |
| AudioClipper.RandClipSpec | audio/clipper.py:38-63 | output length `sr * target_len`; a crop window at the start, the pad (corrected pad, see Findings), or the signal itself; times exactly when asked for and the lengths differ; ZeroDivisionError exactly when a zero rate meets a long signal with times asked for |
| AudioClipper.RandClip | audio/clipper.py:38-63 | the method returns exactly `RandClipSpec` |
| AudioClipper.RandClipKeepsSamples | audio/clipper.py:42-63 | a crop is a window of the input, a pad (corrected pad, see Findings) holds the whole input at the start, and an equal-length input comes back unchanged |

## Left out

- The GCJ02 offset series `transform_lat` and `transform_lng` and their ellipsoid scaling (`reviutils/gis/convertor.py:25-39`, `:64-71`, `:79-86`) are one abstract function. `sin`, `cos`, `sqrt` and `atan2` are abstract too. Properties of trigonometry are left out. So is any numeric closeness claim, such as the BD09/GCJ02 round trip within 1e-6 degrees.
- Floats are reals. Float64 rounding, NaN and infinity are not modelled.
- `show_graph` only prints and is not modelled.
- The registry is a class attribute of `_Convertor`, shared by every instance. Each `GisConvertor.Convertor` has its own registry. Only one instance exists in the source.
- Registered functions are one of the five elementary transforms. Arbitrary callables are not modelled.
- The pydantic validation of `Location` beyond its three typed fields is not modelled.
- `calculate_new_coordinate` and the rest of `reviutils/gis/__init__.py` are not part of this model. The AMap web API (`reviutils/api/amap`) is not part of this model either.
- The numerics of `calc_Leq`, `calc_Lt` and `calc_PSL` are the abstract `SplHelper.LevelMath`. The logarithms, powers of ten and pandas quantile interpolation are not spelled out. The model states what is done with their results.
- `calc_LA` is not modelled. It only combines `calc_PSL` and `calc_Leq` with pandas `max`, `min` and `std`.
- `SplHelper.CalcPsl`: the message printed for an empty series is not modelled, only the `None` it returns.
- `SplHelper.CalcPsl` takes integer percentages only. `percent_arr` is an untyped list, and a float such as 12.5 passes the range check and gives the key `'L12.5'`. Float percentages and their `repr` keys are not modelled.
- `GisConvertor.MapBarOnGrid` holds over reals. In float64, `int(x) / 100000 * 100000` need not give back exactly `int(x)`.
- `Common.GetPassrate` returns the percentage as a number. The `'{:.2f}%'` string formatting is left out.
- `get_random_str` and `get_time_str` use randomness, the clock and `strftime`, and are not modelled.
- `HourHelper.IsDaytime` takes the hour that `strptime` parses from a string as part of its argument. Date parsing itself is not modelled.
- `FuncArea.GetFuncAreaInfo` covers str, int, member and any other type. A `bool` reaches the int rule in Python and is treated as the ids 0 and 1.
- `OmapSamples.NewPolyline` takes the relevant fields of a `PolylineTypes` member as a parameter. The constant tables of `reviutils/omap/constants` are not part of this model.
- Of pydantic, `OmapSamples.NewPolyline` models only the two field constraints that can fail (`LineWidth > 0`, `0 <= LineAlpha <= 100`).
- The other sample classes (markers, points, polygons) and `reviutils/omap/demo.py` are not modelled. They only build objects.
- `create_obj_id` (clock plus `random.randint`) and the `tmModify` timestamp are constructor arguments of `OmapSamples.Item`.
- `OmapSamples.Item.View` takes the item's `Object` as a value fixed at construction. Children later added to a folder's detail are not reflected in the view that `obj_to_json` sees.
- `OmapSamples.ObjToJson` works on a reflective view of an object's attributes, with models, lists, dictionaries and scalars. It does not work on live Python objects.
- `OmapSamples.Item.AddChild` takes the exception that `x.ParentID = …` raises, if any, on a value that is neither an item nor a list as part of the argument; which Python values refuse, and with which exception, is not derived.
- `OmapManager.ItemManager.SaveOvjsn` stops at the payload. Opening the file, `json.dump` and the printed message are not modelled.
- The audio readers (`reviutils/audio/reader.py`, `src/audio/reader.py`) and `rand_clip_file` do file I/O through librosa and soundfile, and are not modelled.
- `AudioClipper.ClipSignal` does not model the conversion of its result to a torch `Tensor`.
- `AudioClipper.RandClip` draws no random number. The start is a parameter constrained to the range of `np.random.randint`. The case where `randint(0, 0)` raises for equal bounds cannot arise, because a crop or pad happens only when the lengths differ.
- `AudioClipper.RandClip` takes `sr` and `target_len` as natural numbers. Fractional rates and lengths, for which `np.zeros` raises, are not modelled.
- `AudioClipper.RandClip` pads with the corrected `AudioClipper.Pad`, not the pad as written. The code as written is `AudioClipper.PaddedAsWritten`; see Findings.

## Findings

| source | as written | input that shows it | evidently intended | confidence | as-written member | corrected member |
|---|---|---|---|---|---|---|
| audio/clipper.py:55 | `new_signal[s:s+samples-1] = signal[0:samples-1]` copies all but the last sample into the padded signal, and for an empty signal the two slices have different lengths | `signal = [1.0]`, target 2 samples, start 0 gives `[0.0, 0.0]`; `signal = []`, target 2, start 0 raises ValueError | `new_signal[s:s+samples] = signal`: the whole signal at the random start, zeros elsewhere | not executed | AudioClipper.PaddedAsWritten | AudioClipper.Padded |
