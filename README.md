# pyBRAT summary products: the aggregation engine

`Collect_Summary_Products.py` builds the BRAT summary workbook for a beaver
dam capacity network. Its worksheets are built from passes over the stream
reaches of the network. Each length, label and validation worksheet takes one
pass. The summary takes nine, one per value it writes. The
existing-versus-historic worksheet takes two, one per scenario, and writes
each row sum through `int()`. The electivity worksheet takes two loops of its
own that keep no running total. In a pass, each reach is put into one row by
an if/elif chain on one attribute, and a weight is added to that row and, in
`search_cursor`, to a running total. The
weight is the reach length, a dam count or a count of one. The chains are
either numeric thresholds or exact category strings. Kilometres, miles and
shares are then derived from the row sums.

This project models that engine and proves what the worksheets promise: the
rows add up to the total, each chain equals a reference scheme, and the
derived columns convert back to the row sums. It also models the decisions
around the engine:

- the workbook name;
- splitting a multi-table network parameter;
- the width of a worksheet's first column;
- which worksheets are built for the attributes a network has;
- which project files are collected as summary products, and where each one goes.

Modules, one file each:

- `buckets.dfy` (`Buckets`): classified entries, the specification sums, and
  the one accumulation loop that every worksheet pass runs.
- `reaches.dfy` (`Reaches`): the reach record and the two-field search cursor.
- `schemes.dfy` (`Schemes`): the capacity and complex-size threshold chains,
  the four label chains and the predicted-versus-surveyed chain. The threshold
  chains are proved equal to an ordinal scheme over their bounds, and the label
  chains to a first-match lookup in their label tables. The
  predicted-versus-surveyed chain is characterised class by class.
- `capacity.dfy` (`CapacitySheets`): `search_cursor` in its three modes, the
  arithmetic of `write_data`, the four length worksheets, the
  existing-versus-historic zero guard and the electivity count loops.
- `categories.dfy` (`CategorySheets`): the conservation/restoration,
  unsuitable, risk, strategies and validation worksheets.
- `summary.dfy` (`Summary`): the "Watershed Summary" worksheet.
- `text.dfy` (`Text`): Python's `in`, `endswith`, `count`, `replace` and
  `split` on strings, with their reference definitions and inverses.
- `workbook.dfy` (`Workbook`): the name normalisation in `main`,
  `split_multi_inputs`, `column_calc` and the gating in `write_capacity_sheets`.
- `artifacts.dfy` (`Artifacts`): the file choice of `create_folder_structure`
  and the routing of `copy_to_input_output_structure`.
- `options.dfy` (`Options`): the optional value the name normalisation and
  the file choice return.

A network is a sequence of reaches whose attributes are all present. A network
given as several tables is their concatenation: `Buckets.AppendTables` shows
that a pass over the concatenation is the sum of the passes over the tables.
Lengths and counts are exact reals.

Particulars of the code that the model keeps:

- A percentage with a zero denominator raises `ZeroDivisionError`, which
  nothing catches. This happens in `write_data` with a zero total, in the
  summary's percent correct with no reaches, and in the summary's three shares
  with a network of zero length. The exception ends the run before
  `workbook.close()` (line 71), so no workbook is written. The model returns
  `DivisionByZero` for these computations.
- `write_capacity_sheets` considers eleven optional worksheets.
- The summary's "Total Stream Length (mi)" multiplies the kilometres by
  1.609344 (line 419), while every other mile value uses 0.62137. The summary
  is modelled as written; see "## Findings".
- The warning for a missing `mCC_HPE_CT` reads "Existing dam complex size
  worksheet ...". It is kept as written, and so is the misspelling "builiding".
- The label chains test the strings in the code, which differ from some of the
  row titles the worksheets write. Examples are "Anthropogenicallly Limited"
  (line 1026) against "Anthropogenically Limited" (line 1056), and "Immediate -
  Beaver Translocation" (line 1287) against "Immediate - Potential Beaver
  Translocation" (line 1311).

## Model

| member | source | states |
|---|---|---|
| Buckets.Accumulate | Collect_Summary_Products.py:300-312 | The accumulation loop adds each entry's weight to the total and to the one row its slot names. The rows equal the per-row specification sums and the total equals the sum of all weights. The rows plus the weight no row took equal the total. |
| Buckets.Partition | Collect_Summary_Products.py:315-329 | For any pass and any number of rows, the row sums plus the unassigned weight equal the grand total. |
| Buckets.NothingUnassigned | Collect_Summary_Products.py:303-312 | When every entry lands in one of the rows, no weight is left out. |
| Buckets.UnassignedBounds | Collect_Summary_Products.py:1056-1071 | With non-negative weights, the weight no row took is non-negative. It is zero only if every entry of positive weight landed in a row. |
| Buckets.BucketBounds | Collect_Summary_Products.py:500-511 | With non-negative weights, each row sum lies between 0 and the grand total. |
| Buckets.AppendTables | Collect_Summary_Products.py:297-299 | A pass over several tables in sequence has a total and rows that are the sums of the per-table passes. |
| Buckets.Transfer | Collect_Summary_Products.py:298-313 | Two passes with the same weights, whose entries land in row k1 and row k2 for the same records, have equal sums in those rows. |
| Buckets.SameWeights | Collect_Summary_Products.py:410-418 | Two passes with the same weights record by record have the same total, whatever rows they choose. |
| Buckets.CountTotal | Collect_Summary_Products.py:1437-1438 | A pass that counts one per record has the number of records as its total. |
| Buckets.TotalNonNegative | Collect_Summary_Products.py:447-458 | With non-negative weights the total is non-negative. |
| Schemes.OrdinalRow | Collect_Summary_Products.py:332-346 | Reference threshold scheme: row 0 holds exactly the value zero. Any other value takes the row after the first bound it does not exceed, having exceeded all earlier bounds. |
| Schemes.ClassifyCapacity | Collect_Summary_Products.py:332-346 | The capacity chain (0, <= 1, <= 5, <= 15, else) gives the row of the reference scheme with bounds 1, 5 and 15. |
| Schemes.ClassifyComplex | Collect_Summary_Products.py:315-329 | The complex-size chain (0, <= 1, <= 3, <= 5, else) gives the row of the reference scheme with bounds 1, 3 and 5. |
| Schemes.OrdinalMonotone | Collect_Summary_Products.py:333-346 | On non-negative values, a larger value never takes an earlier row. |
| Schemes.CapacityMonotone | Collect_Summary_Products.py:1659-1671 | The capacity chain is monotone on non-negative values. |
| Schemes.ComplexMonotone | Collect_Summary_Products.py:316-329 | The complex-size chain is monotone on non-negative values. |
| Schemes.NegativeInSecondRow | Collect_Summary_Products.py:337-340 | A negative value fails the zero test, passes the first bound and lands in the second row. |
| Schemes.LabelSlot | Collect_Summary_Products.py:1052-1071 | Reference label scheme: a category is dropped exactly when it is none of the labels. Otherwise its row is the position of the first label equal to it. |
| Schemes.RestorationRow | Collect_Summary_Products.py:936-943 | The restoration chain puts one of its three labels in that label's row and anything else in the "Other" row 3. |
| Schemes.UnsuitableRow | Collect_Summary_Products.py:1056-1071 | The unsuitable chain is the reference label scheme over its seven exact match strings, including "...TBD...". |
| Schemes.RiskRow | Collect_Summary_Products.py:1195-1204 | The risk chain is the reference label scheme over its four match strings. |
| Schemes.StrategyRow | Collect_Summary_Products.py:1309-1320 | The strategies chain is the reference label scheme over its five match strings. |
| Schemes.ClassifySurvey | Collect_Summary_Products.py:1439-1449 | -1 is "No surveyed dams", >= 1 is "Fewer dams", and any other value is "More dams". Each class is stated as an if-and-only-if, so the `else: pass` branch is unreachable. |
| Schemes.EstimateVerdict | Collect_Summary_Products.py:480-489 | The summary judges every reach right or wrong. It is right exactly when the validation worksheet does not put it in "More dams". |
| CapacitySheets.Kilometres | Collect_Summary_Products.py:945-948 | Each kilometre value times 1000 gives back its metres, and so does the sum. |
| CapacitySheets.WriteData | Collect_Summary_Products.py:222-284 | `write_data` aborts with a division by zero exactly when the total is zero. Otherwise it writes five rows: each row's km times 1000 is its metres, its miles are its km times 0.62137, and its share times the total is its km. |
| CapacitySheets.SharesSumToOne | Collect_Summary_Products.py:222-263 | When the total is the sum of the rows, the five shares add up to 1. |
| CapacitySheets.MilesSum | Collect_Summary_Products.py:222-263 | The five mile values add up to the rows' metres converted to kilometres and then to miles. |
| CapacitySheets.MetresToMiles | Collect_Summary_Products.py:223-229 | Converting metres to miles row by row converts their sum alike. |
| CapacitySheets.FiveRowsCoverAll | Collect_Summary_Products.py:303-312 | In every mode of `search_cursor` and in the electivity loops, every reach lands in one of the five rows. |
| CapacitySheets.CapacityTotalsReversed | Collect_Summary_Products.py:298-313 | The capacity-total mode fills its rows in reverse: its row k is the forward capacity scheme's row 4 - k. |
| CapacitySheets.SearchCursor | Collect_Summary_Products.py:296-348 | The capacity-total mode returns the dam counts per row and their total, and the rows add up to that total. The two length modes pass the rows and the total in km to `write_data`. That call aborts exactly when the network length is zero; otherwise its shares add up to 1. |
| CapacitySheets.WriteLengthSheet | Collect_Summary_Products.py:580-652 | A length worksheet is `write_data` on the five row lengths and the network length in km. It aborts exactly on a zero-length network. Otherwise row k's km times 1000 is the length the scheme puts in row k, its miles are its km times 0.62137, its share is its km divided by the network km, and the shares add up to 1. |
| CapacitySheets.LengthSheetRows | Collect_Summary_Products.py:246-252 | On a network of non-zero length, each written row of a length worksheet has the row's length in km, that times 0.62137 in miles, and its km over the network km as its share. |
| CapacitySheets.Trunc | Collect_Summary_Products.py:775-783 | Python's `int()` on a float truncates toward zero. |
| CapacitySheets.TruncationLoss | Collect_Summary_Products.py:828-836 | Writing non-negative sums through `int()` loses less than one per row: the written cells add up to at most the sum, and to more than the sum less the number of rows. |
| CapacitySheets.CapacityOfHistoric | Collect_Summary_Products.py:845-868 | A cell gets the quotient formula exactly when the historic count is not zero, so it never divides by zero. Otherwise it gets a written 0. |
| CapacitySheets.ExistingVsHistoric | Collect_Summary_Products.py:764-868 | The existing and historic columns hold the truncated dam capacity per class, from Pervasive to None. The "% Capacity of Historic" column has a formula exactly where the historic count is non-zero. |
| CapacitySheets.ElectivityCounts | Collect_Summary_Products.py:1651-1708 | The surveyed and estimated columns are the dam counts per capacity row, and the surveyed column adds up to all surveyed dams. The estimated column holds, in reverse row order, the existing capacity sums that the existing-versus-historic worksheet computes before it writes them through `int()`. |
| CategorySheets.ClassifyLandsInRows | Collect_Summary_Products.py:1052-1071 | A label worksheet's chain lands within its rows. It lands in a row exactly when the worksheet counts the category: always for restoration, otherwise only for one of its match strings. |
| CategorySheets.WriteLabelSheet | Collect_Summary_Products.py:925-948 | Each row's km times 1000 is that row's length, and `total` is the network length. The rows plus the unmatched length equal `total`. For restoration the rows alone equal `total`. |
| CategorySheets.RestorationCoversAll | Collect_Summary_Products.py:942-943 | The "Other" branch leaves no reach of the restoration worksheet unmatched. |
| CategorySheets.LabelRowsWithinNetwork | Collect_Summary_Products.py:1191-1204 | With non-negative lengths a label worksheet's rows never exceed the network length. With positive lengths they equal it exactly when every reach's category is one the worksheet counts. |
| CategorySheets.WriteValidationSheet | Collect_Summary_Products.py:1425-1454 | The counts per class add up to the number of reaches. The km per class add up to `total_km`, which is the network length in km. |
| CategorySheets.SurveyRowsCoverAll | Collect_Summary_Products.py:1439-1449 | Every reach lands in one of the three validation rows. |
| Summary.SheetMilesTotal | Collect_Summary_Products.py:248-250 | On a network of non-zero length, a length worksheet's mile column adds up to the network length in km times 0.62137. |
| Summary.SummaryCompletes | Collect_Summary_Products.py:491-548 | On a network of non-zero length the summary never aborts. |
| Summary.MilesAsWrittenDisagrees | Collect_Summary_Products.py:408-419 | On a network of positive length, the summary's "Total Stream Length (mi)" as written exceeds 2.5 times the mile total of every length worksheet of the same network. |
| Summary.SummaryMilesMatchSheet | Collect_Summary_Products.py:408-419 | With the factor 0.62137, the summary's miles equal the sum of the mile column of any length worksheet of the same network, and the summary does not abort on a network of non-zero length. |
| Summary.AsWrittenOverstates | Collect_Summary_Products.py:419 | For any positive km, km * 1.609344 exceeds 2.5 times km * 0.62137. |
| Summary.ComplexTotalMatchesSheet | Collect_Summary_Products.py:423-445 | For both scenarios, the summary's total dam complex size equals the sum of the five capacity sums that `search_cursor` returns to the existing-versus-historic worksheet, taken before that worksheet writes them through `int()`. |
| Summary.WrittenComplexNearTotal | Collect_Summary_Products.py:775-783 | With non-negative counts, the five truncated cells the existing-versus-historic worksheet writes add up to at most the summary's total dam complex size, and to more than that total less five. |
| Summary.VegetationNonNegative | Collect_Summary_Products.py:447-469 | With non-negative lengths and densities, a vegetation capacity total is non-negative. |
| Summary.VerdictCounts | Collect_Summary_Products.py:471-489 | Right and wrong estimates add up to the number of reaches. The wrong ones are the validation worksheet's "More dams" row. |
| Summary.PercentCorrectMeaning | Collect_Summary_Products.py:471-494 | Percent correct is "N/A" exactly when BRATvSurv is missing, and a division by zero exactly on an empty network. Otherwise it lies in [0, 1], and it times the number of reaches is the reaches outside "More dams". |
| Summary.ClassifyPicksLabel | Collect_Summary_Products.py:506-509 | A category is a share's label exactly when the share's own worksheet puts it in that label's row. |
| Summary.ShareMatchesSheetRow | Collect_Summary_Products.py:498-511 | A share's numerator is the length its own worksheet writes in the label's row. |
| Summary.ShareMeaning | Collect_Summary_Products.py:498-551 | A share is "N/A" exactly when its attribute is missing. It is a division by zero exactly on a zero-length network. Otherwise it is the label row's length divided by the whole network length, and with non-negative lengths it lies in [0, 1]. |
| Summary.ShareValue | Collect_Summary_Products.py:511 | The divisor `totalStreamLengthKm * 1000` is the network length in metres. |
| Summary.MissingWarnings | Collect_Summary_Products.py:431-433 | Every missing checked attribute gets its warning, and every warning names a missing checked attribute. |
| Summary.SummaryWarningInjective | Collect_Summary_Products.py:432 | Different attributes give different warning texts. |
| Summary.MissingWarningsAppend | Collect_Summary_Products.py:423-551 | Checking two lists of attributes one after the other gives the warnings of the first, followed by those of the second. |
| Summary.WarningsInCheckOrder | Collect_Summary_Products.py:423-551 | Two missing attributes are warned about in the order in which they are checked. |
| Summary.WarnedOnce | Collect_Summary_Products.py:431-433 | In a list of distinct attributes, a checked attribute gets exactly one warning if it is missing and none if it is present. |
| Summary.SummaryWarnedOnce | Collect_Summary_Products.py:423-551 | Each of the eight summary attributes gets exactly one warning if it is missing and none otherwise. |
| Summary.WarningsNameMissingFields | Collect_Summary_Products.py:423-551 | The summary warns about a checked attribute exactly when it is missing. |
| Summary.SummaryAborts | Collect_Summary_Products.py:491-548 | The summary aborts exactly when BRATvSurv is present on an empty network, or a share's attribute is present on a zero-length network. |
| Summary.AttributeTotal | Collect_Summary_Products.py:423-469 | The loop gives the attribute's total, or length-weighted total, and "N/A" when the attribute is missing. |
| Summary.PercentCorrect | Collect_Summary_Products.py:471-494 | The counting loop gives the percent-correct cell described by `PercentCorrectMeaning`. |
| Summary.NetworkShare | Collect_Summary_Products.py:498-514 | The loop gives the share cell described by `ShareMeaning`. |
| Summary.WatershedSummary | Collect_Summary_Products.py:356-576 | The worksheet's values and warnings, or the abort, are the ones `SummaryAborts` and the lemmas above describe. Its miles are the km times 1.609344, as written. |
| Text.ContainsMeaning | Collect_Summary_Products.py:1816 | `sub in s` holds exactly when the substring occurs at some position. |
| Text.CountZero | Collect_Summary_Products.py:37 | `s.count(c)` is zero exactly when `c` does not occur. |
| Text.Remove | Collect_Summary_Products.py:51 | `replace(c, "")` removes every `c`, keeps every other character, and shortens the string by the number of `c`. |
| Text.RemoveAppend | Collect_Summary_Products.py:51 | Removing a character from a concatenation removes it from each part and keeps the parts in order. |
| Text.CountRemoveOther | Collect_Summary_Products.py:51 | Removing quotes leaves the number of every other character, ";" included, unchanged. |
| Text.CountAppend | Collect_Summary_Products.py:37 | The count in a concatenation is the sum of the counts in its parts. |
| Text.Split | Collect_Summary_Products.py:54 | `split(sep)` gives at least one piece, and no piece holds the separator. |
| Text.JoinSplit | Collect_Summary_Products.py:54 | Joining the pieces of a split gives back the string. |
| Text.SplitJoin | Collect_Summary_Products.py:54 | Splitting a join of separator-free pieces gives back the pieces. |
| Text.SplitCount | Collect_Summary_Products.py:54 | A split has one more piece than there are separators. |
| Workbook.NormalizeName | Collect_Summary_Products.py:23-26 | The workbook name ends with ".xlsx" and begins with the given name. A name already ending with ".xlsx" is kept, any other name gets ".xlsx" appended, and no name gives "BRAT_Summary_Tables.xlsx". |
| Workbook.NormalizeIdempotent | Collect_Summary_Products.py:23-26 | Normalizing a normalized name changes nothing. |
| Workbook.SplitMultiInputs | Collect_Summary_Products.py:44-56 | The tables hold neither ";" nor "'", there is one more of them than there are ";", and joining them with ";" gives the parameter without its quotes. |
| Workbook.MergeWhenSeveralTables | Collect_Summary_Products.py:36-37 | The networks are merged exactly when the parameter names more than one table: the parameter holds a ";" exactly when splitting it without its quotes gives more than one table. |
| Workbook.ColumnWidth | Collect_Summary_Products.py:350-354 | The width is the larger of the minimum and the name length plus ten. |
| Workbook.Partitioned | Collect_Summary_Products.py:76-132 | Every considered worksheet is added or left out, never both: the two lists together are as long as the considered list, and each holds exactly the worksheets whose test passes, or fails. |
| Workbook.Gate | Collect_Summary_Products.py:76-132 | Every considered worksheet is either added or left out. It is added exactly when all the attributes its test names are present. |
| Workbook.GateAppend | Collect_Summary_Products.py:76-132 | Gating two lists one after the other gives the added worksheets of the first followed by those of the second, and likewise the ones left out, so both lists keep the order in which the tests run. |
| Workbook.GateOne | Collect_Summary_Products.py:78-82 | A single worksheet is added when its test passes and otherwise left out; with `GateAppend` this fixes both lists, in order, for any list of worksheets. |
| Workbook.AddedAppend | Collect_Summary_Products.py:76-132 | The added worksheets of a concatenation are those of its first part followed by those of its second. |
| Workbook.OmittedAppend | Collect_Summary_Products.py:76-132 | The worksheets left out of a concatenation are those of its first part followed by those of its second. |
| Workbook.CapacitySheetsGate | Collect_Summary_Products.py:74-132 | With the tests as written, "Watershed Summary" comes first. Each of the eleven optional worksheets is added exactly when the attributes its test names are present, and otherwise raises its own warning. The existing-versus-historic worksheet needs both complex-size attributes. |
| Workbook.ComparisonCondition | Collect_Summary_Products.py:98 | The existing-versus-historic test passes exactly when both `mCC_HPE_CT` and `mCC_EX_CT` are present. |
| Workbook.GateAdmitsUnreadFields | Collect_Summary_Products.py:98-100 | As written, the existing-versus-historic worksheet is added for attributes that lack `oCC_EX`, which its writer reads (line 765). The electivity worksheet is added for attributes that lack `oCC_EX`, which its writer reads (line 1658). |
| Workbook.CorrectedGateReadsPresent | Collect_Summary_Products.py:74-132 | Gating on every attribute a writer reads adds only worksheets whose writer finds all its attributes, and decides every other optional worksheet as the code does. |
| Workbook.Admitted | Collect_Summary_Products.py:76-132 | An optional worksheet whose tested attributes are exactly the network's attributes is added. |
| Artifacts.Collect | Collect_Summary_Products.py:1816-1828 | No file found in a folder whose path contains "\SummaryProducts\" is collected. A collected file ends with its kind's extension, and a file left out otherwise ends with none of them. |
| Artifacts.AtMostOneKind | Collect_Summary_Products.py:1819-1828 | No name ends with two of the five extensions. |
| Artifacts.CollectPicksTheExtension | Collect_Summary_Products.py:1819-1828 | A file found in a folder whose path does not contain "\SummaryProducts\" is collected as a kind exactly when its name ends with that kind's extension. |
| Artifacts.CollectArtifacts | Collect_Summary_Products.py:1807-1828 | The walk loop fills each kind's list with the collected paths of that kind, in walk order. It collects at most one path per file. |
| Artifacts.SummaryProductsNeverCollected | Collect_Summary_Products.py:1816-1818 | Every collected path comes from a file found in a folder whose path does not contain "\SummaryProducts\", and whose name ends with the kind's extension. |
| Artifacts.Route | Collect_Summary_Products.py:1849-1856 | A png or pdf goes to exactly one of Inputs, Intermediates, Outputs or the base folder, by the first of "\Inputs\", "\01_Intermediates\", "\02_Analyses\" the path contains. |

## Left out

- Geoprocessing access (search cursors, `ListFields`, `merge_networks`) is a
  foreign API. A network is a sequence of reaches and the field list is a
  parameter. Null attributes are not modelled.
- Cell writing, formats, column widths and positions are rendering, and are
  not modelled. So are the formulas the spreadsheet evaluates: the "Total"
  rows, the mile and percent columns of the label and validation worksheets,
  the electivity index and the densities.
- `make_capacity_table` and `add_capacity_category` are never called.
- The `__main__` block is left out.
- `os.walk`, `shutil.copy` and `make_folder` are filesystem I/O.
  `os.path.join` is taken as given: each walked file carries its joined path.
- Floating point is not modelled: lengths and counts are exact reals, so
  rounding and NaN are out of scope. The only way to reach the validation
  chains' `else: pass` branch is NaN.
- Python's integer counters in the validation and summary loops are modelled
  as reals.
- Every worksheet's accumulators start at zero, as all callers of
  `search_cursor` pass them.
- CategorySheets.WriteValidationSheet: the counts and the lengths come from
  two passes over the same reaches rather than from the source's single loop.
- Workbook.Gate and Workbook.CapacitySheetsGate: they state which worksheets
  the attributes select. They do not capture that a sheet writer's division
  by zero (as in `write_data`, line 252, on a zero-length network) ends the
  run, so that no worksheet is written at all.
- Workbook.Gate and Workbook.CapacitySheetsGate: as written, the tests at
  lines 98 and 128 name fewer attributes than their writers read. The
  existing-versus-historic writer also reads `oCC_EX` and `oCC_HPE` (lines
  765 and 818). The electivity writer also reads `oCC_EX` and `mCC_EX_CT`
  (lines 1658 and 1695). In the model every reach carries every attribute,
  so the failure of a cursor asking for a missing attribute, which ends the
  run before `workbook.close()`, is not modelled; see "## Findings".
- Summary.WatershedSummary: when the summary aborts, the warnings raised
  before the abort are not returned.
- Summary.NetworkShare: takes the network length in km as a parameter from
  the first pass, as the source does, and requires it to be that length.

## Findings

| source | as written | input that shows it | evidently intended | confidence | as-written member | corrected member |
|---|---|---|---|---|---|---|
| Collect_Summary_Products.py:419 | "Total Stream Length (mi)" is km * 1.609344, the miles-to-kilometres factor | one reach of 1000 m: 1.609344 written as miles instead of 0.62137 | km * 0.62137, which matches the mile columns `write_data` writes | not executed | Summary.MilesAsWrittenDisagrees | Summary.SummaryMilesMatchSheet |
| Collect_Summary_Products.py:98, 128 | the existing-versus-historic test names only `mCC_HPE_CT` and `mCC_EX_CT`, and the electivity test only `e_DamCt`, although the writers also read `oCC_EX` (lines 765, 1658), `oCC_HPE` (line 818) and `mCC_EX_CT` (line 1695) | attributes `mCC_HPE_CT` and `mCC_EX_CT` only, or `e_DamCt` only: the worksheet is added and its cursor asks for the missing `oCC_EX` | test every attribute the writer reads | not executed | Workbook.GateAdmitsUnreadFields | Workbook.CorrectedGateReadsPresent |
