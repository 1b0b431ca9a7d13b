# ncdiag derived-variable functions, modelled in Dafny

This project models the derived-variable helpers of the ncdiag Python tools
(`python_tools/ncdiag_functions.py`): per-observation transforms that read
named fields out of a diagnostic record and produce a new array.

* `Outcomes` — `Option`, `Result` and the errors the functions raise
  (a missing record field is `KeyError`, numpy's failed reshape is
  `ShapeMismatch`, the explicit `raise` statements have their own cases).
* `Record` — a diagnostic record as a map from field names to sequences.
* `Grid` — the numpy array plumbing the pairwise distance uses: `np.tile` in
  both orientations, C-order flattening, and `reshape` with its size check.
* `Haversine` — `haversine_pairwise` and `p_haversine_pairwise`. The
  elementary functions (`radians`, `sin`, `cos`, `arcsin`, `sqrt`) are an
  abstract parameter, so the proofs are about the index bookkeeping: which
  point of A meets which point of B at every flat position and every matrix
  entry.
* `Usage` — `used`: the analysis-use flag, or one derived from the
  per-channel `use_flag` and the QC flag.
* `Sigma` — `sigo_input`, `sigo_final` and `sigo`: the reciprocal of an
  inverse observation error, with errors above 9999 replaced by -9999.9.
* `Elevation` — `qify` and `qifn`: the packed station elevation split into a
  truncated thousands part and a remainder.
* `Station` — `chars_to_str` and `station`: joining character rows and
  stripping surrounding whitespace (Python's `str.strip`, with the full
  `str.isspace` character set).
* `Penalty` — `cpen`: the mean of `(omg / sigo)**2` over the zipped pairs.

Numpy's elementwise operations are modelled as sequence comprehensions over
Dafny `real` and `int`. A Python exception becomes an `Err` result.

## Model

| member | source | states |
|---|---|---|
| Grid.Reshape | python_tools/ncdiag_functions.py:152 | `reshape(rows, cols)` succeeds exactly when the array has `rows * cols` entries, and then yields `rows` rows of `cols` entries each |
| Grid.ReshapeIndex | python_tools/ncdiag_functions.py:152 | entry `[j][i]` of the reshaped array is flat entry `j * cols + i` (C order) |
| Grid.FlattenIndex | python_tools/ncdiag_functions.py:139-142 | flattening a rectangular grid gives `rows * cols` entries, and flat entry `j * cols + i` is grid entry `[j][i]` |
| Grid.ReshapeFlatten | python_tools/ncdiag_functions.py:139-152 | reshaping a flattened rectangular grid back to its own shape returns the original grid |
| Grid.FlattenReshape | python_tools/ncdiag_functions.py:139-152 | flattening a successful reshape returns the original flat array |
| Grid.TileRowsFlat | python_tools/ncdiag_functions.py:134-135 | `np.tile(v, (n, 1))` flattened has `n * len(v)` entries, and entry `j * len(v) + i` is `v[i]` for every row `j` |
| Grid.TileColsFlat | python_tools/ncdiag_functions.py:136-137 | `np.tile(np.array([w]).T, (1, n))` flattened has `len(w) * n` entries, and entry `j * n + i` is `w[j]` for every column `i` |
| Haversine.CrossProductPairs | python_tools/ncdiag_functions.py:129-142 | the four tiled and flattened vectors exist exactly when each point set has as many latitudes as longitudes (or the other set is empty), otherwise the reshape fails; when they exist they have length `n2 * n1` and flat position `j * n1 + i` holds point `i` of A and point `j` of B, in radians |
| Haversine.CrossProductAt | python_tools/ncdiag_functions.py:131-142 | the same pairing at one given position `(j, i)` |
| Haversine.HaversinePairwise | python_tools/ncdiag_functions.py:120-153 | `haversine_pairwise`: fails with numpy's reshape error exactly when a point set's latitude and longitude counts disagree (and the other set is non-empty); otherwise an `n2 x n1` matrix |
| Haversine.PHaversinePairwise | python_tools/ncdiag_functions.py:156-203 | `p_haversine_pairwise`: the same failure condition and the same `n2 x n1` shape as `haversine_pairwise` |
| Haversine.PairwiseEntries | python_tools/ncdiag_functions.py:129-153 | the pairwise result is an error exactly when a reshape fails; otherwise it has `n2` rows of `n1` entries (an empty set gives an empty dimension) and entry `[j][i]` is the great-circle distance from point `i` of A to point `j` of B |
| Haversine.PairwiseIsPairMatrix | python_tools/ncdiag_functions.py:120-153 | for point sets with matching coordinate lengths the tiled computation equals the plain double loop over B then A |
| Haversine.FusedAgrees | python_tools/ncdiag_functions.py:166-202 | the fused single-expression kernel of `p_haversine_pairwise` returns the same result as `haversine_pairwise`, errors included, whatever the thread count |
| Usage.Used | python_tools/ncdiag_functions.py:10-27 | `Analysis_Use_Flag` is returned unchanged when present; with neither it nor `use_flag` the call fails; otherwise entry `k` is `1` exactly when the channel's `use_flag[ch-1]` (Python indexing, so channel 0 reads the last entry) is positive and `QC_Flag[k] == 0`, and `-1` otherwise; a channel outside `use_flag` raises `IndexError`; missing `Channel_Index` or `QC_Flag` raise `KeyError` |
| Sigma.SigmaOf | python_tools/ncdiag_functions.py:48-50 | each output is the sentinel -9999.9 when the reciprocal would exceed 9999 (zero included), and otherwise the exact reciprocal, at most 9999 |
| Sigma.MaskedReciprocalUnique | python_tools/ncdiag_functions.py:48-50 | the masked reciprocal is determined by its input: any value meeting the rule is the one computed |
| Sigma.MaskedReciprocalsBounded | python_tools/ncdiag_functions.py:45-73 | every output entry is either at most 9999 or exactly -9999.9 |
| Sigma.SigoInput | python_tools/ncdiag_functions.py:45-51 | succeeds exactly when `Errinv_Input` is present, and then maps each entry to its masked reciprocal |
| Sigma.SigoFinal | python_tools/ncdiag_functions.py:53-59 | succeeds exactly when `Errinv_Final` is present, and then maps each entry to its masked reciprocal |
| Sigma.Sigo | python_tools/ncdiag_functions.py:61-73 | reads `Errinv_Final` when present (agreeing with `sigo_final`), else `Inverse_Observation_Error`, else fails; the output is the masked reciprocal of the field read |
| Elevation.Trunc | python_tools/ncdiag_functions.py:79 | truncation toward zero: the floor for non-negative values and the ceiling for negative ones |
| Elevation.Decomposition | python_tools/ncdiag_functions.py:79-80 | `qify * 1000 + qifn` recombines to the elevation, `abs(qifn) < 1000`, and `qifn` is never of the opposite sign to the elevation |
| Elevation.DecompositionUnique | python_tools/ncdiag_functions.py:79-80 | an integer part and remainder with those three properties are exactly `qify` and `qifn` |
| Elevation.Qify | python_tools/ncdiag_functions.py:84-88 | succeeds exactly when `Station_Elevation` is present and then gives the truncated thousands of each entry |
| Elevation.Qifn | python_tools/ncdiag_functions.py:76-82 | succeeds exactly when `Station_Elevation` is present and then gives the remainder of each entry below its truncated thousands |
| Elevation.QifyQifnRecombine | python_tools/ncdiag_functions.py:76-88 | over a whole record, the two results have the elevation's length and recombine entry by entry to it |
| Station.LeadingSpaces | python_tools/ncdiag_functions.py:5 | counts the whitespace prefix: everything before it is whitespace and the character after it is not |
| Station.TrailingSpaces | python_tools/ncdiag_functions.py:5 | counts the whitespace suffix: everything in it is whitespace and the character before it is not |
| Station.Strip | python_tools/ncdiag_functions.py:5 | the result is a contiguous slice of the input with only whitespace removed on each side and no whitespace at either end |
| Station.StripUnique | python_tools/ncdiag_functions.py:5 | any slice with those properties is the stripped string |
| Station.StripTrimmed | python_tools/ncdiag_functions.py:5 | a string with no whitespace at either end is left unchanged by stripping |
| Station.StripIdempotent | python_tools/ncdiag_functions.py:5 | stripping twice gives the same as stripping once |
| Station.CharsToStr | python_tools/ncdiag_functions.py:4-5 | the joined characters of a row with surrounding whitespace stripped |
| Station.Station | python_tools/ncdiag_functions.py:7-8 | corrected `station`: one stripped, joined name per row of `Station_ID`, and an error for a record with no rows |
| Station.StationAsWritten | python_tools/ncdiag_functions.py:7-8 | `station` as written: fails on zero rows; otherwise one entry per row, each a prefix of that row's stripped name cut to the first row's width (at least 1) |
| Station.StationAsWrittenAgreesIff | python_tools/ncdiag_functions.py:7-8 | the code as written agrees with the corrected one exactly when no name is longer than the first (or 1) |
| Station.StationAsWrittenTruncates | python_tools/ncdiag_functions.py:7-8 | a concrete two-row record whose second name is cut short by the code as written |
| Penalty.SumSquaresZeroIff | python_tools/ncdiag_functions.py:114-116 | the accumulated sum of squared normalised innovations is non-negative and zero exactly when every innovation in it is zero |
| Penalty.Cpen | python_tools/ncdiag_functions.py:109-118 | divides by zero exactly when the zip is empty; otherwise returns the mean of `(omg / sigo)**2` over the zipped pairs, which is non-negative and zero exactly when all the zipped innovations are zero |

## Left out

- The floating-point kernel of the great-circle distance (`np.radians`, `sin`, `cos`, `arcsin`, `sqrt`). These are abstract functions of an `Elementary` parameter. No numeric fact about distances is claimed, and there is no clamp of the haversine term because the code has none.
- `numexpr` thread configuration (`ne.set_num_threads`). The thread count is a parameter that the result provably ignores.
- `p_haversine_pairwise` repeats the tiling of `haversine_pairwise` line for line. Both are modelled through one shared `CrossProduct`; only the kernel evaluation differs.
- The `t1.v('lon')` data-source accessor and `ncd.var_to_var`. These are foreign calls; point sets and records are plain sequences and maps.
- `dist`, `spd_omf`, `rand` and `amb`. They use square roots, external centroid configuration, a random generator, or `var_to_var`, and are not part of this model.
- The `return_deps` parameter and the `deps` lists, which no function uses.
- Floating-point rounding, NaN, infinities and negative zero are not modelled; values are Dafny `real`.
- Sigma.SigmaOf: zero maps to the sentinel, as numpy's `1/0 = inf` does. `-0.0`, whose reciprocal is `-inf` and is kept, is not modelled.
- Elevation.Qify: `np.trunc` returns a float array; the model returns the (exact) integer value.
- Usage.Used: in the `use_flag` branch only (no `Analysis_Use_Flag`, `use_flag` present), requires `QC_Flag` and `Channel_Index` to have the same length when both are present. Numpy's broadcasting or shape error for mismatched masks is not modelled. The other branches build no mask and hold for every record.
- Usage.Used: the loop visits the distinct channels in an arbitrary order instead of `np.unique`'s sorted order. Each mask assignment sets a disjoint set of entries, so the order cannot change the result, but the intermediate states differ.
- Penalty.Cpen: requires the zipped errors to be non-zero. Numpy's float division by zero, which gives `inf` or NaN, is not modelled. An empty zip is modelled as the `ZeroDivisionError` the code raises.
- Station.CharsToStr: `astype(str)` of numpy character arrays drops trailing NUL bytes; characters are modelled as strings that are already decoded.
- Haversine: an unequal number of longitudes and latitudes in a point set is modelled as numpy's reshape failure (`ShapeMismatch`), not as a precondition.

## Findings

| source | as written | input that shows it | evidently intended | confidence | as-written member | corrected member |
|---|---|---|---|---|---|---|
| python_tools/ncdiag_functions.py:7-8 | `np.apply_along_axis` sizes its output from the first row's result (a `<U{n}` string array with `n = max(1, len(first))`), so every later station name longer than the first is cut to that width | the 2 x 2 `Station_ID` character array `[['A', ' '], ['B', 'C']]` gives `['A', 'B']` | one full stripped name per row: `['A', 'BC']` | not executed | Station.StationAsWritten, Station.StationAsWrittenTruncates | Station.Station |
