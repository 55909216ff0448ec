# MZT Pro dispersion core, modelled in Dafny

MZT Pro is a single-page Streamlit application. It takes a chemical release
scenario and computes these outputs:

- a steady-state Gaussian plume in g/m^3 over a 1200 x 1200 ground-level grid;
- that field scaled by the molar-volume factor the page labels ppm;
- two hazard read-outs on that field:
  - a "Threat Zones" summary of the hazard thresholds the plume's peak comes near;
  - one "Maximum Threat Distance" card per threshold.

The scenario is a chemical from a fixed catalog, a release rate, a wind
speed, a temperature, a release height and a Pasquill stability class.

This project models that computational core over exact reals. Each part is
one module:

- `Stability`: the Pasquill class coefficients.
- `Axes`: the `linspace` / `meshgrid` sampling grid and the metre-to-km conversion.
- `Plume`: the plume formula. Floating-point `exp` and `x**0.894` are function parameters.
- `Units`: the molar-volume conversion of line 88. Its factor `24.45 / molwt`
  is the one for mg/m^3, applied to the g/m^3 field of line 72. The values
  the page calls ppm are therefore 1000 times below the ppm of that field.
  The model reproduces line 88 as written.
- `Catalog`: the chemical catalog and the scaling of LEL from volume percent to ppm.
- `Extractor`: the threshold-crossing extractor. It takes the crosswind
  maximum per downwind column, finds the last column that reaches the level,
  and returns that column's coordinate.
- `Summary`: the threat-summary selection.
- `Cards`: the distance cards.
- `App`: one evaluation of the page from scenario to report.

The field is a `seq<seq<real>>` in which row `i` is crosswind sample `i`
and column `j` is downwind sample `j`, as `np.meshgrid` lays it out.

The loops of lines 103-109 and 132-140, and the numpy reductions of line 136,
become methods with loop invariants. Each method is proved equal to a
specification function:

- the crosswind maximum and its column-by-column vector;
- the last index that reaches a level;
- the summary loop;
- the card loop.

The expression-only parts are functions. The properties of these parts are
lemmas about those functions: last-qualifying-index search,
monotonicity in level, field and release rate, axis shape and symmetry, the
lookup fallback, and the order of the filtered summary.

An unknown stability class is not rejected: `dict.get(stability, 0.08)`
silently uses class D's coefficients, and the model follows the code
(`Stability.Coefficients`).

## Model

| member | source | states |
|---|---|---|
| Stability.SigmaYCoefficient | streamlit_app.py:70 | the sigma-y coefficient is the table's value for a listed class, class D's for any other string, and always positive |
| Stability.SigmaZCoefficient | streamlit_app.py:71 | the sigma-z coefficient is the table's value for a listed class, class D's for any other string, and always positive |
| Stability.Coefficients | streamlit_app.py:70-71 | both coefficients are positive; an unlisted class gets (0.08, 0.06), class D's pair |
| Stability.TablesCoverClasses | streamlit_app.py:70-71 | both tables are defined on exactly the classes A-F |
| Stability.ListedCoefficients | streamlit_app.py:70-71 | classes A..F give exactly the listed (sigma-y, sigma-z) pairs |
| Stability.CoefficientsDecreaseWithStability | streamlit_app.py:70-71 | a more stable class (later letter) has strictly smaller coefficients for both spreads |
| Axes.Sample | streamlit_app.py:67-68 | sample 0 of `linspace(a, b, n)` is a and sample n-1 is b |
| Axes.Linspace | streamlit_app.py:67-68 | `linspace(a, b, n)` has n samples, the first is a and the last is b |
| Axes.SampleStrict | streamlit_app.py:67 | on a rising interval a later sample is strictly larger |
| Axes.SampleBetween | streamlit_app.py:67 | every sample lies between the end points |
| Axes.LinspaceIncreasing | streamlit_app.py:67 | a rising interval gives a strictly increasing axis |
| Axes.LinspaceBounded | streamlit_app.py:67 | every sample of the axis lies between its end points |
| Axes.LinspaceEvenlySpaced | streamlit_app.py:67-68 | consecutive samples are exactly `(b-a)/(n-1)` apart |
| Axes.LinspaceSymmetric | streamlit_app.py:68 | an interval symmetric about zero gives `y[i] == -y[n-1-i]` |
| Axes.DownwindAxis | streamlit_app.py:67 | 1200 samples from 10 m to `x_max*1000` m, strictly increasing when `x_max*1000 > 10` |
| Axes.CrosswindAxis | streamlit_app.py:68 | 1200 samples from `-x_max*1000` to `x_max*1000`, mirrored about zero |
| Axes.ToKm | streamlit_app.py:73 | the km value times 1000 is the metre value |
| Axes.AxisToKm | streamlit_app.py:73 | every element of an axis in km times 1000 is the metre element |
| Axes.AxisToKmPreservesShape | streamlit_app.py:73 | converting to km keeps an axis strictly increasing and keeps a mirrored axis mirrored |
| Axes.MeshX | streamlit_app.py:69 | every row of the X grid is the downwind axis, one row per crosswind sample |
| Axes.MeshY | streamlit_app.py:69 | cell (i, j) of the Y grid is crosswind sample i |
| Axes.GridToKm | streamlit_app.py:73 | each row of a grid in km is that row converted by `AxisToKm` |
| Plume.SigmaY | streamlit_app.py:70 | sigma-y is positive at every positive distance |
| Plume.SigmaZ | streamlit_app.py:71 | sigma-z is positive at every positive distance |
| Plume.Concentration | streamlit_app.py:72 | the ground-level concentration of line 72 with its direct and image terms; its properties are the Concentration* and ReflectionDoubles lemmas below |
| Plume.DenominatorPositive | streamlit_app.py:72 | the normalising denominator `2*pi*u*sy*sz` is positive |
| Plume.ConcentrationSymmetric | streamlit_app.py:72 | y enters only squared, so C(x, -y) == C(x, y) |
| Plume.ReflectionDoubles | streamlit_app.py:72 | the image source at -H contributes exactly as much as the real one at +H |
| Plume.ConcentrationNonNegative | streamlit_app.py:72 | a non-negative rate and a non-negative exponential give a non-negative concentration |
| Plume.ConcentrationMonotoneInRate | streamlit_app.py:72 | a larger release rate never lowers the concentration at any point |
| Plume.DownwindAxisPositive | streamlit_app.py:67 | every downwind sample is positive when the domain reaches 10 m |
| Plume.PlumeGrid | streamlit_app.py:69-72 | the concentration grid has 1200 rows of 1200 cells |
| Plume.PlumeGridCell | streamlit_app.py:69-72 | cell (i, j) is the concentration at downwind sample j and crosswind sample i |
| Plume.AdvancedGaussian | streamlit_app.py:66-73 | the three outputs are 1200 x 1200 grids; every X row is the downwind axis in km; every Y cell times 1000 is its crosswind sample |
| Plume.PlumeGridCellMirrored | streamlit_app.py:68-72 | cell (i, j) equals cell (N-1-i, j) |
| Plume.PlumeGridMirrored | streamlit_app.py:68-72 | the whole field is mirrored about the plume's centre line |
| Plume.PlumeGridNonNegative | streamlit_app.py:72-73 | with a non-negative rate and exponential every cell is non-negative |
| Plume.PlumeGridMonotoneInRate | streamlit_app.py:72 | a larger release rate raises or keeps every cell |
| Units.ToPpm | streamlit_app.py:88 | `ppm * molwt * (T + 273.15) == c * 24.45 * 298.15`; a non-negative input gives a non-negative result and a positive one a positive result |
| Units.FromPpm | streamlit_app.py:88 | the inverse conversion satisfies the same molar-volume identity |
| Units.PpmRoundTrip | streamlit_app.py:88 | converting to ppm and back, or back and then to ppm, is the identity |
| Units.ToPpmLinear | streamlit_app.py:88 | the conversion is linear in the mass concentration |
| Units.ToPpmMonotone | streamlit_app.py:88 | a larger mass concentration gives a larger or equal ppm value |
| Units.ToPpmAtReference | streamlit_app.py:88 | at 25 degrees C the result is `c * 24.45 / molwt` |
| Units.FieldToPpm | streamlit_app.py:88 | the ppm field has the input's shape, each cell is `ToPpm` of the input cell, and non-negative cells stay non-negative |
| Catalog.LookupIn | streamlit_app.py:78 | a record is found exactly when some entry has the name, and the record found is one listed under that name |
| Catalog.Lookup | streamlit_app.py:78 | `CHEMICALS[name]` succeeds exactly for catalog names, and the record it returns is well formed |
| Catalog.CatalogWellFormed | streamlit_app.py:23-64 | every record has `molwt > 0`, only hazard keys, an IDLH or an LEL, and positive thresholds |
| Catalog.ComparisonLevel | streamlit_app.py:105 | the comparison level is `value * 10000` for LEL and the value itself for every other key |
| Extractor.SeqMax | streamlit_app.py:136 | the maximum is at least every element and is one of them |
| Extractor.Column | streamlit_app.py:136 | column j holds `field[i][j]` for every crosswind row i |
| Extractor.ColumnMax | streamlit_app.py:136 | `np.max(C, axis=0)[j]` is at least every cell of column j and is one of them |
| Extractor.GlobalMax | streamlit_app.py:106 | `C.max()` is at least every cell and is one of them |
| Extractor.ColumnMaxima | streamlit_app.py:136 | one crosswind maximum per downwind column |
| Extractor.LastAtLeast | streamlit_app.py:136-137 | a found index lies below the search bound |
| Extractor.LastAtLeastSpec | streamlit_app.py:136-137 | nothing is found exactly when no element reaches the level; otherwise the element found reaches it and none after it does |
| Extractor.LastAtLeastIs | streamlit_app.py:136-137 | an element that reaches the level, with none after it reaching it, is the one found |
| Extractor.SeqMaxStep | streamlit_app.py:136 | the running maximum over one more row compares the new cell with the old maximum |
| Extractor.CrosswindMax | streamlit_app.py:136 | the running-maximum loop down column j returns `ColumnMax(field, j)` |
| Extractor.CrosswindMaxima | streamlit_app.py:136 | the column-by-column loop returns `np.max(C, axis=0)` |
| Extractor.LastIndexAtLeast | streamlit_app.py:136-137 | the scan returns the last index reaching the level, as `LastAtLeast` defines it |
| Extractor.MaxDistance | streamlit_app.py:136-137 | the value of lines 136-137: the coordinate of the last column whose crosswind maximum reaches the level, or 0.0; its properties are the MaxDistance* lemmas below |
| Extractor.MaxThreatDistance | streamlit_app.py:136-137 | the computed distance is `MaxDistance`: the coordinate of the last qualifying column, or 0.0 |
| Extractor.MaxDistanceNoneReached | streamlit_app.py:137 | when no column's crosswind maximum reaches the level, the distance is 0.0 |
| Extractor.MaxDistanceIsLastQualifying | streamlit_app.py:136-137 | otherwise the distance is the coordinate of the largest-index qualifying column, even if nearer columns do not qualify |
| Extractor.MaxDistanceOnAxis | streamlit_app.py:136-137 | the distance is 0.0 or an element of the downwind axis |
| Extractor.MaxDistanceZeroIff | streamlit_app.py:136-137 | on an axis without a zero sample the distance is 0.0 exactly when no column reaches the level |
| Extractor.MaxDistanceAboveGlobalMax | streamlit_app.py:136-137 | a level above the field's maximum gives 0.0 |
| Extractor.LastAtLeastGrows | streamlit_app.py:136 | if every index reaching one level also reaches another, the last index for the second is no earlier |
| Extractor.MaxDistanceMonotoneInLevel | streamlit_app.py:136-137 | on a non-negative, non-decreasing axis, raising the threshold never increases the distance |
| Extractor.ColumnMaxMonotone | streamlit_app.py:136 | a pointwise larger column has a larger or equal maximum |
| Extractor.MaxDistanceMonotoneInField | streamlit_app.py:136-137 | on such an axis, a pointwise larger field never gives a smaller distance |
| Summary.UnitOf | streamlit_app.py:108 | the unit is "%" exactly for LEL, and "ppm" for every other key |
| Summary.Shown | streamlit_app.py:104-106 | a zone is shown when the chemical defines its key and the peak reaches 40 % of its scaled level |
| Summary.EntryFor | streamlit_app.py:108-109 | the entry of a shown zone: its key, its color, the chemical's listed value and the unit |
| Summary.SummaryOf | streamlit_app.py:103-109 | the summary of a zone list, walked from first to last, has at most one entry per zone |
| Summary.ThreatSummary | streamlit_app.py:100-109 | the appending loop produces `SummaryOf(Zones, chem, C.max())` |
| Summary.SummaryEntries | streamlit_app.py:103-109 | every entry comes from a shown zone, with the chemical's listed value and unit, and every shown zone yields its entry |
| Summary.SummaryKeyIff | streamlit_app.py:103-106 | key k is listed exactly when it is a zone key, the chemical defines it, and the peak reaches 40 % of its scaled level |
| Summary.SummaryKeepsOrder | streamlit_app.py:103-109 | for a zone list with distinct keys, entries appear in the order of the zone list |
| Summary.ZonesWellFormed | streamlit_app.py:100 | the zone keys are distinct and are exactly the five hazard keys |
| Summary.SummaryInZoneOrder | streamlit_app.py:100-109 | the summary lists keys in the order ERPG3, ERPG2, ERPG1, IDLH, LEL |
| Cards.Contains | streamlit_app.py:133 | Python's `"ERPG" in name`, characterised by Cards.ContainsIff |
| Cards.ContainsIff | streamlit_app.py:133 | `sub in s` holds exactly when `sub` occurs at some offset of `s` |
| Cards.RemoveChar | streamlit_app.py:133 | the result contains no removed character; a string without it is unchanged; a one-character string is dropped when it is that character and kept otherwise |
| Cards.RemoveCharConcat | streamlit_app.py:133 | removing a character from a concatenation removes it from each part; with the one-character case this fixes `str.replace(c, "")` completely |
| Cards.CardKey | streamlit_app.py:133 | a label without "ERPG", or without a dash, is its own key |
| Cards.ErpgCardKey | streamlit_app.py:133 | "ERPG-" followed by a character maps to "ERPG" followed by that character |
| Cards.ErpgThreeKey | streamlit_app.py:133 | "ERPG-3" maps to "ERPG3" |
| Cards.ErpgTwoKey | streamlit_app.py:133 | "ERPG-2" maps to "ERPG2" |
| Cards.ErpgOneKey | streamlit_app.py:133 | "ERPG-1" maps to "ERPG1" |
| Cards.CardFor | streamlit_app.py:133-140 | the card of one label keeps the label, is "N/A" exactly when the mapped key is absent, and otherwise has the label's color and a distance that is 0.0 or a downwind sample |
| Cards.CardKeys | streamlit_app.py:132-133 | the five labels map to ERPG3, ERPG2, ERPG1, IDLH and LEL |
| Cards.DistanceCards | streamlit_app.py:132-140 | one card per (label, color) pair; a card is "N/A" exactly when the mapped key is absent, and otherwise carries its color and the distance for the scaled level |
| Cards.LelOnlyNotApplicable | streamlit_app.py:134 | a chemical that defines only LEL gets "N/A" on the ERPG and IDLH cards |
| Cards.LelOnlyDistance | streamlit_app.py:134-137 | the LEL card shows the distance for `LEL * 10000` ppm |
| App.DownwindKm | streamlit_app.py:67 | `X_km[0]` has 1200 samples from 0.01 km to 60 km, strictly increasing and non-negative |
| App.PpmField | streamlit_app.py:87-88 | the ppm field is a 1200 x 1200 rectangular grid |
| App.Assess | streamlit_app.py:78-140 | an unknown chemical gives no report; otherwise the report holds the ppm field, the summary for its peak, and the five cards |
| App.ThreatDistanceMonotoneInRate | streamlit_app.py:87-137 | a larger release rate never shortens a threat distance, for any level |
| App.PpmFieldNonNegative | streamlit_app.py:87-88 | a non-negative release gives a non-negative ppm field |
| App.PpmFieldMirrored | streamlit_app.py:87-88 | the ppm field is mirrored about the plume's centre line |
| App.ReportedDistanceInDomain | streamlit_app.py:136-137 | every reported distance lies between 0 and 60 km |

## Left out

- Floating point: `np.exp` and `X**0.894` are parameters `exp` and `pow`. The lemmas assume only what they state about them: `pow` is positive on positive reals, and `exp` is non-negative where that is needed. Rounding, overflow and underflow are not modelled.
- `np.nan_to_num` (line 73) is the identity. Over the reals every denominator is positive, so no NaN or infinity arises.
- Plume.AdvancedGaussian: the model needs `x_max*1000 >= 10` so that every downwind sample is positive. The page only ever uses the default `x_max = 60`.
- Grid size: the axes are fixed at the source's 1200 samples. `Axes.Linspace` and every extractor, summary and card member work for any size.
- Matplotlib plotting is not modelled. This covers:
  - the filled and line contours and the colour bar;
  - `LogNorm` and the log-spaced levels of line 97;
  - the threshold contours of line 107;
  - the titles, labels, axis limits and styling (lines 90-99, 107, 111-123).
  These draw on the field and do not change any computed value.
- Streamlit widgets, page styling and HTML rendering are not modelled (lines 1-21, 75-86, 123-128, 138-140). The sidebar's values are the fields of `App.Scenario`. The alphabetical order of the chemical select box and the display-mode radio button are not modelled.
- The `:.2f` formatting of summary values and card distances is not modelled. Entries and cards carry the exact values.
- The PNG export and the download button (lines 142-145) are I/O and are left out.
- Catalog.Lookup: `CHEMICALS[name]` raises `KeyError` for an unknown name. The model returns `None` instead; the select box never offers such a name. The model returns the first entry with the name. `CHEMICALS` lists each of its 40 names once; for a repeated key Python would keep the last value, while the model takes the first. The model does not prove that the catalog's names are distinct.
- Units.ToPpm requires `molwt > 0` and a temperature above -273.15 degrees C. Every catalog record meets the first (`Catalog.CatalogWellFormed`). The temperature slider's range of -10..50 meets the second.
