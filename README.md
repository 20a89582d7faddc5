# Indicator simulation engine of the Indian defence dashboard

This project models the strategic indicator simulation engine of the
dashboard class `DefenseIndeDashboardAvance` (Dashboard.py). Given a
selection (a military branch or a strategic programme), the engine does
three things:

- It resolves a configuration: four named records, and a generic record for
  every other name.
- It builds a table of indicators over the years 2000..2027. The table always
  has the year column and fourteen base indicators.
- It adds four optional groups of indicators: nuclear, modernisation, maritime
  and cyber. A group is added only when its exact tag (`nucleaire`,
  `modernisation`, `maritime`, `cyber`) is among the configuration's
  priorities.

Almost every value is given by a fixed formula of the year, or of the year
and one base value of the configuration. The formulas are of five kinds:
linear trends, piecewise segments, a seasonal term, event multipliers, and
caps or floors. The exception is the submarine column (Dashboard.py:371). It
filters the year list and pads it with `2009 - min(years)` zeros, so the value
in a row depends on the whole year list, not on that row's year.

Modules:

- `Wrappers`: an `Option` type.
- `Sequences`: distinctness of a sequence's elements, and facts about concatenation.
- `Catalog`: the branch and programme lists, and the missile and naval
  catalogues with lookups.
- `Config`: `get_advanced_config`, and the defaults the generators apply to
  missing keys (`60.0`, `1300`, `80`).
- `Formulas`: one function per indicator giving its value for one year, with
  the caps, floors, breakpoints and monotonicity proved.
- `Series`: each indicator as a list over a list of years. This includes the
  submarine series, which filters the years and pads with zeros.
- `Simulators`: the six generators the source writes as loops, as methods.
  Each is proved equal to its `Series` list.
- `Assembler`: the table as an ordered dict, built by
  `GenerateAdvancedData`. That method follows the source: a dict literal, then
  up to four conditional `update` calls. It is proved equal to the declarative
  table `Dataset`. The properties proved about `Dataset` are the shape, the
  gating, the column counts, the row counts and some values.

"Forces Stratégiques" gets no optional group. Its priorities are
`triade_nucleaire`, `missiles_balistiques` and `sous_marins`
(Dashboard.py:208), and the gate at
Dashboard.py:161 is an exact match on the whole tag `nucleaire`. See
`Assembler.TagsPerSelection` and `Assembler.ColumnsPerSelection`.

Two properties of the code as written are proved rather than corrected:

- The budget's last `elif` branch, a factor of 1.25 from 2020, can never be
  taken, because the branch "from 2016" comes before it in the chain.
- On the years 2000..2027 the submarine column is misaligned with its years.
  For the first 19 rows (2000..2018) the row of year `y` holds the value
  meant for `y + 9`; the last nine rows (2019..2027) hold 0 instead of the
  85 meant for 2028..2036.

## Model

| member | source | states |
|---|---|---|
| Catalog.Branches | Dashboard.py:104-109 | eight branch names, none repeated |
| Catalog.Programmes | Dashboard.py:111-116 | seven programme names, none repeated |
| Catalog.BranchesAndProgrammesDisjoint | Dashboard.py:104-116 | no name is both a branch and a programme, so the joint selection list has no duplicate |
| Catalog.MissileSystems | Dashboard.py:118-125 | the five missile records keyed by name; stated by LookupMissile and AgniVLongestRange |
| Catalog.NavalAssets | Dashboard.py:127-134 | the five naval records keyed by name; stated by LookupNavalAsset and NavalRecordsHaveOneArmament |
| Catalog.LookupMissile | Dashboard.py:118-125 | a record is found exactly for the five catalogued missiles; every record is operational with a range of 350 to 5000 km |
| Catalog.LookupNavalAsset | Dashboard.py:127-134 | a record is found exactly for the five catalogued ships; every record is operational with a displacement of 6000 to 45000 t |
| Catalog.AgniVLongestRange | Dashboard.py:118-125 | Agni-V, at 5000 km, has the longest range of the catalogue |
| Catalog.NavalRecordsHaveOneArmament | Dashboard.py:127-134 | each naval record has exactly one of aircraft, armament, missiles or torpedoes |
| Config.KnownConfigs | Dashboard.py:194-227 | the four configured records; their bases are stated by EffectiveBases and their priorities by Assembler.TagsPerSelection |
| Config.ResolveConfig | Dashboard.py:192-234 | the generic record is returned exactly for names outside the four configured ones; every record has at least one priority |
| Config.EffectiveBases | Dashboard.py:192-265 | the effective (budget, personnel, exercises) bases of every selection, defaults included: (70, 1400, 120), (60, 8, 15), (60, 67, 40), (2.5, 1300, 80), otherwise (60, 100, 25) |
| Config.BudgetBase | Dashboard.py:238 | `config.get('budget_base', 60.0)`; stated by DefaultsOnlyWhenAbsent and EffectiveBases |
| Config.PersonnelBase | Dashboard.py:256 | `config.get('personnel_base', 1300)`; stated by DefaultsOnlyWhenAbsent and EffectiveBases |
| Config.ExercisesBase | Dashboard.py:265 | `config.get('exercices_base', 80)`; stated by DefaultsOnlyWhenAbsent and EffectiveBases |
| Config.DefaultsOnlyWhenAbsent | Dashboard.py:238-265 | a base value present in a record is used as is; a missing one becomes 60.0, 1300 or 80 |
| Config.UnknownSelectionFallsBack | Dashboard.py:229-234 | any unconfigured name, the empty one included, gets the generic record and the default budget base 60 |
| Config.ConfiguredSelectionsAreCatalogued | Dashboard.py:192-227 | each of the four configured names is a branch or a programme of the catalogue |
| Config.BasesPositive | Dashboard.py:192-265 | every selection has positive budget, personnel and exercise bases |
| Formulas.FirstMatch | Dashboard.py:243-250 | the index of the first window of the if/elif chain that covers the year, or none when no window covers it |
| Formulas.BudgetFactorByYear | Dashboard.py:243-250 | the multiplier by year: 1.1 for 2002-2004, 1.15 for 2008-2010, 1.2 from 2016, 1 otherwise |
| Formulas.LateWindowNeverApplies | Dashboard.py:249-250 | the 2020 window is never the first match, so the factor 1.25 never applies |
| Formulas.BudgetAt | Dashboard.py:241-251 | the budget of one year; its value by window is stated by BudgetAtWindows, and SimulateBudget is proved to compute it |
| Formulas.BudgetAtWindows | Dashboard.py:236-252 | the budget is the 6.5%-a-year trend of the base, scaled by the factor of the window the year falls in, or unscaled outside every window |
| Formulas.PersonnelAt | Dashboard.py:257 | personnel of one year; stated by PersonnelIncreasing |
| Formulas.PersonnelIncreasing | Dashboard.py:254-257 | with a positive base, personnel strictly grows with the year |
| Formulas.GdpShareAt | Dashboard.py:261 | GDP share of one year; stated by GdpShareIncreasing |
| Formulas.GdpShareIncreasing | Dashboard.py:259-261 | the military share of GDP strictly grows, from 2.5 in 2000 to 5.2 in 2027 |
| Formulas.QuarterSine | Dashboard.py:266 | the seasonal sine, taken at integer years, lies in [-1, 1] |
| Formulas.ExercisesAt | Dashboard.py:263-266 | exercises stay within 8 of the trend base + 4 a year |
| Formulas.ExercisesSeasonal | Dashboard.py:263-266 | the seasonal term has period 4 (four years later: 16 more) and is 0, +8 or -8 depending on the year modulo 4 |
| Formulas.ReadinessAt | Dashboard.py:268-280 | readiness never exceeds 90 |
| Formulas.ReadinessMonotone | Dashboard.py:268-280 | readiness never decreases with the year |
| Formulas.ReadinessCappedIff | Dashboard.py:268-280 | readiness equals its cap 90 exactly from 2012 |
| Formulas.DeterrenceAt | Dashboard.py:282-297 | deterrence lies between 0 and 95 |
| Formulas.DeterrenceMonotone | Dashboard.py:282-297 | deterrence never decreases, and is 95 exactly from 2028 |
| Formulas.DeterrenceBreakpoints | Dashboard.py:286-296 | values on both sides of each threshold: 0 in 1997, 40 in 1998-2002, 60 in 2003-2011, 75 in 2012-2017, 85 in 2018, 94 in 2027 |
| Formulas.MissileTestsAt | Dashboard.py:303-313 | at least 2 tests a year, at least 4 from 2006 |
| Formulas.MissileTestsMonotone | Dashboard.py:303-313 | the count never decreases, and strictly increases from 2005 |
| Formulas.MissileTestsBreakpoints | Dashboard.py:307-312 | 2 in 2005, 4 in 2006, 9 in 2011, 10 in 2012, 40 in 2027 |
| Formulas.StockpileRaw | Dashboard.py:343-350 | the uncapped stockpile segments; SimulateNuclearArsenalSize's loop is proved to compute them before the cap, and StockpileBreakpoints states their values |
| Formulas.StockpileAt | Dashboard.py:339-351 | the stockpile lies between 0 and 300, and is 300 exactly from 2030 |
| Formulas.StockpileBreakpoints | Dashboard.py:343-351 | 50 in 1998, 80 in 2004 and 2005, 152 in 2014 falling to 150 in 2015, 180 in 2018, 270 in 2027 |
| Formulas.MissileRangeAt | Dashboard.py:353-367 | the range lies between 250 and 6000 km |
| Formulas.MissileRangeBreakpoints | Dashboard.py:357-366 | values on both sides of each threshold, with drops at 2012 (4000 to 3500) and at 2018 (6000 to 5000) |
| Formulas.MissileRangePeak | Dashboard.py:353-367 | the range is 5000 from 2018, and 6000 in 2017 and in no other year |
| Formulas.MobilisationAt | Dashboard.py:299-301 | mobilisation time is at least 15 days, and at most 45 from 2000 |
| Formulas.MobilisationMonotone | Dashboard.py:299-301 | mobilisation time never increases, and is 15 exactly from 2030 |
| Formulas.RampAt | Dashboard.py:315-337 | a capped trend is the smaller of the trend and the cap |
| Formulas.IntRampAt | Dashboard.py:327-333 | the same for integer trends |
| Formulas.RampMonotone | Dashboard.py:315-337 | a capped trend with a non-negative slope never decreases |
| Formulas.IntRampMonotone | Dashboard.py:327-333 | the same for integer trends |
| Formulas.SaturationYears | Dashboard.py:315-371 | the year from which each base ramp (and the submarine trend) sits at its cap: 2014, 2012, 2015, 2013, 2014, 2013, 2026 |
| Formulas.GroupSaturationYears | Dashboard.py:373-411 | the year from which each ramp of the optional groups sits at its cap |
| Series.Range | Dashboard.py:138 | `range(lo, hi)`: hi - lo consecutive years starting at lo |
| Series.MapSeq | Dashboard.py:317-411 | a list comprehension: one value per year, in the same order |
| Series.Budget | Dashboard.py:236-252 | the budget column, BudgetAt year by year; SimulateBudget's loop is proved to compute it, and BaseColumnsInTable places it under `Budget_Defense_Mds` |
| Series.Personnel | Dashboard.py:254-257 | the personnel column, PersonnelAt year by year (increasing in the year by PersonnelIncreasing); placed by BaseColumnsInTable |
| Series.GdpShare | Dashboard.py:259-261 | the GDP-share column, GdpShareAt year by year (2.5 rising to 5.2 by GdpShareIncreasing); placed by BaseColumnsInTable |
| Series.Exercises | Dashboard.py:263-266 | the exercises column, ExercisesAt year by year (within 8 of the trend, period 4 by ExercisesSeasonal); placed by BaseColumnsInTable |
| Series.Readiness | Dashboard.py:268-280 | the readiness column; SimulateReadiness's loop is proved to compute it, capped at 90 by ReadinessAt |
| Series.Deterrence | Dashboard.py:282-297 | the deterrence column; SimulateDeterrence's loop is proved to compute it, within 0..95 by DeterrenceAt |
| Series.Mobilisation | Dashboard.py:299-301 | the mobilisation column, MobilisationAt year by year (at least 15, never increasing by MobilisationMonotone); placed by BaseColumnsInTable |
| Series.MissileTests | Dashboard.py:303-313 | the missile-test column; SimulateMissileTests's loop is proved to compute it |
| Series.RampSeries | Dashboard.py:315-411 | a float capped-trend comprehension (lines 315-325, 335-337, 377-387, 409-411), RampAt year by year; stated by RampSeriesSorted |
| Series.IntRampSeries | Dashboard.py:315-411 | an integer capped-trend comprehension (lines 327-333, 373-375, 389-407), IntRampAt year by year; stated by IntRampSeriesSorted |
| Series.IntRampSeriesSorted | Dashboard.py:327-333 | over increasing years, an integer ramp column never decreases and never exceeds its cap |
| Series.Stockpile | Dashboard.py:339-351 | the stockpile column; SimulateNuclearArsenalSize's loops are proved to compute it, within 0..300 by StockpileAt |
| Series.MissileRange | Dashboard.py:353-367 | the missile-range column; SimulateMissileRangeEvolution's loop is proved to compute it, within 250..6000 by MissileRangeAt |
| Series.RampSeriesSorted | Dashboard.py:315-337 | over increasing years, a ramp column never decreases and never exceeds its cap |
| Series.AtLeast | Dashboard.py:371 | the comprehension's filter: a year is in the result exactly when it is in the input and at least the threshold; a single year is kept or dropped by the threshold |
| Series.AtLeastConcat | Dashboard.py:371 | the filter distributes over concatenation, so kept years stay in input order (with the single-year case this determines the result) |
| Series.SubmarineSeries | Dashboard.py:369-371 | the filter-and-pad construction; its properties are stated by SubmarineLengthOnRange, SubmarineNoPadding, SubmarineOnRange, SubmarineOnYearRange and SubmarineMisaligned |
| Series.SeqMin | Dashboard.py:371 | `min(annees)` is an element no larger than any other |
| Series.Zeros | Dashboard.py:371 | `[0] * n` has max(n, 0) zeros |
| Series.SubmarineAligned | Dashboard.py:369-371 | the value a year would get if the column were aligned lies between 0 and 85 |
| Series.AtLeastRange | Dashboard.py:371 | filtering a contiguous run of years keeps its part from the threshold |
| Series.AtLeastAll | Dashboard.py:371 | filtering years that all pass the threshold keeps them all |
| Series.SubmarineLengthOnRange | Dashboard.py:369-371 | on a run of n contiguous years the submarine column has n values exactly when the run ends in 2008 or later |
| Series.SubmarineNoPadding | Dashboard.py:369-371 | when every year is 2009 or later, no zeros are added and the column is the capped trend year by year |
| Series.SubmarineOnRange | Dashboard.py:369-371 | on years lo..hi-1 around 2009, the column is the trend of 2009..hi-1 followed by 2009 - lo zeros |
| Series.SubmarineOnYearRange | Dashboard.py:369-371 | on 2000..2027: 28 values; row i holds min(20 + 4i, 85), the aligned value of year 2009 + i, for i < 19; zeros after; all in 0..85 |
| Series.SubmarineMisaligned | Dashboard.py:369-371 | the row of 2000 holds 20 where the aligned value is 0, and the row of 2027 holds 0 where it is 85 |
| Simulators.SimulateBudget | Dashboard.py:236-252 | the loop, unreachable branch included, computes the budget column year by year |
| Simulators.SimulateReadiness | Dashboard.py:268-280 | the loop of cumulative bonuses and the cap computes the readiness column |
| Simulators.SimulateDeterrence | Dashboard.py:282-297 | the loop computes the deterrence column |
| Simulators.SimulateMissileTests | Dashboard.py:303-313 | the loop computes the missile-test column |
| Simulators.SimulateNuclearArsenalSize | Dashboard.py:339-351 | the loop, then the cap at 300, computes the stockpile column |
| Simulators.SimulateMissileRangeEvolution | Dashboard.py:353-367 | the loop computes the missile-range column |
| Assembler.Put | Dashboard.py:162-188 | `data[name] = column`: the name maps to the column, every other key keeps its presence and value, a new name is appended to the column order, and an existing name leaves the order unchanged |
| Assembler.Update | Dashboard.py:162-188 | `data.update(entries)`: the old column order is a prefix of the new one, which has at most one more name per entry, and no key is lost |
| Assembler.FromEntries | Dashboard.py:142-158 | the dict literal, as an update of the empty table; stated by TableOfEntries |
| Assembler.Names | Dashboard.py:140-188 | the names of the entries, in order |
| Assembler.UpdateConcat | Dashboard.py:162-188 | two `update` calls in a row are one `update` with both entry lists |
| Assembler.UpdateKeys | Dashboard.py:162-188 | after `update`, the keys are the old keys and the entries' names |
| Assembler.UpdateKeeps | Dashboard.py:162-188 | `update` leaves alone every column no entry names |
| Assembler.UpdateColumns | Dashboard.py:162-188 | new, distinct names are appended to the column order |
| Assembler.UpdateValues | Dashboard.py:162-188 | after `update` with new, distinct names, each name maps to its entry's column |
| Assembler.UpdateFresh | Dashboard.py:162-188 | the four facts above together |
| Assembler.YearRangeContiguous | Dashboard.py:138 | the year column has 28 increasing years 2000..2027 |
| Assembler.ColumnNames | Dashboard.py:140-188 | the names of the assembled entries are the base names, then each present group's names |
| Assembler.BaseNamesDistinct | Dashboard.py:140-156 | the 15 base names are distinct |
| Assembler.GroupNamesDistinct | Dashboard.py:161-188 | the names within each group are distinct |
| Assembler.GroupNamesNotBase | Dashboard.py:140-188 | no group name is a base name |
| Assembler.GroupNamesDisjoint | Dashboard.py:161-188 | no name belongs to two groups |
| Assembler.ExpectedNamesDistinct | Dashboard.py:140-188 | whichever groups are present, no column name occurs twice |
| Assembler.TableOfEntries | Dashboard.py:140-188 | a table built from entries with distinct names lists them in order and maps each to its column |
| Assembler.AssembledShape | Dashboard.py:140-188 | for any year list and configuration: the columns in source order, no name twice, keys equal to the columns, each mapped to its generator's column |
| Assembler.BaseEntries | Dashboard.py:142-158 | the dict literal's 15 names and generators in order; BaseEntryNames ties its names to BaseNames and BaseColumnsInTable maps each name to its generator's column |
| Assembler.GroupEntries | Dashboard.py:162-188 | the four `update` literals; GatedEntryNames ties their names to GroupNames and GroupColumnsInTable maps each name to its generator's column |
| Assembler.Tag | Dashboard.py:161-183 | the exact tag of each gate (`nucleaire`, `modernisation`, `maritime`, `cyber`); stated by GroupPresentIff and TagsPerSelection |
| Assembler.Gated | Dashboard.py:161-188 | a group's entries exactly when its tag is a priority; GatedStep shows one conditional update appends them, and GroupPresentIff states both directions on the table |
| Assembler.Columns | Dashboard.py:140-188 | the entries in insertion order, each gated group after the base entries; stated by ColumnNames, ColumnsRows and AssembledShape |
| Assembler.Dataset | Dashboard.py:136-190 | the table of a selection; stated by DatasetShape, ColumnsPerSelection, EveryColumnHas28Rows and FullArmyValues |
| Assembler.DatasetShape | Dashboard.py:136-190 | the table for any selection has that shape |
| Assembler.InExpectedNames | Dashboard.py:161-188 | a name is a column exactly when it is a base name or belongs to a group whose tag is a priority |
| Assembler.GroupPresentIff | Dashboard.py:161-188 | all of a group's columns are present exactly when its tag is a priority; none are present otherwise |
| Assembler.ColumnCount | Dashboard.py:140-188 | column count = 15 + 4 (nucleaire) + 3 each (modernisation, maritime, cyber) |
| Assembler.TagsPerSelection | Dashboard.py:192-227 | a group tag is among the priorities exactly for "Forces Armées Indiennes" |
| Assembler.ColumnsPerSelection | Dashboard.py:136-234 | "Forces Armées Indiennes" gets 28 columns; every other selection, "Forces Stratégiques" included, only the 15 base columns |
| Assembler.NameCountPerSelection | Dashboard.py:161-234 | the number of expected names per selection: 28 or 15 |
| Assembler.BaseOnlyPerSelection | Dashboard.py:161-234 | for every selection but "Forces Armées Indiennes" the names are the base names |
| Assembler.ColumnsRows | Dashboard.py:140-188 | every column has one value per year when the submarine column does |
| Assembler.GatedRows | Dashboard.py:161-188 | the same for each group |
| Assembler.TableRows | Dashboard.py:140-188 | a table built from entries of n values has only columns of n values |
| Assembler.EveryColumnHas28Rows | Dashboard.py:136-190 | every column of every generated table has 28 values |
| Assembler.EntryInTable | Dashboard.py:140-188 | each entry's name maps to that entry's column |
| Assembler.BaseColumnsInTable | Dashboard.py:140-156 | each base column holds its generator's series |
| Assembler.GroupColumnsInTable | Dashboard.py:161-188 | each column of a present group holds its generator's series |
| Assembler.FullArmyValues | Dashboard.py:136-190 | for "Forces Armées Indiennes" the year column is 2000..2027 and the stockpile column is the generator's, 180 in the row of 2018 |
| Assembler.GatedUpdates | Dashboard.py:161-188 | the four conditional updates after the base dict literal build the table of all columns |
| Assembler.GatedStep | Dashboard.py:161-188 | one conditional update extends the table's entries by the group when its tag is present |
| Assembler.GenerateAdvancedData | Dashboard.py:136-190 | returns the resolved configuration and the table `Dataset(selection)`, whose properties are the lemmas above |

## Left out

- The user interface is not modelled: Streamlit layout, CSS, sidebar, charts, the `display_*` and `create_*` methods, and `run_advanced_dashboard`.
- The pandas `DataFrame` is modelled as an ordered dict of columns (column order plus a map from name to column); its index and dtypes are not.
- Floating point is not modelled: decimal constants are exact reals, so rounding is not represented. For example, the 2003 budget of "Forces Armées Indiennes", `70.0 * (1 + 0.065 * 3) * 1.1`, is 92.01500000000001 in binary floating point, while the model gives exactly 92.015.
- Formulas.QuarterSine: `np.sin(2 * np.pi * k / 4)` is taken as exactly 0, 1, 0 or -1 for integer k; numpy returns values within about 1e-15 of these.
- The Python types of capped values are not modelled: `min(base, 90)` returns the int 90 when capped and a float otherwise, and the model returns the real 90.0 in both cases.
- Series.SubmarineSeries requires a non-empty year list: `min([])` raises `ValueError` in Python, and the engine only ever calls it with the 28 years.
- Config.Config keeps the bases and the priorities, which the generators read, and the record's `type` as `kind`, which is written at Dashboard.py:196, 205, 213, 221 and 230 but never read; the descriptive keys (doctrines, special capabilities, deployed systems, command, fleets, key ships, components, doctrine) are not represented.
- Config.Config makes `priorities` a required field, while the source reads it as `config.get('priorites', [])` (Dashboard.py:161); every record of the source has the key, so the default is never used and no behaviour is lost.
- The catalogues' keys `type`, `portee`, `ogives`, `vitesse`, `statut`, `deplacement`, `avions`, `armement`, `missiles` and `torpilles` are kept as record fields. The `__init__` that stores the catalogues on the instance is not modelled; they are constant functions.
- The generators that are plain list comprehensions (personnel, GDP share, exercises, mobilisation, and every capped trend) are modelled as functions over the year list, not as methods, because the source has no loop or state for them.
