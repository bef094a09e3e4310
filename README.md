# Salary dashboard pipeline, modelled in Dafny

The dashboard serves a table of salary-survey responses. Each response has a
company, a location with coordinates, a timestamp, years of experience, a
total yearly compensation, a gender and four degree flags. Four
near-identical Dash applications (src/updated_app.py, src/app.py,
src/Yubo-update.py, src/app_new.py) share the same pipeline:

1. At start-up the frame is cleaned. A row is kept only if its total
   compensation is present and positive. Each kept row gets
   `timestamp_numeric`, its whole-day offset from the earliest timestamp.
2. On every interaction the frame is filtered. A range slider gives a
   closed interval of day offsets from the earliest timestamp. A company
   dropdown gives `None`, a list of names or a single name; a falsy value
   (`None`, `[]`, `""`) means no company filter.
3. Five views are computed from the filtered rows, plus the summary cards:
   - the map: mean compensation per (latitude, longitude) pair;
   - the bar chart: the ten companies with the highest mean compensation;
   - the pie: counts of genders normalised to male, female and other;
   - the scatter plot: the filtered rows, without the columns it only uses
     for colour and hover (see "## Left out");
   - the violin plot: a melted "long form", one row per degree flag equal
     to 1;
   - the cards: the number of rows, the mean compensation and the mean
     years of experience, both means 0 when no row passes.
4. The controls are plain arithmetic: the slider's span, default value and
   mark positions, the sorted dropdown options, and the off-canvas toggle of
   src/app_new.py.

Data types:

- A timestamp is an integer day number.
- Compensation is an `int`, and means are `real`s.
- A cell pandas may hold as NaN is an `Option`.

The files differ in two ways, both modelled:

- src/updated_app.py maps every row's gender, so a missing gender becomes
  `str(NaN) == "nan"`, which counts as 'other'. The other files call
  `.dropna()` first, so a missing gender is not counted.
- src/updated_app.py and the per-chart callbacks of src/app.py replace a
  missing slider value by the full span. The `update_dashboard` callbacks
  of src/app.py, src/Yubo-update.py and src/app_new.py index the value
  directly, so they take a range that is always present.

Modules:

- `Seqs`: row selection, projection, sums, means and extrema.
- `Strings`: ordering of names, sorted de-duplication, ASCII lower-casing.
- `Records`: the row types.
- `Cleaning`: load-time cleaning, imperative as the source is. The whole
  load, `LoadAndPreprocess`, is proved equal to the function `Preprocess`.
  Its steps are proved against `Keep` (dropping rows), `Min` (the earliest
  timestamp) and `WithOffset` (adding the day offset).
- `Filtering`: the date-and-company filter.
- `LocationView`, `CompanyRanking`, `GenderView`, `EducationView` and
  `SummaryCards`: the aggregates.
- `Dashboard`: the controls and each file's callbacks, composed.

src/updated_app.py also defines `process_*` functions that take explicit
interval bounds; nothing in that file calls them. They are modelled as
`Dashboard.ProcessUpdatedApp` and related to the callbacks.

A row with a missing compensation never reaches a mean: loading drops it,
because a NaN comparison is false (src/updated_app.py:33).

## Model

| member | source | states |
|---|---|---|
| Cleaning.Preprocess | src/updated_app.py:33-34 | No contract of its own: the cleaned frame. Stated by PreprocessCleans, RetainedExactly and DayOffsetsFromEarliest, and computed step by step by LoadAndPreprocess |
| Cleaning.LoadAndPreprocess | src/updated_app.py:20-35 | Dropping non-positive rows, taking the minimum timestamp and adding day offsets, step by step, yields exactly the cleaned frame `Preprocess(raw)` |
| Cleaning.DropNonPositive | src/updated_app.py:33 | The loop keeps exactly the rows whose compensation is present and positive, in order |
| Cleaning.MinTimestamp | src/Yubo-update.py:23 | The scan returns the minimum of a non-empty column of timestamps |
| Cleaning.AddDayOffsets | src/app.py:166 | Row m of the result is row m of the input with its offset from the origin added; lengths agree |
| Cleaning.PreprocessCleans | src/app.py:21-27 | The cleaned frame is the retained raw rows, unmodified and in order, and every compensation is positive |
| Cleaning.RetainedExactly | src/Yubo-update.py:16-21 | A raw row survives cleaning if and only if its compensation is present and positive; a missing value is dropped |
| Cleaning.DayOffsetsFromEarliest | src/app.py:164-166 | Every day offset is the timestamp minus the earliest timestamp, is never negative, and is 0 on some row |
| Records.EarliestIsMinimum | src/updated_app.py:220 | The earliest timestamp is no later than any row's and is attained by some row |
| Records.CompanyColumn | src/app.py:192 | A name is in the column exactly when some row has it as its present company |
| Records.CompensationMeanBounds | src/app.py:330 | A mean of compensations lies between their minimum and maximum, and is positive when all are |
| Filtering.FilterRows | src/updated_app.py:49-57 | No contract of its own: the date-and-company filter. Stated by FilterRowsMembers and FilterKeepsOrder |
| Filtering.DashboardFilter | src/updated_app.py:477-479 | No contract of its own: the slider filter, offsets counted from the earliest timestamp. Stated by DashboardFilterInterval, DashboardFilterByOffset and DashboardFilterKeepsAll |
| Filtering.FilterRowsMembers | src/updated_app.py:49-57 | A row passes exactly when its timestamp lies in the closed interval and the selection wants its company; a falsy selection filters on the interval alone |
| Filtering.FilterKeepsOrder | src/app_new.py:197-207 | The filtered frame equals one selection by both conditions; its k-th row is the input row at the k-th position that passes |
| Filtering.FilterRowsKeepsAll | src/Yubo-update.py:166-172 | With no company chosen, an interval holding every timestamp keeps the whole frame |
| Filtering.DashboardFilterInterval | src/updated_app.py:477-479 | Holds by definition, as exposition: the slider filter on a non-empty frame is the interval filter from earliest + lo to earliest + hi |
| Filtering.DashboardFilterByOffset | src/Yubo-update.py:161-172 | On the cleaned frame, a row passes the slider filter exactly when its day offset is within [lo, hi] and its company is wanted |
| Filtering.DashboardFilterKeepsAll | src/app.py:434-440 | With no company chosen, a range from offset 0 or earlier to past the latest timestamp keeps every row |
| LocationView.ByLocation | src/updated_app.py:59-62 | No contract of its own: the map's groupby by coordinate pair. Stated by ByLocationKeys, ByLocationEntry and MissingCoordinatesIgnored |
| LocationView.ByLocationKeys | src/updated_app.py:59-62 | Follows directly from the contract of `Keys`, stated for the map view: the map has an entry for a coordinate pair exactly when some filtered row has both coordinates equal to it |
| LocationView.ByLocationEntry | src/Yubo-update.py:174-177 | Each entry's group is exactly the rows at that pair. Its avg_salary is the group's mean compensation, between the group's extremes and positive on a cleaned frame. Its label is the first present location in the group |
| LocationView.FirstPresent | src/app.py:118 | `first` yields the earliest present value, or nothing when every value is missing |
| LocationView.MissingCoordinatesIgnored | src/app.py:116-119 | Removing rows with a missing coordinate does not change the map |
| CompanyRanking.CompanyMeans | src/app.py:121 | One entry per distinct present company, in name order, each holding that company's mean compensation |
| CompanyRanking.Ranking | src/updated_app.py:95-96 | The ranking is a permutation of the per-company means, ordered by mean descending, with ties broken by name |
| CompanyRanking.RankingEntries | src/Yubo-update.py:199 | The ranking has one entry per distinct company, and each entry is a present company with its own mean |
| CompanyRanking.TopCompanies | src/updated_app.py:96 | No contract of its own: `nlargest(n, 'avg_salary')`. Stated by TopCompaniesRanked and TopCompaniesAreLargest |
| CompanyRanking.TopTen | src/updated_app.py:96 | No contract of its own: TopCompanies with n = 10, the bar chart's data |
| CompanyRanking.TopCompaniesRanked | src/app_new.py:237-238 | `nlargest(n)` has min(n, number of companies) entries. They are distinct, present companies with their own means, in non-increasing order of mean |
| CompanyRanking.TopCompaniesAreLargest | src/Yubo-update.py:200 | A company left out of the top n has a mean no larger than the last one shown; on an equal mean the last one shown precedes it by name, the tie rule of `nlargest` at the cut |
| CompanyRanking.InsertRanked | src/app.py:122 | Inserting a company into a ranked list keeps it ranked and adds exactly that entry |
| CompanyRanking.RankDescending | src/app.py:122 | Ranking distinct companies gives an ordered permutation of them |
| CompanyRanking.BeforeTransitive | src/updated_app.py:96 | The ranking order is transitive |
| Strings.SortedUnique | src/app_new.py:54 | `sorted(unique(names))` is strictly ascending and holds exactly the given names |
| Strings.Insert | src/updated_app.py:237 | Inserting a name into a strictly sorted list keeps it strictly sorted; the names of the result are the list's names plus the new one |
| Strings.LessTotal | src/updated_app.py:237 | Two distinct names are ordered one way or the other |
| Strings.LessTransitive | src/updated_app.py:237 | The name order is transitive |
| Strings.LessIrreflexive | src/updated_app.py:237 | No name precedes itself |
| Strings.SortedDistinct | src/app.py:192 | A strictly sorted list of names holds no name twice |
| Strings.LowerMatches | src/updated_app.py:39 | The lower-cased string equals a lower-case word exactly when it matches the word letter for letter, ignoring case |
| GenderView.GenderMapping | src/updated_app.py:37-44 | The result is male exactly for a present value equal to "m" or "male" ignoring case, and female exactly for "f" or "female". Everything else, a missing value included, is other |
| GenderView.CategoriesAllRows | src/updated_app.py:119-120 | No contract of its own: every filtered row's gender mapped. Stated by GenderCountsAllRows and VariantsDifferOnlyInMissing |
| GenderView.CategoriesPresentOnly | src/app.py:124-128 | No contract of its own: the present genders mapped, after `dropna`. Stated by GenderCountsPresentOnly and VariantsDifferOnlyInMissing |
| GenderView.ValueCounts | src/updated_app.py:120 | No contract of its own: `value_counts()` as a map from category to count. Stated by ValueCountsTotal |
| GenderView.ValueCountsTotal | src/updated_app.py:120 | Each listed category has a positive count equal to its multiplicity, and the counts add up to the number of values |
| GenderView.MultiplicitiesAddUp | src/updated_app.py:120 | The multiplicities of the three categories add up to the number of values |
| GenderView.GenderCountsAllRows | src/updated_app.py:119-121 | Mapping every row, the pie's counts add up to the number of filtered rows |
| GenderView.GenderCountsPresentOnly | src/app.py:124-129 | Mapping only present genders, the counts add up to the number of rows with a gender, at most the number of rows |
| GenderView.VariantsDifferOnlyInMissing | src/app_new.py:260-265 | The two mappings give equal male and female counts. The 'other' count of the map-every-row variant is larger by the number of rows without a gender |
| GenderView.CategoriesSnoc | src/Yubo-update.py:217-222 | How both category lists and the count of rows without a gender grow when a row is appended |
| EducationView.EducationLongForm | src/updated_app.py:168-180 | No contract of its own: the violin plot's melted long form. Stated by LongFormByLevel, LongFormMembers, LongFormLabels and LongFormLength |
| EducationView.MeltColumnLevel | src/updated_app.py:168-174 | Filtering one melted column by `Degree == 1` and renaming it gives the rows holding that degree, labelled, in frame order |
| EducationView.LongFormByLevel | src/app.py:131-143 | The long form is, level by level in column order, one row per record holding that degree, with its compensation and the level label |
| EducationView.LevelRowsMembers | src/Yubo-update.py:245-251 | A row is in one level's block exactly when some record holds that degree and the row carries its compensation and the level's label |
| EducationView.LongFormMembers | src/app_new.py:295-307 | A long-form row is exactly some record and level whose flag equals 1, with the record's compensation and the level's label |
| EducationView.LongFormLabels | src/Yubo-update.py:252-257 | Every label is Highschool, Bachelors, Masters or Doctorate |
| EducationView.LongFormLength | src/updated_app.py:168-180 | The long form has as many rows as the records have degree flags equal to 1 |
| EducationView.LevelCountsAddUp | src/app_new.py:295-301 | The per-level counts of records holding a degree add up to the total number of set flags |
| Seqs.MeanSkipNa | src/updated_app.py:214 | The mean of a column with missing values is missing exactly when every value is missing |
| Seqs.MeanSkipNaBounds | src/updated_app.py:214 | When present, the skip-missing mean lies within any bounds of the present values |
| SummaryCards.Summarize | src/updated_app.py:212-214 | The count is the number of filtered rows. Both means are 0 when no row passes. Otherwise the compensation mean lies between the extremes and is positive on a cleaned frame. The experience mean is missing exactly when every filtered row lacks it |
| SummaryCards.ExperienceMeanBounds | src/updated_app.py:212-214 | The experience card lies within any bounds of the filtered rows' present years of experience; on an empty frame its 0 must lie within them too |
| Dashboard.SpanDays | src/app.py:176-177 | The span is non-negative, every timestamp lies within it of the earliest, and the latest lies exactly that far |
| Dashboard.OffsetsWithinSpan | src/app_new.py:38-39 | On the cleaned frame every day offset lies in [0, span], and both ends are reached |
| Dashboard.MarkStep | src/app.py:183 | The mark step `max(1, days // 4)` is at least 1. It is the floor of days / 4 from 8 days on, and 1 below that |
| Dashboard.PyRange | src/app.py:180-184 | No contract of its own: Python's `range(start, stop, step)`. Stated by PyRangeShape |
| Dashboard.MarkPositions | src/app.py:180-184 | No contract of its own: the slider's mark positions. Stated by MarkPositionsSpaced and MarksIncrease |
| Dashboard.PyRangeShape | src/app.py:180-184 | `range(start, stop, step)` is empty exactly when start >= stop. Otherwise it starts at start, goes up by step, and its last value is the last one below stop |
| Dashboard.MarkPositionsSpaced | src/updated_app.py:262-268 | The marks sit at 0, s, 2s, … in increasing order, the last one at most the span and within one step of it |
| Dashboard.MarksIncrease | src/Yubo-update.py:39-42 | Evenly spaced marks with a positive step strictly increase |
| Dashboard.CompanyOptions | src/Yubo-update.py:51 | The dropdown options are strictly ascending and are exactly the present company names |
| Dashboard.ToggleOffcanvas | src/app_new.py:176-179 | The panel flips exactly when the click count is present and non-zero |
| Dashboard.ResolveRange | src/updated_app.py:474-475 | No contract of its own: a missing slider value becomes the full span. Used by DefaultRangeShowsAll |
| Dashboard.UpdateDashboard | src/app_new.py:196-325 | No contract of its own: the single callback of src/Yubo-update.py and src/app_new.py. Stated by UpdateDashboardConsistent |
| Dashboard.UpdatedAppView | src/updated_app.py:473-681 | No contract of its own: the `update_*` callbacks of src/updated_app.py. Stated by UpdatedAppConsistent and VariantsAgreeExceptGender |
| Dashboard.AppChartsView | src/app.py:434-567 | No contract of its own: the per-chart callbacks of src/app.py. Stated by FilesAgree |
| Dashboard.AppSummaryView | src/app.py:315-331 | No contract of its own: the summary part of src/app.py's `update_dashboard`. Stated by FilesAgree |
| Dashboard.ProcessUpdatedApp | src/updated_app.py:46-216 | No contract of its own: the uncalled `process_*` functions of src/updated_app.py. Stated by ProcessMatchesUpdate |
| Dashboard.UpdateDashboardConsistent | src/app_new.py:196-325 | In one call: the card counts the filtered rows, the scatter shows them, the pie counts those with a gender, the violin has one point per set flag, and the bar chart has at most ten present companies with their means, and the map has an entry for exactly the coordinate pairs among them |
| Dashboard.KnownGenderChartsConsistent | src/Yubo-update.py:174-257 | The same facts for the aggregates of any filtered frame, with only present genders mapped |
| Dashboard.UpdatedAppConsistent | src/updated_app.py:473-681 | In src/updated_app.py the pie's counts add up to the card's row count, and the violin has one point per set flag |
| Dashboard.VariantsAgreeExceptGender | src/updated_app.py:547-564 | For the same range and selection, both families of files show the same map, bars, scatter, violin and cards. Their pies agree on male and female, and 'other' differs by the rows without a gender |
| Dashboard.GenderPiesDiffer | src/app.py:502-506 | The two pies of one filtered frame agree on male and female, and differ on 'other' by the rows without a gender |
| Dashboard.FilesAgree | src/app.py:315-331 | Holds by definition, as exposition: src/app.py's per-chart callbacks and its summary callback, given a range, compute what the single `update_dashboard` of src/Yubo-update.py and src/app_new.py computes |
| Dashboard.ProcessMatchesUpdate | src/updated_app.py:46-216 | The `process_*` functions, given the interval the slider denotes, compute what the `update_*` callbacks show |
| Dashboard.DefaultRangeShowsAll | src/updated_app.py:474-475 | With no company chosen, the default range, which is also what a missing range becomes, keeps every row |
| Dashboard.WindowWithoutOffsetsShowsNothing | src/Yubo-update.py:161-172 | A range containing no day offset of the cleaned frame lets no row through |
| Dashboard.EmptyWindowShowsNothing | src/app.py:329-331 | A range that is inverted (hi < lo), ends before offset 0, or starts after the span of the cleaned frame shows nothing: every chart is empty and the cards read 0 responses and 0 averages |
| Dashboard.EmptyCharts | src/app_new.py:323-325 | The aggregates of an empty frame are all empty |

## Left out

- Reading the CSV, `pd.to_datetime`, `pd.to_numeric(errors='coerce')`, the
  `replace("NA", pd.NA)` call and the column-coercion loop are not
  modelled. The model's input is the already-coerced frame. A numeric,
  text or coordinate cell that fails to parse is a missing `Option`; for
  timestamps see below.
- Timestamps are whole day numbers. `pd.Timedelta` arithmetic and times
  within a day are not modelled.
- Filtering.DashboardFilterByOffset and Dashboard.DefaultRangeShowsAll hold
  only when every timestamp has the same time of day. The program compares
  full datetimes against `min_date + Timedelta(days=hi)`
  (src/updated_app.py:477-479), and the default range ends at
  `(max_date - min_date).days`, which rounds down (src/updated_app.py:260-261,
  src/app.py:176-177). With times of day, a row whose day offset equals `hi`
  but whose time is later than `min_date`'s is dropped. In particular the
  default range, with no company chosen, ends before `max_date` whenever the
  span is not a whole number of days, so the newest responses are not shown.
- Means are exact `real`s. Floating-point rounding and the card formats
  (`:,.2f`, `:.1f`) are not modelled.
- Dash layout, callback registration, `app.run_server`, and the Plotly and
  Altair chart construction are not modelled. The scatter view is the
  filtered rows without the colour and hover columns named below.
- The `multiprocessing.Pool` in `process_charts` of src/app.py is not
  modelled, since it only adds concurrency. `apply_chart_creation` is plain
  function application. The aggregates it prepares are modelled.
- The mark labels, `strftime('%Y')` of the year of each mark, are not
  modelled. Only the mark positions are.
- The row order of `value_counts()` and of the location `groupby` output is
  not modelled: both are maps from key to value.
- Rows without a timestamp are not modelled: every row's timestamp is
  present. `pd.to_datetime` turns an empty timestamp cell into NaT. Such a
  row survives cleaning when its compensation is positive, but every
  interval comparison is false for it, so no view ever shows it. Where
  Filtering.DashboardFilterKeepsAll and Dashboard.DefaultRangeShowsAll say
  the whole frame is kept, they mean a frame in which every row has a
  timestamp.
- A cleaned frame with no rows is not modelled for the slider. The span
  `(max_date - min_date).days` is then NaN, and building the slider's marks
  with `range` fails at start-up (src/app.py:180-184), so no callback ever
  runs. Dashboard.SpanDays and everything built on it require a non-empty
  frame.
- The scatter plot's colour column (`level`) and hover columns (`title`,
  `basesalary`, `stockgrantvalue`, `bonus`) are left out of the row type
  (src/updated_app.py:596-602, src/app.py:79-85), as is `yearsatcompany`,
  which no view reads. The model's scatter view is the filtered rows
  without these columns.
- GenderView.GenderMapping: lower-casing is ASCII-only, whereas Python's
  `str.lower` also lower-cases other alphabets. Only ASCII letters can
  lower-case to "m", "male", "f" or "female", so the classification is the
  same.
- Dashboard.ToggleOffcanvas: the click count is an integer or missing. Other
  truthy or falsy Python values are not modelled.
- The `gender_category` column that src/app.py, src/Yubo-update.py and
  src/app_new.py assign back into `company_df` is not modelled as such. The
  model counts the mapped values, which are the same non-missing values.
