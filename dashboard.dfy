/** The callbacks that tie the stages together, file by file, and the
    arithmetic of the controls: the slider's span, default and marks, the
    dropdown's options and the off-canvas toggle. */
module Dashboard {
  import opened Seqs
  import opened Records
  import opened Strings
  import Cleaning
  import opened Filtering
  import opened LocationView
  import opened CompanyRanking
  import opened GenderView
  import opened EducationView
  import opened SummaryCards

  // ---- The range slider ----

  /** `(max_date - min_date).days`: every timestamp lies within this many
      days of the earliest, and the latest lies exactly that far. */
  function SpanDays(rows: seq<SalaryRecord>): (days: int)
    requires rows != []
    ensures days >= 0
    ensures forall r :: r in rows ==> Earliest(rows) <= r.timestamp <= Earliest(rows) + days
    ensures exists r :: r in rows && r.timestamp == Earliest(rows) + days
  {
    TimestampsCover(rows);
    EarliestIsMinimum(rows);
    var ts := Timestamps(rows);
    var i :| 0 <= i < |rows| && ts[i] == Max(ts);
    assert rows[i] in rows;
    Max(ts) - Earliest(rows)
  }

  /** The slider's initial value `[0, days]`. */
  function DefaultRange(rows: seq<SalaryRecord>): SliderRange
    requires rows != []
  {
    SliderRange(0, SpanDays(rows))
  }

  /** `if selected_range is None: selected_range = [0, days]`. */
  function ResolveRange(range: Option<SliderRange>, rows: seq<SalaryRecord>): SliderRange
    requires range.Some? || rows != []
  {
    match range
    case Some(r) => r
    case None => DefaultRange(rows)
  }

  /** On the cleaned frame the slider covers every day offset: all lie in
      [0, span], and both ends are reached. */
  lemma OffsetsWithinSpan(raw: seq<RawRecord>)
    requires Cleaning.Preprocess(raw) != []
    ensures forall r :: r in Cleaning.Preprocess(raw) ==> 0 <= r.dayOffset <= SpanDays(Cleaning.Preprocess(raw))
    ensures exists r :: r in Cleaning.Preprocess(raw) && r.dayOffset == 0
    ensures exists r :: r in Cleaning.Preprocess(raw) && r.dayOffset == SpanDays(Cleaning.Preprocess(raw))
  {
    Cleaning.DayOffsetsFromEarliest(raw);
  }

  /** The mark spacing `max(1, days // 4)`; Python's floor division by 4
      is Dafny's `/` since the divisor is positive. */
  function MarkStep(days: int): (step: int)
    ensures step >= 1
    ensures days >= 8 ==> 4 * step <= days < 4 * step + 4
    ensures days < 8 ==> step == 1
  {
    var q := days / 4;
    if q > 1 then q else 1
  }

  /** Python's `range(start, stop, step)` for a positive step. */
  function PyRange(start: int, stop: int, step: int): seq<int>
    requires step >= 1
    decreases stop - start
  {
    if start >= stop then [] else [start] + PyRange(start + step, stop, step)
  }

  /** `range` yields `start`, then one value `step` after the other, and
      stops at the last value below `stop`; it is empty exactly when
      `start >= stop`. */
  lemma {:induction false} PyRangeShape(start: int, stop: int, step: int)
    requires step >= 1
    ensures PyRange(start, stop, step) == [] <==> start >= stop
    ensures PyRange(start, stop, step) != [] ==>
              && PyRange(start, stop, step)[0] == start
              && PyRange(start, stop, step)[|PyRange(start, stop, step)| - 1] < stop
              && stop <= PyRange(start, stop, step)[|PyRange(start, stop, step)| - 1] + step
    ensures forall i :: 0 <= i < |PyRange(start, stop, step)| - 1 ==>
              PyRange(start, stop, step)[i + 1] == PyRange(start, stop, step)[i] + step
    decreases stop - start
  {
    if start < stop {
      PyRangeShape(start + step, stop, step);
    }
  }

  /** The positions of the slider's marks. */
  function MarkPositions(days: int): seq<int>
  {
    PyRange(0, days + 1, MarkStep(days))
  }

  /** The marks sit at 0, s, 2s, ... in increasing order, and the last one
      is the largest multiple of s not beyond the span. */
  lemma MarkPositionsSpaced(days: int)
    requires days >= 0
    ensures MarkPositions(days) != [] && MarkPositions(days)[0] == 0
    ensures forall i :: 0 <= i < |MarkPositions(days)| - 1 ==>
              MarkPositions(days)[i + 1] == MarkPositions(days)[i] + MarkStep(days)
    ensures forall i, j :: 0 <= i < j < |MarkPositions(days)| ==> MarkPositions(days)[i] < MarkPositions(days)[j]
    ensures MarkPositions(days)[|MarkPositions(days)| - 1] <= days
            < MarkPositions(days)[|MarkPositions(days)| - 1] + MarkStep(days)
  {
    var marks := MarkPositions(days);
    PyRangeShape(0, days + 1, MarkStep(days));
    forall i, j | 0 <= i < j < |marks| ensures marks[i] < marks[j] {
      MarksIncrease(marks, MarkStep(days), i, j);
    }
  }

  lemma {:induction false} MarksIncrease(marks: seq<int>, step: int, i: int, j: int)
    requires step >= 1
    requires forall k :: 0 <= k < |marks| - 1 ==> marks[k + 1] == marks[k] + step
    requires 0 <= i < j < |marks|
    ensures marks[i] < marks[j]
    decreases j - i
  {
    if j > i + 1 {
      MarksIncrease(marks, step, i, j - 1);
    }
  }

  // ---- The company dropdown and the off-canvas panel ----

  /** `sorted(df["company"].dropna().unique())`: the distinct present company
      names, in ascending order. */
  function CompanyOptions(rows: seq<SalaryRecord>): (options: seq<string>)
    ensures StrictlySorted(options)
    ensures forall c :: c in options <==> exists r :: r in rows && r.company == Some(c)
  {
    SortedUnique(CompanyColumn(rows))
  }

  /** `toggle_offcanvas` (src/app_new.py): a truthy click count flips the
      panel, while 0 or `None` leaves it as it is. */
  function ToggleOffcanvas(nClicks: Option<int>, isOpen: bool): (open: bool)
    ensures open != isOpen <==> nClicks.Some? && nClicks.value != 0
  {
    if nClicks.Some? && nClicks.value != 0 then !isOpen else isOpen
  }

  // ---- The views each file computes ----

  /** The data behind the five charts. */
  datatype Charts = Charts(
    byLocation: map<Coordinates, LocationGroup>,
    topCompanies: seq<CompanyMean>,
    genderCounts: map<GenderCategory, nat>,
    scatter: seq<SalaryRecord>,
    education: seq<EducationRow>)

  /** The charts and the summary cards. */
  datatype View = View(charts: Charts, summary: Summary)

  /** The aggregates of src/updated_app.py: every row's gender is mapped. */
  function ChartsAllGenders(companyDf: seq<SalaryRecord>): Charts
  {
    Charts(ByLocation(companyDf), TopTen(companyDf), ValueCounts(CategoriesAllRows(companyDf)),
           companyDf, EducationLongForm(companyDf))
  }

  /** The aggregates `process_charts` prepares in src/app.py, also computed
      by src/app.py's per-chart callbacks, src/Yubo-update.py and
      src/app_new.py: only present genders are mapped. */
  function ChartsKnownGenders(companyDf: seq<SalaryRecord>): Charts
  {
    Charts(ByLocation(companyDf), TopTen(companyDf), ValueCounts(CategoriesPresentOnly(companyDf)),
           companyDf, EducationLongForm(companyDf))
  }

  /** The `process_*` functions of src/updated_app.py, given explicit
      interval bounds. */
  function ProcessUpdatedApp(rows: seq<SalaryRecord>, start: int, end: int, sel: Selection): View
  {
    var companyDf := FilterRows(rows, start, end, sel);
    View(ChartsAllGenders(companyDf), Summarize(companyDf))
  }

  /** The `update_*` callbacks of src/updated_app.py; a missing range is the
      full span. */
  function UpdatedAppView(rows: seq<SalaryRecord>, range: Option<SliderRange>, sel: Selection): View
    requires range.Some? || rows != []
  {
    var companyDf := DashboardFilter(rows, ResolveRange(range, rows), sel);
    View(ChartsAllGenders(companyDf), Summarize(companyDf))
  }

  /** `update_map`, `update_bar`, `update_pie`, `update_scatter` and
      `update_education` of src/app.py; a missing range is the full span. */
  function AppChartsView(rows: seq<SalaryRecord>, range: Option<SliderRange>, sel: Selection): Charts
    requires range.Some? || rows != []
  {
    ChartsKnownGenders(DashboardFilter(rows, ResolveRange(range, rows), sel))
  }

  /** `update_dashboard` of src/app.py: only the summary cards; the range
      must be given. */
  function AppSummaryView(rows: seq<SalaryRecord>, range: SliderRange, sel: Selection): Summary
  {
    Summarize(DashboardFilter(rows, range, sel))
  }

  /** `update_dashboard` of src/Yubo-update.py and src/app_new.py; the range
      must be given. */
  function UpdateDashboard(rows: seq<SalaryRecord>, range: SliderRange, sel: Selection): View
  {
    var companyDf := DashboardFilter(rows, range, sel);
    View(ChartsKnownGenders(companyDf), Summarize(companyDf))
  }

  // ---- Properties of the views ----

  /** Every chart of `update_dashboard` reads the same filtered rows: the
      card counts them, the pie counts those with a gender, the violin plot
      has one point per set degree flag, the bar chart at most ten of their
      companies with their means, and the map one point per coordinate pair
      among them. */
  lemma UpdateDashboardConsistent(rows: seq<SalaryRecord>, range: SliderRange, sel: Selection)
    ensures var f := DashboardFilter(rows, range, sel);
      var v := UpdateDashboard(rows, range, sel);
      && v.summary.totalResponses == |f|
      && v.charts.scatter == f
      && Total(v.charts.genderCounts) == |Keep(f, HasGender)| <= v.summary.totalResponses
      && |v.charts.education| == TotalSetFlags(f)
      && |v.charts.topCompanies| <= TopN
      && (forall e :: e in v.charts.topCompanies ==> e.company in CompanyColumn(f) && e.mean == MeanOf(f, e.company))
      && (forall k :: k in v.charts.byLocation <==> exists r :: r in f && HasCoordinates(r) && KeyOf(r) == k)
  {
    KnownGenderChartsConsistent(DashboardFilter(rows, range, sel));
  }

  lemma KnownGenderChartsConsistent(f: seq<SalaryRecord>)
    ensures Total(ChartsKnownGenders(f).genderCounts) == |Keep(f, HasGender)| <= |f|
    ensures |ChartsKnownGenders(f).education| == TotalSetFlags(f)
    ensures |ChartsKnownGenders(f).topCompanies| <= TopN
    ensures forall e :: e in ChartsKnownGenders(f).topCompanies ==> e.company in CompanyColumn(f) && e.mean == MeanOf(f, e.company)
    ensures forall k :: k in ChartsKnownGenders(f).byLocation <==> exists r :: r in f && HasCoordinates(r) && KeyOf(r) == k
  {
    forall k ensures k in ChartsKnownGenders(f).byLocation <==> exists r :: r in f && HasCoordinates(r) && KeyOf(r) == k {
      ByLocationKeys(f, k);
    }
    GenderCountsPresentOnly(f);
    LongFormLength(f);
    TopCompaniesRanked(f, TopN);
  }

  /** In src/updated_app.py the pie counts every filtered row, a missing
      gender as 'other'. */
  lemma UpdatedAppConsistent(rows: seq<SalaryRecord>, range: Option<SliderRange>, sel: Selection)
    requires range.Some? || rows != []
    ensures var f := DashboardFilter(rows, ResolveRange(range, rows), sel);
      var v := UpdatedAppView(rows, range, sel);
      && v.summary.totalResponses == |f|
      && Total(v.charts.genderCounts) == v.summary.totalResponses
      && |v.charts.education| == TotalSetFlags(f)
  {
    var f := DashboardFilter(rows, ResolveRange(range, rows), sel);
    GenderCountsAllRows(f);
    LongFormLength(f);
  }

  /** For the same range and selection the two families of files show the
      same map, bar chart, scatter plot, violin plot and cards; their pies
      agree on 'male' and 'female', and src/updated_app.py's 'other' slice
      is larger by the number of filtered rows without a gender. */
  lemma VariantsAgreeExceptGender(rows: seq<SalaryRecord>, range: SliderRange, sel: Selection)
    ensures var f := DashboardFilter(rows, range, sel);
      var a := UpdatedAppView(rows, Some(range), sel);
      var b := UpdateDashboard(rows, range, sel);
      && a.summary == b.summary
      && a.charts.byLocation == b.charts.byLocation
      && a.charts.topCompanies == b.charts.topCompanies
      && a.charts.scatter == b.charts.scatter
      && a.charts.education == b.charts.education
      && CountOf(a.charts.genderCounts, Male) == CountOf(b.charts.genderCounts, Male)
      && CountOf(a.charts.genderCounts, Female) == CountOf(b.charts.genderCounts, Female)
      && CountOf(a.charts.genderCounts, Other) == CountOf(b.charts.genderCounts, Other) + |Keep(f, LacksGender)|
  {
    GenderPiesDiffer(DashboardFilter(rows, range, sel));
  }

  lemma GenderPiesDiffer(f: seq<SalaryRecord>)
    ensures var a := ChartsAllGenders(f).genderCounts;
      var b := ChartsKnownGenders(f).genderCounts;
      && CountOf(a, Male) == CountOf(b, Male)
      && CountOf(a, Female) == CountOf(b, Female)
      && CountOf(a, Other) == CountOf(b, Other) + |Keep(f, LacksGender)|
  {
    ValueCountsTotal(CategoriesAllRows(f));
    ValueCountsTotal(CategoriesPresentOnly(f));
    VariantsDifferOnlyInMissing(f);
  }

  /** src/app.py's per-chart callbacks and its summary callback compute,
      for a given range, what src/Yubo-update.py and src/app_new.py compute
      in one callback. */
  lemma FilesAgree(rows: seq<SalaryRecord>, range: SliderRange, sel: Selection)
    ensures AppChartsView(rows, Some(range), sel) == UpdateDashboard(rows, range, sel).charts
    ensures AppSummaryView(rows, range, sel) == UpdateDashboard(rows, range, sel).summary
  {
  }

  /** The `process_*` functions of src/updated_app.py, given the interval
      the slider denotes, compute what its `update_*` callbacks do. */
  lemma ProcessMatchesUpdate(rows: seq<SalaryRecord>, range: SliderRange, sel: Selection)
    requires rows != []
    ensures ProcessUpdatedApp(rows, Earliest(rows) + range.lo, Earliest(rows) + range.hi, sel)
            == UpdatedAppView(rows, Some(range), sel)
  {
    DashboardFilterInterval(rows, range, sel);
    assert ResolveRange(Some(range), rows) == range;
  }

  /** With the slider at its default and no company chosen, every row of
      the frame is shown; this is also what a missing range means. */
  lemma DefaultRangeShowsAll(rows: seq<SalaryRecord>, sel: Selection)
    requires rows != []
    requires !Truthy(sel)
    ensures DashboardFilter(rows, DefaultRange(rows), sel) == rows
    ensures DashboardFilter(rows, ResolveRange(None, rows), sel) == rows
  {
    DashboardFilterKeepsAll(rows, DefaultRange(rows), sel);
  }

  /** A slider interval that contains no day offset of the cleaned frame
      lets no row through. */
  lemma WindowWithoutOffsetsShowsNothing(raw: seq<RawRecord>, range: SliderRange, sel: Selection)
    requires forall r :: r in Cleaning.Preprocess(raw) ==> !(range.lo <= r.dayOffset <= range.hi)
    ensures DashboardFilter(Cleaning.Preprocess(raw), range, sel) == []
  {
    var f := DashboardFilter(Cleaning.Preprocess(raw), range, sel);
    if f != [] {
      DashboardFilterByOffset(raw, range, sel, f[0]);
      assert false;
    }
  }

  /** The usual ways a slider interval misses every day offset — inverted,
      ending before offset 0, or starting after the span — show nothing:
      every chart is empty and the cards show 0 responses and 0 averages. */
  lemma EmptyWindowShowsNothing(raw: seq<RawRecord>, range: SliderRange, sel: Selection)
    requires range.hi < range.lo || range.hi < 0
          || (Cleaning.Preprocess(raw) != [] && range.lo > SpanDays(Cleaning.Preprocess(raw)))
    ensures DashboardFilter(Cleaning.Preprocess(raw), range, sel) == []
    ensures UpdateDashboard(Cleaning.Preprocess(raw), range, sel) ==
            View(Charts(map[], [], map[], [], []), Summary(0, 0.0, Some(0.0)))
  {
    if Cleaning.Preprocess(raw) != [] {
      OffsetsWithinSpan(raw);
    }
    WindowWithoutOffsetsShowsNothing(raw, range, sel);
    EmptyCharts();
  }

  lemma EmptyCharts()
    ensures ChartsKnownGenders([]) == Charts(map[], [], map[], [], [])
  {
    assert CompanyColumn([]) == [];
    assert EducationLongForm([]) == [];
    assert ValueCounts(CategoriesPresentOnly([])) == map[];
  }
}
