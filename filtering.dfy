/** The filter every callback starts with: a closed date interval, then an
    optional company selection (src/updated_app.py:49-57 and its copies in
    every `process_*` and `update_*` function). */
module Filtering {
  import opened Seqs
  import opened Records
  import Cleaning

  /** The company dropdown's value: `None`, a list (multi-select), or a single
      name. */
  datatype Selection = NoSelection | Companies(names: seq<string>) | Company(name: string)

  /** The range slider's value `[lo, hi]`, in days from the earliest
      timestamp. */
  datatype SliderRange = SliderRange(lo: int, hi: int)

  /** Python truthiness of `selected_company`: `None`, `[]` and `""` are
      false. */
  predicate Truthy(sel: Selection)
  {
    match sel
    case NoSelection => false
    case Companies(names) => names != []
    case Company(name) => name != ""
  }

  /** What the company filter means: no filter at all for a falsy selection;
      otherwise the row's company is present and is one of those selected. */
  predicate Wanted(sel: Selection, company: Option<string>)
  {
    match sel
    case NoSelection => true
    case Companies(names) => names == [] || (company.Some? && company.value in names)
    case Company(name) => name == "" || company == Some(name)
  }

  /** The mask `(df['timestamp'] >= start) & (df['timestamp'] <= end)`. */
  function InWindow(start: int, end: int): SalaryRecord -> bool
  {
    (r: SalaryRecord) => start <= r.timestamp && r.timestamp <= end
  }

  /** The mask `filtered_df["company"].isin(names)`; a missing company is in
      no list. */
  function CompanyIn(names: seq<string>): SalaryRecord -> bool
  {
    (r: SalaryRecord) => r.company.Some? && r.company.value in names
  }

  /** The selection step applied to the date-filtered frame. */
  function ByCompany(filtered: seq<SalaryRecord>, sel: Selection): seq<SalaryRecord>
  {
    if Truthy(sel) then
      match sel
      case Companies(names) => Keep(filtered, CompanyIn(names))
      case Company(name) => Keep(filtered, CompanyIs(name))
      case NoSelection => filtered
    else filtered
  }

  /** Both filter conditions as one row predicate. */
  function Criterion(start: int, end: int, sel: Selection): SalaryRecord -> bool
  {
    (r: SalaryRecord) => start <= r.timestamp <= end && Wanted(sel, r.company)
  }

  /** `company_df` for explicit interval bounds, as the `process_*` functions
      of src/updated_app.py compute it. */
  function FilterRows(rows: seq<SalaryRecord>, start: int, end: int, sel: Selection): seq<SalaryRecord>
  {
    ByCompany(Keep(rows, InWindow(start, end)), sel)
  }

  /** A row passes the filter exactly when its timestamp lies in the closed
      interval and the selection wants its company; a falsy selection
      filters on the interval alone. */
  lemma FilterRowsMembers(rows: seq<SalaryRecord>, start: int, end: int, sel: Selection)
    ensures forall x :: x in FilterRows(rows, start, end, sel) <==>
              x in rows && start <= x.timestamp <= end && Wanted(sel, x.company)
    ensures !Truthy(sel) ==> FilterRows(rows, start, end, sel) == Keep(rows, InWindow(start, end))
  {
  }

  /** The filtered frame is exactly the rows meeting both conditions, taken
      unmodified and in their original order: the k-th filtered row is the
      input row at the k-th position that meets them. */
  lemma {:induction false} FilterKeepsOrder(rows: seq<SalaryRecord>, start: int, end: int, sel: Selection)
    ensures FilterRows(rows, start, end, sel) == Keep(rows, Criterion(start, end, sel))
    ensures |FilterRows(rows, start, end, sel)| == |Positions(rows, Criterion(start, end, sel))|
    ensures forall k :: 0 <= k < |FilterRows(rows, start, end, sel)| ==>
              FilterRows(rows, start, end, sel)[k] == rows[Positions(rows, Criterion(start, end, sel))[k]]
  {
    var w := InWindow(start, end);
    var dated := Keep(rows, w);
    if Truthy(sel) {
      match sel
      case Companies(names) =>
        KeepKeep(rows, w, CompanyIn(names), Criterion(start, end, sel));
      case Company(name) =>
        KeepKeep(rows, w, CompanyIs(name), Criterion(start, end, sel));
    } else {
      KeepCongruent(rows, w, Criterion(start, end, sel));
    }
    KeepAtPositions(rows, Criterion(start, end, sel));
  }

  /** The timestamp the slider's day offsets count from: the earliest one.
      The dashboard never serves an empty frame, since building the slider
      fails at start-up when no row survives cleaning. The value 0 for an
      empty frame only keeps this function total: no row can pass the filter
      then, whatever the origin. */
  function SliderOrigin(rows: seq<SalaryRecord>): int
  {
    if |rows| == 0 then 0 else Earliest(rows)
  }

  /** The filter for slider offsets counted in days from `origin`. */
  function FilterFromOrigin(rows: seq<SalaryRecord>, origin: int, range: SliderRange, sel: Selection): seq<SalaryRecord>
  {
    FilterRows(rows, origin + range.lo, origin + range.hi, sel)
  }

  /** The dashboard's filter: the slider's day offsets added to the earliest
      timestamp of the served frame. */
  function DashboardFilter(rows: seq<SalaryRecord>, range: SliderRange, sel: Selection): seq<SalaryRecord>
  {
    FilterFromOrigin(rows, SliderOrigin(rows), range, sel)
  }

  lemma DashboardFilterInterval(rows: seq<SalaryRecord>, range: SliderRange, sel: Selection)
    requires rows != []
    ensures DashboardFilter(rows, range, sel) == FilterRows(rows, Earliest(rows) + range.lo, Earliest(rows) + range.hi, sel)
  {
  }

  /** On the cleaned frame, the timestamp interval is the closed interval of
      day offsets the slider shows. */
  lemma DashboardFilterByOffset(raw: seq<RawRecord>, range: SliderRange, sel: Selection, x: SalaryRecord)
    ensures x in DashboardFilter(Cleaning.Preprocess(raw), range, sel) <==>
            x in Cleaning.Preprocess(raw) && range.lo <= x.dayOffset <= range.hi && Wanted(sel, x.company)
  {
    var rows := Cleaning.Preprocess(raw);
    if rows != [] {
      Cleaning.DayOffsetsFromEarliest(raw);
    }
  }

  /** With no company chosen, an interval that holds every timestamp keeps
      the whole frame. */
  lemma FilterRowsKeepsAll(rows: seq<SalaryRecord>, start: int, end: int, sel: Selection)
    requires !Truthy(sel)
    requires forall x :: x in rows ==> start <= x.timestamp <= end
    ensures FilterRows(rows, start, end, sel) == rows
  {
    KeepAll(rows, InWindow(start, end));
  }

  /** With no company chosen, a slider interval that reaches from the
      earliest timestamp past the latest keeps the whole frame. */
  lemma DashboardFilterKeepsAll(rows: seq<SalaryRecord>, range: SliderRange, sel: Selection)
    requires !Truthy(sel)
    requires range.lo <= 0
    requires forall x :: x in rows ==> x.timestamp <= SliderOrigin(rows) + range.hi
    ensures DashboardFilter(rows, range, sel) == rows
  {
    if rows != [] {
      EarliestIsMinimum(rows);
    }
    FilterRowsKeepsAll(rows, SliderOrigin(rows) + range.lo, SliderOrigin(rows) + range.hi, sel);
  }
}
