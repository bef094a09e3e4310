/** The education chart's long form: `company_df.melt(...)` over the four
    degree columns, the rows whose `Degree` equals 1, and the column names
    replaced by level labels (src/updated_app.py:168-180, src/app.py:131-143,
    src/Yubo-update.py:245-257, src/app_new.py:295-307). */
module EducationView {
  import opened Seqs
  import opened Records

  /** The `value_vars` column name of a level. */
  function Column(l: EducationLevel): string
  {
    match l
    case Highschool => "Highschool"
    case Bachelors => "Bachelors_Degree"
    case Masters => "Masters_Degree"
    case Doctorate => "Doctorate_Degree"
  }

  /** The label the chart shows for a level. */
  function Label(l: EducationLevel): string
  {
    match l
    case Highschool => "Highschool"
    case Bachelors => "Bachelors"
    case Masters => "Masters"
    case Doctorate => "Doctorate"
  }

  /** One row of the melted frame. */
  datatype MeltedRow = MeltedRow(educationLevel: string, totalComp: int, degree: Option<int>)

  /** One row of the chart's data: a level label and a compensation. */
  datatype EducationRow = EducationRow(educationLevel: string, totalComp: int)

  function Cell(l: EducationLevel): SalaryRecord -> MeltedRow
  {
    (r: SalaryRecord) => MeltedRow(Column(l), r.totalComp, DegreeFlag(r, l))
  }

  /** The block of the melted frame that comes from one column. */
  function MeltColumn(rows: seq<SalaryRecord>, l: EducationLevel): seq<MeltedRow>
  {
    Map(rows, Cell(l))
  }

  /** `melt` stacks the columns one after another: every row's Highschool
      cell first, then every Bachelors cell, and so on. */
  function Melt(rows: seq<SalaryRecord>): seq<MeltedRow>
  {
    MeltColumn(rows, Highschool) + MeltColumn(rows, Bachelors)
      + MeltColumn(rows, Masters) + MeltColumn(rows, Doctorate)
  }

  /** The mask `education_df['Degree'] == 1`; a missing flag is not 1. */
  const DegreeIsOne: MeltedRow -> bool :=
    (m: MeltedRow) => m.degree == Some(1)

  /** The `replace` dictionary; any other value is left as it is. */
  function Rename(name: string): string
  {
    if name == "Bachelors_Degree" then "Bachelors"
    else if name == "Masters_Degree" then "Masters"
    else if name == "Doctorate_Degree" then "Doctorate"
    else name
  }

  const Relabel: MeltedRow -> EducationRow :=
    (m: MeltedRow) => EducationRow(Rename(m.educationLevel), m.totalComp)

  /** The frame the violin plot draws. */
  function EducationLongForm(rows: seq<SalaryRecord>): seq<EducationRow>
  {
    Map(Keep(Melt(rows), DegreeIsOne), Relabel)
  }

  // ---- A reference definition: level by level ----

  function HasDegree(l: EducationLevel): SalaryRecord -> bool
  {
    (r: SalaryRecord) => DegreeFlag(r, l) == Some(1)
  }

  function AsEducationRow(l: EducationLevel): SalaryRecord -> EducationRow
  {
    (r: SalaryRecord) => EducationRow(Label(l), r.totalComp)
  }

  /** The rows that hold a degree of level `l`, labelled with it. */
  function LevelRows(rows: seq<SalaryRecord>, l: EducationLevel): seq<EducationRow>
  {
    Map(Keep(rows, HasDegree(l)), AsEducationRow(l))
  }

  /** Filtering one column's block and relabelling it gives the rows holding
      that degree, in frame order. */
  lemma MeltColumnLevel(rows: seq<SalaryRecord>, l: EducationLevel)
    ensures Map(Keep(MeltColumn(rows, l), DegreeIsOne), Relabel) == LevelRows(rows, l)
  {
    assert Rename(Column(l)) == Label(l);
    KeepMapFusion(rows, Cell(l), DegreeIsOne, Relabel, HasDegree(l), AsEducationRow(l));
  }

  /** The long form is, level by level in column order, one row for each
      record holding that degree, carrying the record's compensation and the
      level's label. */
  lemma LongFormByLevel(rows: seq<SalaryRecord>)
    ensures EducationLongForm(rows) ==
      LevelRows(rows, Highschool) + LevelRows(rows, Bachelors)
        + LevelRows(rows, Masters) + LevelRows(rows, Doctorate)
  {
    var h, b, m, d := MeltColumn(rows, Highschool), MeltColumn(rows, Bachelors),
                      MeltColumn(rows, Masters), MeltColumn(rows, Doctorate);
    var p := DegreeIsOne;
    KeepAppend(h + b + m, d, p);
    KeepAppend(h + b, m, p);
    KeepAppend(h, b, p);
    var kh, kb, km, kd := Keep(h, p), Keep(b, p), Keep(m, p), Keep(d, p);
    assert Keep(Melt(rows), p) == kh + kb + km + kd;
    MapAppend(kh + kb + km, kd, Relabel);
    MapAppend(kh + kb, km, Relabel);
    MapAppend(kh, kb, Relabel);
    MeltColumnLevel(rows, Highschool);
    MeltColumnLevel(rows, Bachelors);
    MeltColumnLevel(rows, Masters);
    MeltColumnLevel(rows, Doctorate);
  }

  /** `e` stands for some record of `rows` holding a degree of level `l`. */
  predicate FromDegree(rows: seq<SalaryRecord>, l: EducationLevel, e: EducationRow)
  {
    exists r :: r in rows && DegreeFlag(r, l) == Some(1) && e == EducationRow(Label(l), r.totalComp)
  }

  lemma LevelRowsMembers(rows: seq<SalaryRecord>, l: EducationLevel, e: EducationRow)
    ensures e in LevelRows(rows, l) <==> FromDegree(rows, l, e)
  {
    var kept := Keep(rows, HasDegree(l));
    if e in LevelRows(rows, l) {
      var i :| 0 <= i < |kept| && LevelRows(rows, l)[i] == e;
      assert kept[i] in kept;
    }
    if FromDegree(rows, l, e) {
      var r :| r in rows && DegreeFlag(r, l) == Some(1) && e == EducationRow(Label(l), r.totalComp);
      assert r in kept;
      var i :| 0 <= i < |kept| && kept[i] == r;
      assert LevelRows(rows, l)[i] == e;
    }
  }

  /** A long-form row is exactly a (record, level) pair whose flag equals 1,
      carrying the level's label and the record's compensation. */
  lemma LongFormMembers(rows: seq<SalaryRecord>, e: EducationRow)
    ensures e in EducationLongForm(rows) <==>
      FromDegree(rows, Highschool, e) || FromDegree(rows, Bachelors, e)
        || FromDegree(rows, Masters, e) || FromDegree(rows, Doctorate, e)
  {
    LongFormByLevel(rows);
    LevelRowsMembers(rows, Highschool, e);
    LevelRowsMembers(rows, Bachelors, e);
    LevelRowsMembers(rows, Masters, e);
    LevelRowsMembers(rows, Doctorate, e);
  }

  /** The chart shows only the four level labels. */
  lemma LongFormLabels(rows: seq<SalaryRecord>)
    ensures forall e :: e in EducationLongForm(rows) ==>
      e.educationLevel in ["Highschool", "Bachelors", "Masters", "Doctorate"]
  {
    forall e | e in EducationLongForm(rows)
      ensures e.educationLevel in ["Highschool", "Bachelors", "Masters", "Doctorate"]
    {
      LongFormMembers(rows, e);
    }
  }

  /** How many of a record's four degree flags equal 1. */
  function SetFlags(r: SalaryRecord): nat
  {
    (if DegreeFlag(r, Highschool) == Some(1) then 1 else 0)
      + (if DegreeFlag(r, Bachelors) == Some(1) then 1 else 0)
      + (if DegreeFlag(r, Masters) == Some(1) then 1 else 0)
      + (if DegreeFlag(r, Doctorate) == Some(1) then 1 else 0)
  }

  /** The set flags of all records, counted record by record. */
  function TotalSetFlags(rows: seq<SalaryRecord>): nat
  {
    if rows == [] then 0 else TotalSetFlags(rows[..|rows| - 1]) + SetFlags(rows[|rows| - 1])
  }

  /** A record with several degrees appears once per degree: the long form
      has as many rows as there are set flags. */
  lemma {:induction false} LongFormLength(rows: seq<SalaryRecord>)
    ensures |EducationLongForm(rows)| == TotalSetFlags(rows)
  {
    LongFormByLevel(rows);
    LevelCountsAddUp(rows);
  }

  lemma {:induction false} LevelCountsAddUp(rows: seq<SalaryRecord>)
    ensures |Keep(rows, HasDegree(Highschool))| + |Keep(rows, HasDegree(Bachelors))|
            + |Keep(rows, HasDegree(Masters))| + |Keep(rows, HasDegree(Doctorate))| == TotalSetFlags(rows)
  {
    if rows != [] {
      var n := |rows| - 1;
      var init := rows[..n];
      assert rows == init + [rows[n]];
      LevelCountsAddUp(init);
      KeepAppend(init, [rows[n]], HasDegree(Highschool));
      KeepAppend(init, [rows[n]], HasDegree(Bachelors));
      KeepAppend(init, [rows[n]], HasDegree(Masters));
      KeepAppend(init, [rows[n]], HasDegree(Doctorate));
    }
  }
}
