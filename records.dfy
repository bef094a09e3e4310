/** The survey rows the dashboard works on. A timestamp is a day number,
    present on every row: rows whose timestamp cell is empty (NaT) are not
    modelled. Any other value pandas may hold as NaN (an empty or
    unparseable cell) is an `Option`. */
module Records {
  import opened Seqs

  /** The four degree columns, in the order the education chart melts them. */
  datatype EducationLevel = Highschool | Bachelors | Masters | Doctorate

  /** One row of the CSV after numeric coercion, before any row is dropped. */
  datatype RawRecord = RawRecord(
    company: Option<string>,
    location: Option<string>,
    timestamp: int,
    yearsOfExperience: Option<real>,
    totalComp: Option<int>,
    latitude: Option<real>,
    longitude: Option<real>,
    gender: Option<string>,
    highschool: Option<int>,
    bachelors: Option<int>,
    masters: Option<int>,
    doctorate: Option<int>)

  /** One row of the cleaned frame: compensation is present, and
      `dayOffset` is the `timestamp_numeric` column. */
  datatype SalaryRecord = SalaryRecord(
    company: Option<string>,
    location: Option<string>,
    timestamp: int,
    yearsOfExperience: Option<real>,
    totalComp: int,
    latitude: Option<real>,
    longitude: Option<real>,
    gender: Option<string>,
    highschool: Option<int>,
    bachelors: Option<int>,
    masters: Option<int>,
    doctorate: Option<int>,
    dayOffset: int)

  function DegreeFlag(r: SalaryRecord, level: EducationLevel): Option<int>
  {
    match level
    case Highschool => r.highschool
    case Bachelors => r.bachelors
    case Masters => r.masters
    case Doctorate => r.doctorate
  }

  function Timestamps(rows: seq<SalaryRecord>): seq<int>
  {
    Map(rows, (r: SalaryRecord) => r.timestamp)
  }

  lemma TimestampsCover(rows: seq<SalaryRecord>)
    ensures forall r :: r in rows ==> r.timestamp in Timestamps(rows)
  {
    forall r | r in rows ensures r.timestamp in Timestamps(rows) {
      var i :| 0 <= i < |rows| && rows[i] == r;
      assert Timestamps(rows)[i] == r.timestamp;
    }
  }

  /** `df['timestamp'].min()` of a non-empty frame. */
  function Earliest(rows: seq<SalaryRecord>): int
    requires rows != []
  {
    Min(Timestamps(rows))
  }

  /** The earliest timestamp is no later than any row's, and some row has
      it. */
  lemma EarliestIsMinimum(rows: seq<SalaryRecord>)
    requires rows != []
    ensures forall r :: r in rows ==> Earliest(rows) <= r.timestamp
    ensures exists r :: r in rows && r.timestamp == Earliest(rows)
  {
    TimestampsCover(rows);
    var ts := Timestamps(rows);
    var i :| 0 <= i < |rows| && ts[i] == Min(ts);
    assert rows[i] in rows;
  }

  function Compensations(rows: seq<SalaryRecord>): seq<int>
  {
    Map(rows, (r: SalaryRecord) => r.totalComp)
  }

  /** The mask `df["company"] == name`: the filter's single-company
      selection and the bar chart's groups; a missing company equals no
      name. */
  function CompanyIs(name: string): SalaryRecord -> bool
  {
    (r: SalaryRecord) => r.company == Some(name)
  }

  /** Every row of a cleaned frame has a positive compensation. */
  predicate AllPositive(rows: seq<SalaryRecord>)
  {
    forall r :: r in rows ==> r.totalComp > 0
  }

  /** `df["company"].dropna()`: the present company names, row by row. */
  function CompanyColumn(rows: seq<SalaryRecord>): (names: seq<string>)
    ensures forall c :: c in names <==> exists r :: r in rows && r.company == Some(c)
  {
    var col := Map(rows, (r: SalaryRecord) => r.company);
    assert forall r :: r in rows ==> r.company in col by {
      forall r | r in rows ensures r.company in col {
        var i :| 0 <= i < |rows| && rows[i] == r;
        assert col[i] == r.company;
      }
    }
    Present(col)
  }

  /** The mean compensation of some rows lies between their smallest and
      largest compensation, and is positive when every compensation is. */
  lemma CompensationMeanBounds(rows: seq<SalaryRecord>)
    requires rows != []
    ensures Min(Compensations(rows)) as real <= Mean(Compensations(rows)) <= Max(Compensations(rows)) as real
    ensures AllPositive(rows) ==> Mean(Compensations(rows)) > 0.0
  {
    var comps := Compensations(rows);
    MeanBetweenExtrema(comps);
    if AllPositive(rows) {
      forall c | c in comps ensures c > 0 {
        var i :| 0 <= i < |comps| && comps[i] == c;
        assert rows[i] in rows;
      }
      MeanPositive(comps);
    }
  }
}
