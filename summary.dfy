/** The three summary cards: the number of filtered rows, their mean total
    compensation and their mean years of experience, both means 0 when no
    row passes (src/updated_app.py:212-214 and 679-681, src/app.py:329-331,
    src/Yubo-update.py:271-273, src/app_new.py:323-325). */
module SummaryCards {
  import opened Seqs
  import opened Records

  /** `avgExperience` is `None` where pandas yields NaN: rows passed the
      filter but none of them has a years-of-experience value. */
  datatype Summary = Summary(totalResponses: nat, avgComp: real, avgExperience: Option<real>)

  function YearsColumn(rows: seq<SalaryRecord>): seq<Option<real>>
  {
    Map(rows, (r: SalaryRecord) => r.yearsOfExperience)
  }

  function Summarize(rows: seq<SalaryRecord>): (s: Summary)
    ensures s.totalResponses == |rows|
    ensures rows == [] ==> s.avgComp == 0.0 && s.avgExperience == Some(0.0)
    ensures rows != [] ==> Min(Compensations(rows)) as real <= s.avgComp <= Max(Compensations(rows)) as real
    ensures rows != [] && AllPositive(rows) ==> s.avgComp > 0.0
    ensures s.avgExperience.None? <==> rows != [] && forall r :: r in rows ==> r.yearsOfExperience.None?
  {
    if rows == [] then Summary(0, 0.0, Some(0.0))
    else
      var comps := Compensations(rows);
      CompensationMeanBounds(rows);
      var years := YearsColumn(rows);
      assert forall r :: r in rows ==> r.yearsOfExperience in years by {
        forall r | r in rows ensures r.yearsOfExperience in years {
          var i :| 0 <= i < |rows| && rows[i] == r;
          assert years[i] == r.yearsOfExperience;
        }
      }
      Summary(|rows|, Mean(comps), MeanSkipNa(years))
  }

  /** The experience card lies within any bounds of the years of experience
      present in the filtered rows (and the 0 of an empty frame within them). */
  lemma ExperienceMeanBounds(rows: seq<SalaryRecord>, lo: real, hi: real)
    requires lo <= 0.0 <= hi || rows != []
    requires forall r :: r in rows && r.yearsOfExperience.Some? ==> lo <= r.yearsOfExperience.value <= hi
    ensures Summarize(rows).avgExperience.Some? ==> lo <= Summarize(rows).avgExperience.value <= hi
  {
    if rows != [] {
      var years := YearsColumn(rows);
      forall v | Some(v) in years ensures lo <= v <= hi {
        var i :| 0 <= i < |years| && years[i] == Some(v);
        assert rows[i] in rows;
      }
      MeanSkipNaBounds(years, lo, hi);
    }
  }
}
