/** The bar chart of the best-paying companies:
    `company_df.groupby('company')['totalyearlycompensation'].mean().reset_index()`
    followed by `.nlargest(10, 'totalyearlycompensation')`
    (src/updated_app.py:95-96, src/app.py:121-122, src/Yubo-update.py:199-200,
    src/app_new.py:237-238). */
module CompanyRanking {
  import opened Seqs
  import opened Records
  import opened Strings

  /** How many companies the bar chart shows. */
  const TopN: nat := 10

  /** One row of the grouped frame: a company and its mean compensation. */
  datatype CompanyMean = CompanyMean(company: string, mean: real)

  /** The rows of one company's group, in frame order. */
  function CompanyRows(rows: seq<SalaryRecord>, c: string): (g: seq<SalaryRecord>)
    ensures c in CompanyColumn(rows) ==> g != []
  {
    var g := Keep(rows, CompanyIs(c));
    if c in CompanyColumn(rows) then
      var r :| r in rows && r.company == Some(c);
      assert CompanyIs(c)(r);
      g
    else g
  }

  function MeanOf(rows: seq<SalaryRecord>, c: string): real
    requires c in CompanyColumn(rows)
  {
    Mean(Compensations(CompanyRows(rows, c)))
  }

  /** The grouped frame: groupby drops rows without a company and lists the
      groups in ascending name order. */
  function CompanyMeans(rows: seq<SalaryRecord>): (means: seq<CompanyMean>)
    ensures |means| == |SortedUnique(CompanyColumn(rows))|
    ensures forall i :: 0 <= i < |means| ==>
      && means[i].company == SortedUnique(CompanyColumn(rows))[i]
      && means[i].company in CompanyColumn(rows)
      && means[i].mean == MeanOf(rows, means[i].company)
  {
    var names := SortedUnique(CompanyColumn(rows));
    seq(|names|, i requires 0 <= i < |names| =>
      assert names[i] in names;
      CompanyMean(names[i], MeanOf(rows, names[i])))
  }

  /** The ranking order of `nlargest`: a higher mean first; among equal means
      the earlier row of the grouped frame, which is the smaller name. */
  predicate Before(a: CompanyMean, b: CompanyMean)
  {
    a.mean > b.mean || (a.mean == b.mean && Less(a.company, b.company))
  }

  predicate Ranked(s: seq<CompanyMean>)
  {
    forall i, j :: 0 <= i < j < |s| ==> Before(s[i], s[j])
  }

  predicate DistinctCompanies(s: seq<CompanyMean>)
  {
    forall i, j :: 0 <= i < j < |s| ==> s[i].company != s[j].company
  }

  lemma BeforeTransitive(a: CompanyMean, b: CompanyMean, c: CompanyMean)
    requires Before(a, b) && Before(b, c)
    ensures Before(a, c)
  {
    if a.mean == b.mean == c.mean {
      LessTransitive(a.company, b.company, c.company);
    }
  }

  /** Places `x` in a ranked list of other companies. */
  function InsertRanked(x: CompanyMean, s: seq<CompanyMean>): (r: seq<CompanyMean>)
    requires Ranked(s)
    requires forall y :: y in s ==> y.company != x.company
    ensures Ranked(r)
    ensures multiset(r) == multiset(s) + multiset{x}
  {
    if s == [] then [x]
    else if Before(x, s[0]) then
      assert Ranked([x] + s) by {
        forall i, j | 0 <= i < j < |s| + 1 ensures Before(([x] + s)[i], ([x] + s)[j]) {
          if i == 0 && j > 1 {
            BeforeTransitive(x, s[0], s[j - 1]);
          }
        }
      }
      assert [x] + s == [x] + s[..];
      [x] + s
    else
      LessTotal(x.company, s[0].company);
      var rest := InsertRanked(x, s[1..]);
      HeadBeforeRest(x, s, rest);
      assert s == [s[0]] + s[1..];
      [s[0]] + rest
  }

  /** The head of a ranked list still comes before everything once `x`,
      which it precedes, is inserted into its tail. */
  lemma HeadBeforeRest(x: CompanyMean, s: seq<CompanyMean>, rest: seq<CompanyMean>)
    requires s != [] && Ranked(s)
    requires Before(s[0], x)
    requires multiset(rest) == multiset(s[1..]) + multiset{x}
    ensures forall y :: y in rest ==> Before(s[0], y)
  {
    forall y | y in rest ensures Before(s[0], y) {
      assert y in multiset(rest);
      if y != x {
        assert y in multiset(s[1..]);
        var k :| 0 <= k < |s[1..]| && s[1..][k] == y;
        assert s[k + 1] == y;
      }
    }
  }

  /** Sorts distinct companies into ranking order. */
  function RankDescending(s: seq<CompanyMean>): (r: seq<CompanyMean>)
    requires DistinctCompanies(s)
    ensures Ranked(r)
    ensures multiset(r) == multiset(s)
  {
    if s == [] then []
    else
      var n := |s| - 1;
      assert s == s[..n] + [s[n]];
      var init := RankDescending(s[..n]);
      assert forall y :: y in init ==> y.company != s[n].company by {
        forall y | y in init ensures y.company != s[n].company {
          assert y in multiset(s[..n]);
          var k :| 0 <= k < n && s[k] == y;
        }
      }
      InsertRanked(s[n], init)
  }

  /** The grouped frame sorted into ranking order. */
  function Ranking(rows: seq<SalaryRecord>): (ranked: seq<CompanyMean>)
    ensures Ranked(ranked)
    ensures multiset(ranked) == multiset(CompanyMeans(rows))
  {
    var means := CompanyMeans(rows);
    assert DistinctCompanies(means) by {
      forall i, j | 0 <= i < j < |means| ensures means[i].company != means[j].company {
        SortedDistinct(SortedUnique(CompanyColumn(rows)), i, j);
      }
    }
    RankDescending(means)
  }

  /** `nlargest(n)` of the grouped frame. */
  function TopCompanies(rows: seq<SalaryRecord>, n: nat): seq<CompanyMean>
  {
    var ranked := Ranking(rows);
    ranked[..if n < |ranked| then n else |ranked|]
  }

  /** The bar chart's companies: the source asks for the 10 largest. */
  function TopTen(rows: seq<SalaryRecord>): seq<CompanyMean>
  {
    TopCompanies(rows, TopN)
  }

  /** Every entry of the ranking is a company present in the rows, carrying
      that company's mean compensation. */
  lemma RankingEntries(rows: seq<SalaryRecord>)
    ensures |Ranking(rows)| == |SortedUnique(CompanyColumn(rows))|
    ensures forall e :: e in Ranking(rows) ==> e.company in CompanyColumn(rows) && e.mean == MeanOf(rows, e.company)
  {
    var means := CompanyMeans(rows);
    var ranked := Ranking(rows);
    assert |multiset(ranked)| == |multiset(means)|;
    forall e | e in ranked
      ensures e.company in CompanyColumn(rows) && e.mean == MeanOf(rows, e.company)
    {
      assert e in multiset(means);
      var i :| 0 <= i < |means| && means[i] == e;
    }
  }

  /** `nlargest(n)` returns min(n, number of companies) entries, each a
      company present in the rows with its mean compensation, distinct, in
      non-increasing order of mean with ties broken by name. */
  lemma TopCompaniesRanked(rows: seq<SalaryRecord>, n: nat)
    ensures var top := TopCompanies(rows, n);
      var total := |SortedUnique(CompanyColumn(rows))|;
      && |top| == (if n < total then n else total)
      && (forall e :: e in top ==> e.company in CompanyColumn(rows) && e.mean == MeanOf(rows, e.company))
      && Ranked(top)
      && DistinctCompanies(top)
  {
    var top := TopCompanies(rows, n);
    RankingEntries(rows);
    forall i, j | 0 <= i < j < |top| ensures top[i].company != top[j].company {
      if top[i].company == top[j].company {
        assert top[i] in Ranking(rows) && top[j] in Ranking(rows);
        LessIrreflexive(top[i].company);
      }
    }
  }

  /** No company left out of `nlargest(n)` has a larger mean than the last
      one shown, and on a tie at the cut the name shown comes first. */
  lemma TopCompaniesAreLargest(rows: seq<SalaryRecord>, n: nat, c: string)
    requires n > 0
    requires c in CompanyColumn(rows)
    requires forall e :: e in TopCompanies(rows, n) ==> e.company != c
    ensures TopCompanies(rows, n) != []
    ensures MeanOf(rows, c) <= TopCompanies(rows, n)[|TopCompanies(rows, n)| - 1].mean
    ensures Before(TopCompanies(rows, n)[|TopCompanies(rows, n)| - 1], CompanyMean(c, MeanOf(rows, c)))
  {
    var top := TopCompanies(rows, n);
    var ranked := Ranking(rows);
    var q := RankOf(rows, c);
    assert top == ranked[..|top|];
    assert forall i :: 0 <= i < |top| ==> top[i] in top;
    assert Before(ranked[|top| - 1], ranked[q]);
  }

  /** Every present company has a place in the ranking, with its mean. */
  lemma RankOf(rows: seq<SalaryRecord>, c: string) returns (q: int)
    requires c in CompanyColumn(rows)
    ensures 0 <= q < |Ranking(rows)|
    ensures Ranking(rows)[q] == CompanyMean(c, MeanOf(rows, c))
  {
    var means := CompanyMeans(rows);
    var names := SortedUnique(CompanyColumn(rows));
    var p :| 0 <= p < |names| && names[p] == c;
    assert means[p] == CompanyMean(c, MeanOf(rows, c));
    assert means[p] in multiset(Ranking(rows));
    q :| 0 <= q < |Ranking(rows)| && Ranking(rows)[q] == means[p];
  }
}
