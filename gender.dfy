/** The pie chart: each row's free-text gender normalised into three
    categories, then `value_counts()`. src/updated_app.py maps every row
    (src/updated_app.py:37-44, 119-121); src/app.py, src/Yubo-update.py and
    src/app_new.py call `.dropna()` first, so rows without a gender are not
    counted (src/app.py:124-129, src/Yubo-update.py:217-222,
    src/app_new.py:260-265). */
module GenderView {
  import opened Seqs
  import opened Records
  import opened Strings

  datatype GenderCategory = Male | Female | Other

  /** Python's `str(x)` of a gender cell; a missing value prints as "nan". */
  function PyStr(x: Option<string>): string
  {
    match x
    case Some(s) => s
    case None => "nan"
  }

  /** `gender_mapping`: lower-case the value and match it against the
      spellings of each category; anything else is 'other'. */
  function GenderMapping(x: Option<string>): (c: GenderCategory)
    ensures c == Male <==> x.Some? && (SameIgnoringCase(x.value, "m") || SameIgnoringCase(x.value, "male"))
    ensures c == Female <==> x.Some? && (SameIgnoringCase(x.value, "f") || SameIgnoringCase(x.value, "female"))
    ensures x.None? ==> c == Other
  {
    var s := Lower(PyStr(x));
    LowerMatches(PyStr(x), "m");
    LowerMatches(PyStr(x), "male");
    LowerMatches(PyStr(x), "f");
    LowerMatches(PyStr(x), "female");
    if x.None? then
      assert s == "nan";
      Other
    else if s == "m" || s == "male" then Male
    else if s == "f" || s == "female" then Female
    else Other
  }

  const CategoryOf: SalaryRecord -> GenderCategory :=
    (r: SalaryRecord) => GenderMapping(r.gender)

  const HasGender: SalaryRecord -> bool :=
    (r: SalaryRecord) => r.gender.Some?

  const LacksGender: SalaryRecord -> bool :=
    (r: SalaryRecord) => r.gender.None?

  /** `company_df['gender'].map(gender_mapping)` (src/updated_app.py). */
  function CategoriesAllRows(rows: seq<SalaryRecord>): seq<GenderCategory>
  {
    Map(rows, CategoryOf)
  }

  /** `company_df['gender'].dropna().map(...)`; the column assignment leaves
      the dropped rows NaN, which `value_counts` ignores. */
  function CategoriesPresentOnly(rows: seq<SalaryRecord>): seq<GenderCategory>
  {
    Map(Keep(rows, HasGender), CategoryOf)
  }

  /** `value_counts()`: each category that occurs, with its number of rows. */
  function ValueCounts(cats: seq<GenderCategory>): map<GenderCategory, nat>
  {
    map c | c in multiset(cats) :: multiset(cats)[c]
  }

  /** A category's count, 0 when `value_counts` does not list it. */
  function CountOf(counts: map<GenderCategory, nat>, c: GenderCategory): nat
  {
    if c in counts then counts[c] else 0
  }

  function Total(counts: map<GenderCategory, nat>): nat
  {
    CountOf(counts, Male) + CountOf(counts, Female) + CountOf(counts, Other)
  }

  /** Every category `value_counts` lists has a positive count, and the
      counts add up to the number of values counted. */
  lemma ValueCountsTotal(cats: seq<GenderCategory>)
    ensures forall c :: c in ValueCounts(cats) ==> ValueCounts(cats)[c] > 0
    ensures forall c :: CountOf(ValueCounts(cats), c) == multiset(cats)[c]
    ensures Total(ValueCounts(cats)) == |cats|
  {
    MultiplicitiesAddUp(cats);
  }

  lemma {:induction false} MultiplicitiesAddUp(cats: seq<GenderCategory>)
    ensures multiset(cats)[Male] + multiset(cats)[Female] + multiset(cats)[Other] == |cats|
  {
    if cats != [] {
      var n := |cats| - 1;
      assert cats == cats[..n] + [cats[n]];
      MultiplicitiesAddUp(cats[..n]);
      var m := multiset(cats[..n]);
      assert multiset(cats) == m + multiset{cats[n]};
      match cats[n]
      case Male => assert multiset(cats)[Male] == m[Male] + 1;
      case Female => assert multiset(cats)[Female] == m[Female] + 1;
      case Other => assert multiset(cats)[Other] == m[Other] + 1;
    }
  }

  /** src/updated_app.py counts every filtered row: a missing gender is
      'other'. */
  lemma GenderCountsAllRows(rows: seq<SalaryRecord>)
    ensures Total(ValueCounts(CategoriesAllRows(rows))) == |rows|
  {
    ValueCountsTotal(CategoriesAllRows(rows));
  }

  /** The other variants count only the filtered rows that have a gender. */
  lemma GenderCountsPresentOnly(rows: seq<SalaryRecord>)
    ensures Total(ValueCounts(CategoriesPresentOnly(rows))) == |Keep(rows, HasGender)|
    ensures Total(ValueCounts(CategoriesPresentOnly(rows))) <= |rows|
  {
    ValueCountsTotal(CategoriesPresentOnly(rows));
  }

  /** The two variants agree on 'male' and 'female'; the 'other' slice of
      src/updated_app.py is larger by the number of rows without a gender. */
  lemma {:induction false} VariantsDifferOnlyInMissing(rows: seq<SalaryRecord>)
    ensures multiset(CategoriesAllRows(rows))[Male] == multiset(CategoriesPresentOnly(rows))[Male]
    ensures multiset(CategoriesAllRows(rows))[Female] == multiset(CategoriesPresentOnly(rows))[Female]
    ensures multiset(CategoriesAllRows(rows))[Other] ==
            multiset(CategoriesPresentOnly(rows))[Other] + |Keep(rows, LacksGender)|
  {
    if rows != [] {
      var n := |rows| - 1;
      var init := rows[..n];
      assert rows == init + [rows[n]];
      VariantsDifferOnlyInMissing(init);
      CategoriesSnoc(init, rows[n]);
    }
  }

  /** How each list grows when a row is appended. */
  lemma CategoriesSnoc(init: seq<SalaryRecord>, r: SalaryRecord)
    ensures CategoriesAllRows(init + [r]) == CategoriesAllRows(init) + [GenderMapping(r.gender)]
    ensures CategoriesPresentOnly(init + [r]) ==
            CategoriesPresentOnly(init) + (if r.gender.Some? then [GenderMapping(r.gender)] else [])
    ensures |Keep(init + [r], LacksGender)| == |Keep(init, LacksGender)| + (if r.gender.None? then 1 else 0)
  {
    MapAppend(init, [r], CategoryOf);
    MapKeepSnoc(init, r, HasGender, CategoryOf);
    KeepSnoc(init, r, LacksGender);
  }
}
