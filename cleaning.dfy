/** Load-time cleaning, run once when the dashboard starts
    (`load_and_preprocess_data` in src/updated_app.py, `load_data` plus the
    module-level column assignment in src/app.py, the module-level code of
    src/Yubo-update.py and src/app_new.py). Reading the CSV and coercing its
    cells is outside the model: the input is the coerced frame. */
module Cleaning {
  import opened Seqs
  import opened Records

  /** The mask `df['totalyearlycompensation'] > 0`: a missing (NaN)
      compensation compares false and its row is dropped. */
  predicate PositiveComp(r: RawRecord)
  {
    r.totalComp.Some? && r.totalComp.value > 0
  }

  function RawTimestamps(rows: seq<RawRecord>): seq<int>
  {
    Map(rows, (r: RawRecord) => r.timestamp)
  }

  /** A retained row with its `timestamp_numeric` column added. */
  function WithOffset(r: RawRecord, origin: int): SalaryRecord
    requires PositiveComp(r)
  {
    SalaryRecord(r.company, r.location, r.timestamp, r.yearsOfExperience, r.totalComp.value,
                 r.latitude, r.longitude, r.gender,
                 r.highschool, r.bachelors, r.masters, r.doctorate,
                 r.timestamp - origin)
  }

  /** The cleaned row with `timestamp_numeric` dropped again: the raw row it
      came from. */
  function Strip(r: SalaryRecord): RawRecord
  {
    RawRecord(r.company, r.location, r.timestamp, r.yearsOfExperience, Some(r.totalComp),
              r.latitude, r.longitude, r.gender,
              r.highschool, r.bachelors, r.masters, r.doctorate)
  }

  /** The frame the dashboard serves: rows with a positive compensation, each
      carrying its whole-day offset from the earliest retained timestamp. */
  function Preprocess(raw: seq<RawRecord>): seq<SalaryRecord>
  {
    var kept := Keep(raw, PositiveComp);
    if kept == [] then []
    else
      var origin := Min(RawTimestamps(kept));
      seq(|kept|, i requires 0 <= i < |kept| => WithOffset(kept[i], origin))
  }

  /** The cleaning steps as the source performs them: drop the rows that fail
      the compensation mask, take the minimum timestamp, then add the
      `timestamp_numeric` column. */
  method LoadAndPreprocess(raw: seq<RawRecord>) returns (df: seq<SalaryRecord>)
    ensures df == Preprocess(raw)
  {
    var kept := DropNonPositive(raw);
    if kept == [] {
      return [];
    }
    var origin := MinTimestamp(RawTimestamps(kept));
    df := AddDayOffsets(kept, origin);
  }

  /** `df = df[df['totalyearlycompensation'] > 0]` */
  method DropNonPositive(raw: seq<RawRecord>) returns (kept: seq<RawRecord>)
    ensures kept == Keep(raw, PositiveComp)
  {
    kept := [];
    var i := 0;
    while i < |raw|
      invariant 0 <= i <= |raw|
      invariant kept == Keep(raw[..i], PositiveComp)
    {
      assert raw[..i + 1][..i] == raw[..i];
      if PositiveComp(raw[i]) {
        kept := kept + [raw[i]];
      }
      i := i + 1;
    }
    assert raw[..|raw|] == raw;
  }

  /** `df['timestamp'].min()` of a non-empty frame. */
  method MinTimestamp(ts: seq<int>) returns (origin: int)
    requires ts != []
    ensures origin == Min(ts)
  {
    origin := ts[0];
    var j := 1;
    assert ts[..1] == [ts[0]];
    while j < |ts|
      invariant 1 <= j <= |ts|
      invariant origin == Min(ts[..j])
    {
      assert ts[..j + 1][..j] == ts[..j];
      if ts[j] < origin {
        origin := ts[j];
      }
      j := j + 1;
    }
    assert ts[..|ts|] == ts;
  }

  /** `df['timestamp_numeric'] = (df['timestamp'] - origin).dt.days` */
  method AddDayOffsets(kept: seq<RawRecord>, origin: int) returns (df: seq<SalaryRecord>)
    requires forall r :: r in kept ==> PositiveComp(r)
    ensures |df| == |kept|
    ensures forall m :: 0 <= m < |kept| ==> df[m] == WithOffset(kept[m], origin)
  {
    df := [];
    var k := 0;
    while k < |kept|
      invariant 0 <= k <= |kept|
      invariant |df| == k
      invariant forall m :: 0 <= m < k ==> df[m] == WithOffset(kept[m], origin)
    {
      assert kept[k] in kept;
      df := df + [WithOffset(kept[k], origin)];
      k := k + 1;
    }
  }

  /** After cleaning, the rows are the retained raw rows, unmodified and in
      their original order, and every one has a positive compensation. */
  lemma PreprocessCleans(raw: seq<RawRecord>)
    ensures |Preprocess(raw)| == |Keep(raw, PositiveComp)|
    ensures forall i :: 0 <= i < |Preprocess(raw)| ==> Strip(Preprocess(raw)[i]) == Keep(raw, PositiveComp)[i]
    ensures AllPositive(Preprocess(raw))
  {
    var rows := Preprocess(raw);
    var kept := Keep(raw, PositiveComp);
    forall i | 0 <= i < |rows| ensures Strip(rows[i]) == kept[i] && rows[i].totalComp > 0 {
      assert kept[i] in kept;
    }
  }

  /** `timestamp_numeric` is the whole-day offset from the frame's earliest
      timestamp: never negative, and 0 on the earliest row. */
  lemma DayOffsetsFromEarliest(raw: seq<RawRecord>)
    requires Preprocess(raw) != []
    ensures forall r :: r in Preprocess(raw) ==> r.dayOffset == r.timestamp - Earliest(Preprocess(raw))
    ensures forall r :: r in Preprocess(raw) ==> r.dayOffset >= 0
    ensures exists r :: r in Preprocess(raw) && r.dayOffset == 0
  {
    var rows := Preprocess(raw);
    var kept := Keep(raw, PositiveComp);
    var origin := Min(RawTimestamps(kept));
    assert Timestamps(rows) == RawTimestamps(kept) by {
      forall i | 0 <= i < |rows| ensures Timestamps(rows)[i] == RawTimestamps(kept)[i] {
        assert kept[i] in kept;
      }
    }
    forall r | r in rows ensures r.dayOffset == r.timestamp - origin >= 0 {
      var i :| 0 <= i < |rows| && rows[i] == r;
      assert kept[i] in kept;
      assert RawTimestamps(kept)[i] in RawTimestamps(kept);
    }
    var m :| 0 <= m < |kept| && RawTimestamps(kept)[m] == origin;
    assert kept[m] in kept;
    assert rows[m] in rows;
  }

  /** A raw row survives cleaning exactly when its compensation is present
      and positive. */
  lemma RetainedExactly(raw: seq<RawRecord>, x: RawRecord)
    ensures (exists r :: r in Preprocess(raw) && Strip(r) == x) <==> x in raw && PositiveComp(x)
  {
    var rows := Preprocess(raw);
    var kept := Keep(raw, PositiveComp);
    PreprocessCleans(raw);
    if x in raw && PositiveComp(x) {
      var i :| 0 <= i < |kept| && kept[i] == x;
      assert Strip(rows[i]) == x;
    }
    if r :| r in rows && Strip(r) == x {
      var i :| 0 <= i < |rows| && rows[i] == r;
      assert kept[i] in kept;
    }
  }
}
