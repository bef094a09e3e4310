/** The map view: `company_df.groupby(['latitude', 'longitude'],
    as_index=False).agg(avg_salary=('totalyearlycompensation', 'mean'),
    location=('location', 'first'))` (src/updated_app.py:59-62,
    src/app.py:115-118, src/Yubo-update.py:174-177, src/app_new.py:210-213). */
module LocationView {
  import opened Seqs
  import opened Records

  /** A group key: one (latitude, longitude) pair. */
  datatype Coordinates = Coordinates(latitude: real, longitude: real)

  /** One row of the grouped frame. */
  datatype LocationGroup = LocationGroup(avgSalary: real, location: Option<string>)

  /** groupby drops every row whose key has a missing part. */
  const HasCoordinates: SalaryRecord -> bool :=
    (r: SalaryRecord) => r.latitude.Some? && r.longitude.Some?

  function AtKey(k: Coordinates): SalaryRecord -> bool
  {
    (r: SalaryRecord) => r.latitude == Some(k.latitude) && r.longitude == Some(k.longitude)
  }

  function KeyOf(r: SalaryRecord): Coordinates
    requires HasCoordinates(r)
  {
    Coordinates(r.latitude.value, r.longitude.value)
  }

  /** The distinct coordinate pairs of the rows that have both coordinates. */
  function Keys(rows: seq<SalaryRecord>): set<Coordinates>
  {
    set r | r in rows && HasCoordinates(r) :: KeyOf(r)
  }

  /** The rows of one group, in frame order. */
  function GroupRows(rows: seq<SalaryRecord>, k: Coordinates): (g: seq<SalaryRecord>)
    ensures k in Keys(rows) ==> g != []
  {
    var g := Keep(rows, AtKey(k));
    if k in Keys(rows) then
      var r :| r in rows && HasCoordinates(r) && KeyOf(r) == k;
      assert AtKey(k)(r);
      g
    else g
  }

  /** `GroupBy.first`: the first value of the group that is not missing. */
  function FirstPresent<T>(xs: seq<Option<T>>): (r: Option<T>)
    ensures r.None? <==> forall i :: 0 <= i < |xs| ==> xs[i].None?
    ensures r.Some? ==> exists i :: 0 <= i < |xs| && xs[i] == r && forall j :: 0 <= j < i ==> xs[j].None?
  {
    if xs == [] then None
    else if xs[0].Some? then xs[0]
    else
      var rest := FirstPresent(xs[1..]);
      assert forall i :: 1 <= i < |xs| ==> xs[i] == xs[1..][i - 1];
      rest
  }

  function Locations(g: seq<SalaryRecord>): seq<Option<string>>
  {
    Map(g, (r: SalaryRecord) => r.location)
  }

  /** One entry per distinct coordinate pair: the mean compensation of its
      rows and their first known location label. */
  function ByLocation(rows: seq<SalaryRecord>): map<Coordinates, LocationGroup>
  {
    map k | k in Keys(rows) ::
      LocationGroup(Mean(Compensations(GroupRows(rows, k))), FirstPresent(Locations(GroupRows(rows, k))))
  }

  /** The map view has exactly one entry per distinct coordinate pair among
      the rows that have both coordinates. */
  lemma ByLocationKeys(rows: seq<SalaryRecord>, k: Coordinates)
    ensures k in ByLocation(rows) <==> exists r :: r in rows && HasCoordinates(r) && KeyOf(r) == k
  {
  }

  /** Each entry aggregates exactly the rows at its coordinates: its
      `avg_salary` is their mean compensation, it lies between the group's smallest and largest compensation and is
      positive on a cleaned frame, and its label is the group's first present
      location. */
  lemma ByLocationEntry(rows: seq<SalaryRecord>, k: Coordinates)
    requires k in ByLocation(rows)
    ensures GroupRows(rows, k) != []
    ensures forall r :: r in GroupRows(rows, k) <==> r in rows && HasCoordinates(r) && KeyOf(r) == k
    ensures ByLocation(rows)[k].avgSalary == Mean(Compensations(GroupRows(rows, k)))
    ensures Min(Compensations(GroupRows(rows, k))) as real <= ByLocation(rows)[k].avgSalary
    ensures ByLocation(rows)[k].avgSalary <= Max(Compensations(GroupRows(rows, k))) as real
    ensures AllPositive(rows) ==> ByLocation(rows)[k].avgSalary > 0.0
    ensures ByLocation(rows)[k].location == FirstPresent(Locations(GroupRows(rows, k)))
  {
    var g := GroupRows(rows, k);
    assert ByLocation(rows)[k] == LocationGroup(Mean(Compensations(g)), FirstPresent(Locations(g)));
    GroupMembers(rows, k);
    assert AllPositive(rows) ==> AllPositive(g);
    CompensationMeanBounds(g);
  }

  lemma GroupMembers(rows: seq<SalaryRecord>, k: Coordinates)
    ensures forall r :: r in GroupRows(rows, k) <==> r in rows && HasCoordinates(r) && KeyOf(r) == k
  {
  }

  /** Rows with a missing coordinate contribute to no group: dropping them
      first leaves the map view unchanged. */
  lemma MissingCoordinatesIgnored(rows: seq<SalaryRecord>)
    ensures ByLocation(Keep(rows, HasCoordinates)) == ByLocation(rows)
  {
    var located := Keep(rows, HasCoordinates);
    assert Keys(located) == Keys(rows) by {
      forall k | k in Keys(rows) ensures k in Keys(located) {
        var r :| r in rows && HasCoordinates(r) && KeyOf(r) == k;
        assert r in located;
      }
    }
    forall k | k in Keys(rows) ensures GroupRows(located, k) == GroupRows(rows, k) {
      KeepKeep(rows, HasCoordinates, AtKey(k), AtKey(k));
    }
  }
}
