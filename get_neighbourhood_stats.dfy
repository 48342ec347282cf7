/** The `get_neighbourhood_stats` tool: per-neighbourhood median, transit score and distance for a city. */
module NeighbourhoodStats {
  import opened Wrappers
  import opened PyJson
  import opened HousingData
  import GetRentData

  /** The request fields; `None` is a missing key, a `null` city is passed as "". */
  datatype StatsRequest = StatsRequest(city: Option<string>, propertyType: Option<string>)

  datatype StatRow = StatRow(name: Json, median: real, transit: int, distanceKm: PyFloat)

  datatype StatsReply =
    | StatsFound(city: string, propertyType: string, currency: Json, snapshotMonth: Json,
                 source: Json, liveMode: bool, neighbourhoods: seq<StatRow>)
    | CityNotFound(city: string)
    | InternalError
  {
    function Status(): int {
      match this
      case StatsFound(_, _, _, _, _, _, _) => 200
      case CityNotFound(_) => 404
      case InternalError => 500
    }
  }

  /** `_safe_float(row.get("distance_km", 0.0))`: a missing or unconvertible distance is 0.0. */
  function Distance(row: Row): PyFloat {
    if row.distanceKm.None? then Finite(0.0)
    else ToFloat(row.distanceKm.value).GetOr(Finite(0.0))
  }

  function ToStatRow(row: Row, median: real): StatRow {
    StatRow(row.name, median, GetNeighbourhoodTransit(row, 0), Distance(row))
  }

  /** The rows built from the neighbourhoods that have a median for `prop`, in dataset order. */
  function StatRows(rows: seq<Row>, prop: string): (out: seq<StatRow>)
    ensures |out| <= |rows|
    ensures forall r :: r in out ==> 0 <= r.transit <= 100
  {
    if rows == [] then []
    else
      var front := StatRows(rows[..|rows| - 1], prop);
      var last := rows[|rows| - 1];
      match GetNeighbourhoodMedian(last, Some(prop))
      case None => front
      case Some(m) => front + [ToStatRow(last, m)]
  }

  /** The stats rows are the rent-data rows with transit and distance added: same names, medians and order. */
  lemma {:induction false} StatRowsMatchMedianRows(rows: seq<Row>, prop: string)
    ensures |StatRows(rows, prop)| == |GetRentData.MedianRows(rows, prop)|
    ensures forall i :: 0 <= i < |StatRows(rows, prop)| ==>
      StatRows(rows, prop)[i].name == GetRentData.MedianRows(rows, prop)[i].name &&
      StatRows(rows, prop)[i].median == GetRentData.MedianRows(rows, prop)[i].median
    decreases |rows|
  {
    if rows != [] {
      StatRowsMatchMedianRows(rows[..|rows| - 1], prop);
    }
  }

  /**
   * Each stats row is built from one neighbourhood `rows[j]` that has a median
   * for `prop`: its name and median, its transit score normalised with a
   * default of 0, and its distance as `float()` reads it.  Filtering only
   * drops rows, so `j` is never before `i`.
   */
  lemma {:induction false} StatRowsSource(rows: seq<Row>, prop: string, i: int) returns (j: nat)
    requires 0 <= i < |StatRows(rows, prop)|
    ensures j < |rows| && GetNeighbourhoodMedian(rows[j], Some(prop)).Some?
    ensures StatRows(rows, prop)[i].name == rows[j].name
    ensures StatRows(rows, prop)[i].median == GetNeighbourhoodMedian(rows[j], Some(prop)).value
    ensures StatRows(rows, prop)[i].transit == GetNeighbourhoodTransit(rows[j], 0)
    ensures StatRows(rows, prop)[i].distanceKm == Distance(rows[j])
    ensures i <= j
    decreases |rows|
  {
    var front := StatRows(rows[..|rows| - 1], prop);
    if i < |front| {
      j := StatRowsSource(rows[..|rows| - 1], prop, i);
      assert rows[..|rows| - 1][j] == rows[j];
    } else {
      j := |rows| - 1;
      assert |StatRows(rows, prop)| <= |front| + 1;
    }
  }

  /** The loop that fills `rows` (lambdas/get_neighbourhood_stats.py:49-60). */
  method CollectRows(rows: seq<Row>, prop: string) returns (acc: seq<StatRow>)
    ensures acc == StatRows(rows, prop)
  {
    acc := [];
    var i := 0;
    while i < |rows|
      invariant 0 <= i <= |rows|
      invariant acc == StatRows(rows[..i], prop)
    {
      assert rows[..i + 1][..i] == rows[..i];
      var m := GetNeighbourhoodMedian(rows[i], Some(prop));
      if m.Some? {
        acc := acc + [ToStatRow(rows[i], m.value)];
      }
      i := i + 1;
    }
    assert rows[..|rows|] == rows;
  }

  function RequestCity(req: StatsRequest): string {
    CityKey(req.city.GetOr("Toronto"))
  }

  /** `lambda_handler`. */
  method Handle(ds: Option<Dataset>, liveMode: bool, req: StatsRequest) returns (reply: StatsReply)
    ensures ds.None? ==> reply == InternalError
    ensures ds.Some? && GetCityObj(ds.value, RequestCity(req)).None? ==> reply == CityNotFound(RequestCity(req))
    ensures ds.Some? && GetCityObj(ds.value, RequestCity(req)).Some? ==>
      && reply.StatsFound?
      && reply.city == RequestCity(req)
      && reply.propertyType == NormalizeProp(req.propertyType)
      && reply.neighbourhoods == StatRows(ListNeighbourhoods(ds.value, reply.city), reply.propertyType)
    ensures reply.StatsFound? ==>
      |reply.neighbourhoods| <= |ListNeighbourhoods(ds.value, reply.city)| &&
      forall r :: r in reply.neighbourhoods ==> 0 <= r.transit <= 100
  {
    if ds.None? {
      return InternalError;
    }
    var data := ds.value;
    var city := RequestCity(req);
    var prop := NormalizeProp(req.propertyType);
    if GetCityObj(data, city).None? {
      return CityNotFound(city);
    }
    var rows := CollectRows(ListNeighbourhoods(data, city), prop);
    reply := StatsFound(city, prop,
                        GetRentData.MetaOr(data.meta, "currency", "CAD/month"),
                        GetRentData.MetaOr(data.meta, "snapshot_month", "unknown"),
                        GetRentData.MetaOr(data.meta, "version", "static_json_v1"),
                        liveMode, rows);
  }
}
