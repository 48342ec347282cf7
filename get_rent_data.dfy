/** The `get_rent_data` tool: a city's median rent for a property type, optionally per neighbourhood. */
module GetRentData {
  import opened Wrappers
  import opened PyJson
  import opened HousingData

  /**
   * The request fields; `None` is a missing key.  A `null` city is passed as "" (both become
   * "" through `str(city or "")`), a `null` property type as `None`.
   */
  datatype RentRequest = RentRequest(city: Option<string>, propertyType: Option<string>, includeNeighbourhoods: Option<Json>)

  datatype NeighbourhoodMedian = NeighbourhoodMedian(name: Json, median: real)

  datatype RentReply =
    | RentFound(city: string, propertyType: string, median: real,
                currency: Json, source: Json, snapshotMonth: Json, liveMode: bool,
                neighbourhoods: Option<seq<NeighbourhoodMedian>>)
    | CityNotFound(city: string)
    | UnsupportedPropertyType(propertyType: string, supported: seq<string>)
    | InternalError
  {
    /** The HTTP status code of the reply. */
    function Status(): int {
      match this
      case RentFound(_, _, _, _, _, _, _, _) => 200
      case CityNotFound(_) => 404
      case UnsupportedPropertyType(_, _) => 400
      case InternalError => 500
    }
  }

  /** `meta.get(key, default)` */
  function MetaOr(meta: map<string, Json>, key: string, default: string): Json {
    if key in meta then meta[key] else JStr(default)
  }

  function RequestCity(req: RentRequest): string {
    CityKey(req.city.GetOr("Toronto"))
  }

  /** `bool(body.get("include_neighbourhoods", True))` */
  predicate IncludeNeighbourhoods(req: RentRequest) {
    req.includeNeighbourhoods.None? || Truthy(req.includeNeighbourhoods.value)
  }

  /** The neighbourhoods that have a median for `prop`, in dataset order, with that median. */
  function MedianRows(rows: seq<Row>, prop: string): (out: seq<NeighbourhoodMedian>)
    ensures |out| <= |rows|
  {
    if rows == [] then []
    else
      var front := MedianRows(rows[..|rows| - 1], prop);
      var last := rows[|rows| - 1];
      match GetNeighbourhoodMedian(last, Some(prop))
      case None => front
      case Some(m) => front + [NeighbourhoodMedian(last.name, m)]
  }

  /** Row `i` has a median for `prop`, and `x` is its name with that median. */
  predicate ListedAs(rows: seq<Row>, i: int, prop: string, x: NeighbourhoodMedian)
    requires 0 <= i < |rows|
  {
    GetNeighbourhoodMedian(rows[i], Some(prop)) == Some(x.median) && rows[i].name == x.name
  }

  /** Exactly the rows with a median appear, each with that median. */
  lemma MedianRowsMembers(rows: seq<Row>, prop: string, x: NeighbourhoodMedian)
    ensures x in MedianRows(rows, prop) <==> exists i :: 0 <= i < |rows| && ListedAs(rows, i, prop, x)
  {
    if x in MedianRows(rows, prop) {
      var i := MedianRowsSource(rows, prop, x);
    }
    if exists i :: 0 <= i < |rows| && ListedAs(rows, i, prop, x) {
      var i :| 0 <= i < |rows| && ListedAs(rows, i, prop, x);
      MedianRowsListed(rows, prop, i, x);
    }
  }

  /** Every entry comes from a row with that name and median. */
  lemma {:induction false} MedianRowsSource(rows: seq<Row>, prop: string, x: NeighbourhoodMedian) returns (i: nat)
    requires x in MedianRows(rows, prop)
    ensures i < |rows| && ListedAs(rows, i, prop, x)
    decreases |rows|
  {
    var n := |rows| - 1;
    MedianRowsLast(rows, prop, x);
    if ListedAs(rows, n, prop, x) {
      i := n;
    } else {
      i := MedianRowsSource(rows[..n], prop, x);
      ListedInPrefix(rows, n, i, prop, x);
    }
  }

  /** Every row with a median is listed with it. */
  lemma {:induction false} MedianRowsListed(rows: seq<Row>, prop: string, i: nat, x: NeighbourhoodMedian)
    requires i < |rows| && ListedAs(rows, i, prop, x)
    ensures x in MedianRows(rows, prop)
    decreases |rows|
  {
    var n := |rows| - 1;
    MedianRowsLast(rows, prop, x);
    if i == n {
      assert ListedAs(rows, n, prop, x);
    } else {
      ListedInPrefix(rows, n, i, prop, x);
      MedianRowsListed(rows[..n], prop, i, x);
      assert x in MedianRows(rows[..n], prop);
    }
  }

  /** A row keeps its listing in a prefix that holds it. */
  lemma ListedInPrefix(rows: seq<Row>, k: nat, i: nat, prop: string, x: NeighbourhoodMedian)
    requires i < k <= |rows|
    ensures ListedAs(rows[..k], i, prop, x) <==> ListedAs(rows, i, prop, x)
  {
    assert rows[..k][i] == rows[i];
  }

  /** `x` is listed for the rows exactly when it is listed for all but the last or is the last row's entry. */
  lemma MedianRowsLast(rows: seq<Row>, prop: string, x: NeighbourhoodMedian)
    requires rows != []
    ensures x in MedianRows(rows, prop) <==>
      x in MedianRows(rows[..|rows| - 1], prop) || ListedAs(rows, |rows| - 1, prop, x)
  {
  }

  /** The loop that fills `neighs` (lambdas/get_rent_data.py:50-54). */
  method CollectMedians(rows: seq<Row>, prop: string) returns (acc: seq<NeighbourhoodMedian>)
    ensures acc == MedianRows(rows, prop)
  {
    acc := [];
    var i := 0;
    while i < |rows|
      invariant 0 <= i <= |rows|
      invariant acc == MedianRows(rows[..i], prop)
    {
      assert rows[..i + 1][..i] == rows[..i];
      var m := GetNeighbourhoodMedian(rows[i], Some(prop));
      if m.Some? {
        acc := acc + [NeighbourhoodMedian(rows[i].name, m.value)];
      }
      i := i + 1;
    }
    assert rows[..|rows|] == rows;
  }

  /** `lambda_handler`: 500 when the dataset cannot be loaded, 404 before 400, then the medians. */
  method Handle(ds: Option<Dataset>, liveMode: bool, req: RentRequest) returns (reply: RentReply)
    ensures ds.None? ==> reply == InternalError
    ensures ds.Some? && GetCityObj(ds.value, RequestCity(req)).None? ==> reply == CityNotFound(RequestCity(req))
    ensures ds.Some? && GetCityObj(ds.value, RequestCity(req)).Some? ==>
      var median := GetCityMedian(ds.value, RequestCity(req), req.propertyType);
      (median.None? ==> reply == UnsupportedPropertyType(NormalizeProp(req.propertyType), SupportedPropertyTypes)) &&
      (median.Some? ==> reply.RentFound? && reply.median == median.value)
    ensures reply.RentFound? ==>
      && reply.city == RequestCity(req)
      && reply.propertyType == NormalizeProp(req.propertyType)
      && (reply.neighbourhoods.Some? <==> IncludeNeighbourhoods(req))
      && (reply.neighbourhoods.Some? ==>
            reply.neighbourhoods.value == MedianRows(ListNeighbourhoods(ds.value, reply.city), reply.propertyType))
  {
    if ds.None? {
      return InternalError;
    }
    var data := ds.value;
    var city := RequestCity(req);
    var prop := NormalizeProp(req.propertyType);
    if GetCityObj(data, city).None? {
      return CityNotFound(city);
    }
    var median := GetCityMedian(data, city, req.propertyType);
    if median.None? {
      return UnsupportedPropertyType(prop, SupportedPropertyTypes);
    }
    var neighs: Option<seq<NeighbourhoodMedian>> := None;
    if IncludeNeighbourhoods(req) {
      var acc := CollectMedians(ListNeighbourhoods(data, city), prop);
      neighs := Some(acc);
    }
    reply := RentFound(city, prop, median.value,
                       MetaOr(data.meta, "currency", "CAD/month"),
                       MetaOr(data.meta, "version", "static_json_v1"),
                       MetaOr(data.meta, "snapshot_month", "unknown"),
                       liveMode, neighs);
  }
}
