/**
 * The dataset provider: city and neighbourhood medians and transit scores, looked up in a
 * loaded dataset snapshot, and the per-process cache that loads the snapshot once.
 */
module HousingData {
  import opened Wrappers
  import opened Strings
  import opened PyJson

  const SupportedPropertyTypes: seq<string> := ["studio", "1bed", "2bed", "3bed"]
  const DefaultPropertyType: string := "1bed"

  /** One neighbourhood object of a city; a key missing from the object is `None`. */
  datatype Row = Row(
    name: Json,                   // row.get("name"), JNull when absent
    median: map<string, Json>,    // row.get("median", {}) or {}
    transit: Option<Json>,
    distanceKm: Option<Json>)

  /**
   * One city object.  `medians` and `neighbourhoods` are `None` when the key is absent;
   * `otherKeys` are the object's remaining keys, which matter only for its truthiness.
   */
  datatype CityRecord = CityRecord(
    medians: Option<map<string, Json>>,
    neighbourhoods: Option<seq<Row>>,
    otherKeys: set<string>)
  {
    /** Python's truth value of the city object: a non-empty dict. */
    predicate NonEmpty() {
      medians.Some? || neighbourhoods.Some? || otherKeys != {}
    }
  }

  /** The loaded snapshot: `cities` keyed by display name, and `meta`. */
  datatype Dataset = Dataset(cities: map<string, CityRecord>, meta: map<string, Json>)

  /** `city_key`: trimmed and title-cased. */
  function CityKey(city: string): string {
    Title(Strip(city))
  }

  lemma CityKeyIdempotent(city: string)
    ensures CityKey(CityKey(city)) == CityKey(city)
  {
    var s := Strip(city);
    TitleKeepsStripped(s);
    StripNoEdgeSpace(Title(s));
    TitleFromIdempotent(s, false);
  }

  /** `(prop or "1bed").lower()`: a missing or empty property type means a one-bedroom. */
  function NormalizeProp(prop: Option<string>): (p: string)
    ensures p != []
    ensures prop.None? || prop == Some("") ==> p == DefaultPropertyType
  {
    if prop.None? || prop.value == "" then DefaultPropertyType else Lower(prop.value)
  }

  /** `get_city_obj`, returning `None` also for an empty city object (which Python treats as falsy). */
  function GetCityObj(ds: Dataset, city: string): (r: Option<CityRecord>)
    ensures r.Some? ==> CityKey(city) in ds.cities && r.value == ds.cities[CityKey(city)]
    ensures r.Some? ==> r.value.NonEmpty()
    ensures r.None? ==> CityKey(city) !in ds.cities || !ds.cities[CityKey(city)].NonEmpty()
  {
    var key := CityKey(city);
    if key in ds.cities && ds.cities[key].NonEmpty() then Some(ds.cities[key]) else None
  }

  /** A dataset value that converts to a finite float; Python would also carry a NaN through. */
  function FiniteValue(v: Option<Json>): (r: Option<real>)
    ensures r.Some? ==> v.Some? && ToFloat(v.value) == Some(Finite(r.value))
    ensures v.Some? && ToFloat(v.value).Some? && ToFloat(v.value).value.Finite? ==> r.Some?
  {
    if v.None? then None
    else match ToFloat(v.value)
      case Some(Finite(x)) => Some(x)
      case _ => None
  }

  function Lookup(m: map<string, Json>, key: string): Option<Json> {
    if key in m then Some(m[key]) else None
  }

  /** `get_city_median`. */
  function GetCityMedian(ds: Dataset, city: string, prop: Option<string>): (r: Option<real>)
    ensures r.Some? <==>
      GetCityObj(ds, city).Some? && FiniteValue(Lookup(GetCityObj(ds, city).value.medians.GetOr(map[]), NormalizeProp(prop))).Some?
    ensures r.Some? ==> ToFloat(GetCityObj(ds, city).value.medians.value[NormalizeProp(prop)]) == Some(Finite(r.value))
  {
    match GetCityObj(ds, city)
    case None => None
    case Some(c) => FiniteValue(Lookup(c.medians.GetOr(map[]), NormalizeProp(prop)))
  }

  /** `list_neighbourhoods`. */
  function ListNeighbourhoods(ds: Dataset, city: string): (rows: seq<Row>)
    ensures GetCityObj(ds, city).None? ==> rows == []
    ensures GetCityObj(ds, city).Some? ==> rows == GetCityObj(ds, city).value.neighbourhoods.GetOr([])
  {
    match GetCityObj(ds, city)
    case None => []
    case Some(c) => c.neighbourhoods.GetOr([])
  }

  /** `get_neighbourhood_median`, for a cell that converts to a finite float. */
  function GetNeighbourhoodMedian(row: Row, prop: Option<string>): (r: Option<real>)
    ensures r.Some? ==> NormalizeProp(prop) in row.median && ToFloat(row.median[NormalizeProp(prop)]) == Some(Finite(r.value))
    ensures (NormalizeProp(prop) in row.median && ToFloat(row.median[NormalizeProp(prop)]).Some?
             && ToFloat(row.median[NormalizeProp(prop)]).value.Finite?) ==> r.Some?
  {
    FiniteValue(Lookup(row.median, NormalizeProp(prop)))
  }

  /** Python's `round(v)` to an integer: halves go to the even neighbour. */
  function RoundHalfEven(v: real): (r: int)
    ensures -0.5 <= r as real - v <= 0.5
  {
    var f := v.Floor;
    var frac := v - f as real;
    if frac < 0.5 then f
    else if frac > 0.5 then f + 1
    else if f % 2 == 0 then f else f + 1
  }

  function Clamp(v: real, lo: real, hi: real): real {
    if v < lo then lo else if v > hi then hi else v
  }

  /** `normalize_transit`: `None` unless `float(x)` gives a number, otherwise the rounded score clamped to [0, 100]. */
  function NormalizeTransit(x: Json): (r: Option<int>)
    ensures r.None? <==> ToFloat(x).None? || ToFloat(x) == Some(NaN)
    ensures r.Some? ==> 0 <= r.value <= 100
    ensures r.Some? ==> var v := Clamp(ToFloat(x).value.x, 0.0, 100.0); -0.5 <= r.value as real - v <= 0.5
  {
    match ToFloat(x)
    case None => None
    case Some(NaN) => None
    case Some(Finite(v)) => Some(RoundHalfEven(Clamp(v, 0.0, 100.0)))
  }

  /** `get_neighbourhood_transit`: the normalised score, or the default clamped to [0, 100]. */
  function GetNeighbourhoodTransit(row: Row, default: int): (t: int)
    ensures 0 <= t <= 100
    ensures var raw := if row.transit.Some? then row.transit.value else JInt(default);
      NormalizeTransit(raw).Some? ==> t == NormalizeTransit(raw).value
    ensures var raw := if row.transit.Some? then row.transit.value else JInt(default);
      NormalizeTransit(raw).None? ==> t == if default < 0 then 0 else if default > 100 then 100 else default
  {
    var raw := if row.transit.Some? then row.transit.value else JInt(default);
    match NormalizeTransit(raw)
    case Some(n) => n
    case None => if default < 0 then 0 else if default > 100 then 100 else default
  }

  /** An integral score already in range is kept as it is. */
  lemma NormalizeTransitKeepsScores(i: int)
    requires 0 <= i <= 100
    ensures NormalizeTransit(JInt(i)) == Some(i)
  {
    assert Clamp(i as real, 0.0, 100.0) == i as real;
    assert (i as real).Floor == i;
  }

  /** An empty or missing property type looks up the one-bedroom median. */
  lemma CityMedianDefaultsToOneBed(ds: Dataset, city: string)
    ensures GetCityMedian(ds, city, Some("")) == GetCityMedian(ds, city, None)
              == GetCityMedian(ds, city, Some(DefaultPropertyType))
  {
    assert Lower(DefaultPropertyType) == DefaultPropertyType;
  }

  /** Lookups are insensitive to the case of the property type and to the spelling of the city key. */
  lemma {:induction false} CityMedianNormalisesKeys(ds: Dataset, city: string, prop: string)
    ensures GetCityMedian(ds, city, Some(prop)) == GetCityMedian(ds, city, Some(Lower(prop)))
    ensures GetCityMedian(ds, CityKey(city), Some(prop)) == GetCityMedian(ds, city, Some(prop))
  {
    LowerIdempotent(prop);
    CityKeyIdempotent(city);
  }

  /** Where the cache reads from on a miss. */
  datatype SourceKind = RemoteSnapshot | LocalFile

  /**
   * `_load_json` with its module-level `_CACHE`.  The remote fetch and the local file read are
   * passed in: `fetched` is the remote snapshot (`None` when the request fails or is not 200),
   * `localFile` the local snapshot (`None` when opening or parsing it raises).
   */
  class DatasetCache {
    var cached: Option<Dataset>
    ghost var sourceReads: seq<SourceKind>

    constructor ()
      ensures cached == None && sourceReads == []
    {
      cached := None;
      sourceReads := [];
    }

    method Load(liveMode: bool, urlConfigured: bool, fetched: Option<Dataset>, localFile: Option<Dataset>)
      returns (r: Option<Dataset>)
      modifies this
      ensures old(cached).Some? ==> r == old(cached) && cached == old(cached) && sourceReads == old(sourceReads)
      ensures old(cached).None? && liveMode && urlConfigured && fetched.Some? ==>
        r == fetched && cached == fetched && sourceReads == old(sourceReads) + [RemoteSnapshot]
      ensures old(cached).None? && liveMode && urlConfigured && fetched.None? ==>
        r == localFile && cached == localFile && sourceReads == old(sourceReads) + [RemoteSnapshot, LocalFile]
      ensures old(cached).None? && !(liveMode && urlConfigured) ==>
        r == localFile && cached == localFile && sourceReads == old(sourceReads) + [LocalFile]
      ensures r.Some? ==> cached == r
    {
      if cached.Some? {
        return cached;
      }
      if liveMode && urlConfigured {
        sourceReads := sourceReads + [RemoteSnapshot];
        if fetched.Some? {
          cached := fetched;
          return fetched;
        }
      }
      sourceReads := sourceReads + [LocalFile];
      cached := localFile;
      r := localFile;
    }
  }
}
