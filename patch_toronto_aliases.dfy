/**
 * The dataset-patching helpers: index a city's zone records by name, find
 * the zone whose name mentions one of several candidate phrases, and pair
 * friendly neighbourhood names with their zone and its one-bedroom median.
 */
module TorontoAliases {
  import opened Wrappers
  import opened Strings
  import opened PyJson
  import opened Dicts

  /** A zone record, a JSON object. */
  type ZoneRecord = map<string, Json>

  /** Zone records by name, in the order their names first appear. */
  type ZoneMap = Dict<ZoneRecord>

  /** The record's `name` when it is a string. */
  function NameOf(r: ZoneRecord): Option<string> {
    if "name" in r && r["name"].JStr? then Some(r["name"].s) else None
  }

  /** The comprehension of `zone_map` over a list of records; an item that is not a dict raises. */
  function ZonesOf(items: seq<Json>): (z: Result<ZoneMap>)
    ensures z.Ok? <==> forall i :: 0 <= i < |items| ==> items[i].JObj?
    ensures z.Ok? ==> UniqueKeys(z.value)
    decreases |items|
  {
    if items == [] then Ok([])
    else
      var front := items[..|items| - 1];
      var last := items[|items| - 1];
      assert forall i :: 0 <= i < |front| ==> front[i] == items[i];
      match ZonesOf(front)
      case Err(e) => Err(e)
      case Ok(z) =>
        if !last.JObj? then Err("AttributeError: object has no attribute 'get'")
        else match NameOf(last.fields)
          case None => Ok(z)
          case Some(n) => Ok(Put(z, n, last.fields))
  }

  /**
   * `zone_map(data)`: the `neighbourhoods` list indexed by name.  A missing
   * list is empty; a value that cannot be iterated as records raises.
   */
  function ZoneMapOf(data: Json): (z: Result<ZoneMap>)
    ensures data.JObj? && "neighbourhoods" !in data.fields ==> z == Ok([])
    ensures data.JObj? && "neighbourhoods" in data.fields && data.fields["neighbourhoods"].JList? ==>
      z == ZonesOf(data.fields["neighbourhoods"].items)
    ensures !data.JObj? ==> z.Err?
  {
    if !data.JObj? then Err("AttributeError: object has no attribute 'get'")
    else
      var neighbourhoods := if "neighbourhoods" in data.fields then data.fields["neighbourhoods"] else JList([]);
      match neighbourhoods
      case JList(items) => ZonesOf(items)
      case JObj(m) => if m == map[] then Ok([]) else Err("AttributeError: 'str' object has no attribute 'get'")
      case JStr(s) => if s == [] then Ok([]) else Err("AttributeError: 'str' object has no attribute 'get'")
      case _ => Err("TypeError: object is not iterable")
  }

  /** Item `i` is a record named `n`. */
  predicate Named(items: seq<Json>, i: int, n: string)
    requires 0 <= i < |items|
  {
    items[i].JObj? && NameOf(items[i].fields) == Some(n)
  }

  /** The index of the last record named `n`. */
  function LastNamed(items: seq<Json>, n: string): (r: Option<nat>)
    ensures r.Some? ==> r.value < |items| && Named(items, r.value, n)
    ensures r.Some? ==> forall j :: r.value < j < |items| ==> !Named(items, j, n)
    ensures r.None? ==> forall j :: 0 <= j < |items| ==> !Named(items, j, n)
    decreases |items|
  {
    if items == [] then None
    else if Named(items, |items| - 1, n) then Some(|items| - 1)
    else
      var front := items[..|items| - 1];
      assert forall j :: 0 <= j < |front| ==> (Named(front, j, n) <==> Named(items, j, n)) by {
        forall j | 0 <= j < |front| ensures Named(front, j, n) <==> Named(items, j, n) {
          assert front[j] == items[j];
        }
      }
      LastNamed(front, n)
  }

  /**
   * A name is a key exactly when some record carries it, and its record is
   * the last one carrying it: a later duplicate overrides an earlier one.
   */
  lemma {:induction false} ZonesLookup(items: seq<Json>, n: string)
    requires ZonesOf(items).Ok?
    ensures Lookup(ZonesOf(items).value, n) ==
      match LastNamed(items, n)
      case Some(i) => Some(items[i].fields)
      case None => None
    decreases |items|
  {
    if items != [] {
      var front := items[..|items| - 1];
      var last := items[|items| - 1];
      ZonesLookup(front, n);
      var z := ZonesOf(front).value;
      assert ZonesOf(front).Ok? && last.JObj?;
      match NameOf(last.fields)
      case None =>
        assert ZonesOf(items).value == z;
        LastNamedFront(items, n);
      case Some(m) =>
        assert ZonesOf(items).value == Put(z, m, last.fields);
        PutLookup(z, m, last.fields, n);
        if m != n {
          LastNamedFront(items, n);
        }
    }
  }

  /** When the last item is not a record named `n`, the last record named `n` is among the others. */
  lemma LastNamedFront(items: seq<Json>, n: string)
    requires items != [] && !Named(items, |items| - 1, n)
    ensures LastNamed(items, n) == LastNamed(items[..|items| - 1], n)
    ensures LastNamed(items, n).Some? ==> items[LastNamed(items, n).value] == items[..|items| - 1][LastNamed(items, n).value]
  {
  }

  /** The first key, in key order, whose lower-case form contains the candidate lower-cased. */
  function FirstKeyWith(keys: seq<string>, candidate: string): (r: Option<nat>)
    ensures r.Some? ==> r.value < |keys| && Contains(Lower(keys[r.value]), Lower(candidate))
    ensures r.Some? ==> forall j :: 0 <= j < r.value ==> !Contains(Lower(keys[j]), Lower(candidate))
    ensures r.None? ==> forall j :: 0 <= j < |keys| ==> !Contains(Lower(keys[j]), Lower(candidate))
  {
    if keys == [] then None
    else if Contains(Lower(keys[0]), Lower(candidate)) then Some(0)
    else match FirstKeyWith(keys[1..], candidate)
      case None => None
      case Some(j) => Some(j + 1)
  }

  /**
   * The outer and inner loop of `find_zone_like`: the first candidate that
   * matches any key, and the first key it matches.
   */
  function ZoneMatch(keys: seq<string>, candidates: seq<string>): (r: Option<(nat, nat)>)
    ensures r.Some? ==>
      && r.value.0 < |candidates|
      && FirstKeyWith(keys, candidates[r.value.0]) == Some(r.value.1)
      && forall c :: 0 <= c < r.value.0 ==> FirstKeyWith(keys, candidates[c]).None?
    ensures r.None? <==> forall c :: 0 <= c < |candidates| ==> FirstKeyWith(keys, candidates[c]).None?
  {
    if candidates == [] then None
    else match FirstKeyWith(keys, candidates[0])
      case Some(j) => Some((0, j))
      case None =>
        match ZoneMatch(keys, candidates[1..])
        case None => None
        case Some((c, j)) => Some((c + 1, j))
  }

  /**
   * `find_zone_like`: `None` exactly when no candidate is a case-insensitive
   * substring of any key; otherwise a key of the map, found by the first
   * candidate that matches anything.
   */
  function FindZoneLike(zmap: ZoneMap, candidates: seq<string>): (r: Option<string>)
    ensures r.None? <==>
      forall c, j :: 0 <= c < |candidates| && 0 <= j < |zmap| ==> !Contains(Lower(zmap[j].0), Lower(candidates[c]))
    ensures r.Some? ==> r.value in Keys(zmap)
    ensures r.Some? ==> var (c, j) := ZoneMatch(Keys(zmap), candidates).value;
      r.value == zmap[j].0 && Contains(Lower(r.value), Lower(candidates[c]))
  {
    var keys := Keys(zmap);
    match ZoneMatch(keys, candidates)
    case None =>
      assert forall c, j :: 0 <= c < |candidates| && 0 <= j < |zmap| ==> !Contains(Lower(zmap[j].0), Lower(candidates[c])) by {
        forall c, j | 0 <= c < |candidates| && 0 <= j < |zmap|
          ensures !Contains(Lower(zmap[j].0), Lower(candidates[c]))
        {
          assert FirstKeyWith(keys, candidates[c]).None?;
          assert keys[j] == zmap[j].0;
        }
      }
      None
    case Some((c, j)) =>
      assert keys[j] == zmap[j].0;
      Some(keys[j])
  }

  /**
   * Candidate order outranks key order: when candidate `c` matches some
   * key, the key found is matched by `c` or by an earlier candidate.
   */
  lemma CandidateOrderWins(zmap: ZoneMap, candidates: seq<string>, c: nat, j: nat)
    requires c < |candidates| && j < |zmap| && Contains(Lower(zmap[j].0), Lower(candidates[c]))
    ensures FindZoneLike(zmap, candidates).Some?
    ensures ZoneMatch(Keys(zmap), candidates).value.0 <= c
  {
    var keys := Keys(zmap);
    assert keys[j] == zmap[j].0;
    assert FirstKeyWith(keys, candidates[c]).Some?;
  }

  /** One entry of `extract_pairs`: the zone echoed, and its `1bed` when it is a number. */
  datatype Pair = Pair(cmhcZone: Option<string>, cmhc1bed: Option<PyFloat>)

  function PairFor(zmap: ZoneMap, zone: Option<string>): (p: Pair)
    ensures p.cmhcZone == zone
    ensures p.cmhc1bed.Some? <==>
      zone.Some? && zone.value != "" && Lookup(zmap, zone.value).Some? &&
      IsNumber(GetOrNull(Lookup(zmap, zone.value).value, "1bed"))
    ensures p.cmhc1bed.Some? ==> Some(p.cmhc1bed.value) == ToFloat(GetOrNull(Lookup(zmap, zone.value).value, "1bed"))
  {
    if zone.Some? && zone.value != "" && Lookup(zmap, zone.value).Some? then
      var one := GetOrNull(Lookup(zmap, zone.value).value, "1bed");
      Pair(zone, if IsNumber(one) then ToFloat(one) else None)
    else Pair(zone, None)
  }

  /**
   * `extract_pairs`: one entry per friendly name, in the mapping's order,
   * each pairing the mapped zone with its one-bedroom median.
   */
  method ExtractPairs(zmap: ZoneMap, mapping: Dict<Option<string>>) returns (out: Dict<Pair>)
    requires UniqueKeys(mapping)
    ensures Keys(out) == Keys(mapping)
    ensures forall i :: 0 <= i < |mapping| ==> out[i] == (mapping[i].0, PairFor(zmap, mapping[i].1))
  {
    out := [];
    var i := 0;
    while i < |mapping|
      invariant i <= |mapping|
      invariant |out| == i
      invariant forall m :: 0 <= m < i ==> out[m] == (mapping[m].0, PairFor(zmap, mapping[m].1))
    {
      var (friendly, zone) := mapping[i];
      assert friendly !in Keys(out) by {
        forall m | 0 <= m < i ensures Keys(out)[m] != friendly {
          assert Keys(out)[m] == mapping[m].0;
        }
      }
      PutNew(out, friendly, PairFor(zmap, zone));
      out := Put(out, friendly, PairFor(zmap, zone));
      i := i + 1;
    }
  }
}
