/**
 * The dataset merge tool: each input file is filed under the city its file
 * name mentions, later files replacing earlier ones for the same city, and
 * a small summary of each city's data is added.  Reading the input files is
 * the parameter `load`; writing the output file is not modelled.
 */
module MergeCmhc {
  import opened Wrappers
  import opened Strings
  import opened PyJson
  import opened Dicts

  // ---------------------------------------------------------------------------
  // File names, as `pathlib` splits a POSIX path
  // ---------------------------------------------------------------------------

  /** The text after the last `/`. */
  function LastSegment(path: string): (seg: string)
    ensures '/' !in seg
    ensures |seg| <= |path| && seg == path[|path| - |seg|..]
    ensures |seg| < |path| ==> path[|path| - |seg| - 1] == '/'
  {
    if path == [] || path[|path| - 1] == '/' then []
    else LastSegment(path[..|path| - 1]) + [path[|path| - 1]]
  }

  /** `Path(path).name`: the last component, skipping empty and `.` components; empty for the root. */
  function Name(path: string): (name: string)
    ensures '/' !in name && name != "."
    decreases |path|
  {
    var seg := LastSegment(path);
    if seg != "" && seg != "." then seg
    else if |seg| == |path| then ""
    else Name(path[..|path| - |seg| - 1])
  }

  /** A component without `/` is its own last segment, whatever directory precedes it. */
  lemma LastSegmentAfterSlash(dir: string, n: string)
    requires '/' !in n
    ensures LastSegment(dir + "/" + n) == n
    ensures LastSegment(n) == n
  {
    LastSegmentAfterPrefix(dir + "/", n);
    LastSegmentAfterPrefix([], n);
    assert [] + n == n;
  }

  /** After an empty prefix or one ending in `/`, a component without `/` is the last segment. */
  lemma {:induction false} LastSegmentAfterPrefix(p: string, n: string)
    requires '/' !in n && (p == [] || p[|p| - 1] == '/')
    ensures LastSegment(p + n) == n
    decreases |n|
  {
    if n == [] {
      assert p + n == p;
    } else {
      var front, c := n[..|n| - 1], n[|n| - 1];
      assert n == front + [c] && c in n;
      assert '/' !in front by {
        forall m | 0 <= m < |front| ensures front[m] != '/' {
          assert front[m] == n[m];
        }
      }
      LastSegmentAfterPrefix(p, front);
      assert p + n == (p + front) + [c];
      LastSegmentAppend(p + front, c);
    }
  }

  /** Appending a character other than `/` extends the last segment by it. */
  lemma LastSegmentAppend(q: string, c: char)
    requires c != '/'
    ensures LastSegment(q + [c]) == LastSegment(q) + [c]
  {
    assert (q + [c])[..|q|] == q;
  }

  /** The directories of a path do not change its name. */
  lemma NameIgnoresDirectory(dir: string, n: string)
    requires '/' !in n && n != "" && n != "."
    ensures Name(dir + "/" + n) == n && Name(n) == n
  {
    LastSegmentAfterSlash(dir, n);
  }

  /** The index of the last occurrence of `c` in `s`: `s.rfind(c)` when it is found. */
  function LastIndexOf(s: string, c: char): (r: Option<nat>)
    ensures r.Some? ==> r.value < |s| && s[r.value] == c && forall j :: r.value < j < |s| ==> s[j] != c
    ensures r.None? ==> c !in s
  {
    if s == [] then None
    else if s[|s| - 1] == c then Some(|s| - 1)
    else
      var r := LastIndexOf(s[..|s| - 1], c);
      assert r.None? ==> forall j :: 0 <= j < |s| ==> s[j] != c by {
        if r.None? {
          forall j | 0 <= j < |s| ensures s[j] != c {
            if j < |s| - 1 {
              assert s[..|s| - 1][j] == s[j];
            }
          }
        }
      }
      r
  }

  /** `Path(name).stem`: the name without its last suffix; a leading or trailing dot is no suffix. */
  function Stem(name: string): (stem: string)
    ensures |stem| <= |name| && stem == name[..|stem|]
    ensures |stem| < |name| ==> 0 < |stem| < |name| - 1 && name[|stem|] == '.' && '.' !in name[|stem| + 1..]
    ensures (exists k :: 0 < k < |name| - 1 && name[k] == '.' && forall j :: k < j < |name| ==> name[j] != '.') ==>
      |stem| < |name|
  {
    match LastIndexOf(name, '.')
    case Some(i) =>
      if 0 < i < |name| - 1 then
        var rest := name[i + 1..];
        assert forall m :: 0 <= m < |rest| ==> rest[m] == name[i + 1 + m];
        name[..i]
      else name
    case None => name
  }

  // ---------------------------------------------------------------------------
  // `guess_city_from_name`
  // ---------------------------------------------------------------------------

  const CityKeys: seq<string> :=
    ["toronto", "vancouver", "montreal", "ottawa", "calgary", "edmonton", "quebec", "winnipeg", "hamilton"]
  const CityDisplay: seq<string> :=
    ["Toronto", "Vancouver", "Montreal", "Ottawa", "Calgary", "Edmonton", "Quebec City", "Winnipeg", "Hamilton"]

  /** The first key of `keys`, in order, that occurs in `s`. */
  function FirstKeyIn(s: string, keys: seq<string>): (r: Option<nat>)
    ensures r.Some? ==> r.value < |keys| && Contains(s, keys[r.value])
    ensures r.Some? ==> forall m :: 0 <= m < r.value ==> !Contains(s, keys[m])
    ensures r.None? ==> forall m :: 0 <= m < |keys| ==> !Contains(s, keys[m])
  {
    if keys == [] then None
    else if Contains(s, keys[0]) then Some(0)
    else match FirstKeyIn(s, keys[1..])
      case None => None
      case Some(m) => Some(m + 1)
  }

  /**
   * `guess_city_from_name`: the display name of the first listed city that
   * the lower-cased file name contains, else the file's stem.
   */
  function GuessCity(path: string): (city: string)
    ensures match FirstKeyIn(Lower(Name(path)), CityKeys)
      case Some(m) => city == CityDisplay[m]
      case None => city == Stem(Name(path))
  {
    match FirstKeyIn(Lower(Name(path)), CityKeys)
    case Some(m) => CityDisplay[m]
    case None => Stem(Name(path))
  }

  /** The guess depends on the file name only, never on the directories. */
  lemma GuessIgnoresDirectory(dir: string, n: string)
    requires '/' !in n && n != "" && n != "."
    ensures GuessCity(dir + "/" + n) == GuessCity(n)
  {
    NameIgnoresDirectory(dir, n);
  }

  /** A file name mentioning "quebec" and no earlier city is filed as "Quebec City". */
  lemma QuebecIsQuebecCity(path: string)
    requires Contains(Lower(Name(path)), "quebec")
    requires forall m :: 0 <= m < 6 ==> !Contains(Lower(Name(path)), CityKeys[m])
    ensures GuessCity(path) == "Quebec City"
  {
    assert CityKeys[6] == "quebec";
  }

  // ---------------------------------------------------------------------------
  // `main`: arguments, merge loop, summary
  // ---------------------------------------------------------------------------

  /** The inputs and the output path; `None` when there are too few arguments (the usage exit). */
  function SplitArgs(args: seq<string>): (r: Option<(seq<string>, string)>)
    ensures r.None? <==> |args| < 4
    ensures r.Some? ==> r.value.0 + [r.value.1] == args && |r.value.0| >= 3
  {
    if |args| < 4 then None
    else
      assert args[..|args| - 1] + [args[|args| - 1]] == args;
      Some((args[..|args| - 1], args[|args| - 1]))
  }

  /** Each input paired with the city it is filed under. */
  function Filed(inputs: seq<(string, Json)>): (pairs: seq<(string, Json)>)
    ensures |pairs| == |inputs|
    ensures forall i :: 0 <= i < |inputs| ==> pairs[i] == (GuessCity(inputs[i].0), inputs[i].1)
  {
    seq(|inputs|, i requires 0 <= i < |inputs| => (GuessCity(inputs[i].0), inputs[i].1))
  }

  /** The cities after storing each (city, data) pair in order: `merged["cities"][city] = data`. */
  function FileAll(pairs: seq<(string, Json)>): (cities: Dict<Json>)
    ensures UniqueKeys(cities)
    decreases |pairs|
  {
    if pairs == [] then []
    else
      var last := pairs[|pairs| - 1];
      Put(FileAll(pairs[..|pairs| - 1]), last.0, last.1)
  }

  /** The merged cities of a run. */
  function CitiesOf(inputs: seq<(string, Json)>): Dict<Json> {
    FileAll(Filed(inputs))
  }

  /** The index of the last pair for `city`. */
  function LastFor(pairs: seq<(string, Json)>, city: string): (r: Option<nat>)
    ensures r.Some? ==> r.value < |pairs| && pairs[r.value].0 == city
    ensures r.Some? ==> forall j :: r.value < j < |pairs| ==> pairs[j].0 != city
    ensures r.None? ==> forall j :: 0 <= j < |pairs| ==> pairs[j].0 != city
    decreases |pairs|
  {
    if pairs == [] then None
    else if pairs[|pairs| - 1].0 == city then Some(|pairs| - 1)
    else
      var front := pairs[..|pairs| - 1];
      assert forall j :: 0 <= j < |front| ==> front[j] == pairs[j];
      LastFor(front, city)
  }

  /** A city holds the data of the last pair for it: a later input replaces an earlier one. */
  lemma {:induction false} LaterInputWins(pairs: seq<(string, Json)>, city: string)
    ensures Lookup(FileAll(pairs), city) ==
      match LastFor(pairs, city)
      case Some(i) => Some(pairs[i].1)
      case None => None
    decreases |pairs|
  {
    if pairs != [] {
      var front := pairs[..|pairs| - 1];
      var last := pairs[|pairs| - 1];
      LaterInputWins(front, city);
      assert FileAll(pairs) == Put(FileAll(front), last.0, last.1);
      PutLookup(FileAll(front), last.0, last.1, city);
      if last.0 != city {
        var l := LastFor(front, city);
        assert LastFor(pairs, city) == l;
        if l.Some? {
          assert front[l.value] == pairs[l.value];
        }
      }
    }
  }

  lemma FileAllStep(pairs: seq<(string, Json)>, i: nat)
    requires i < |pairs|
    ensures FileAll(pairs[..i + 1]) == Put(FileAll(pairs[..i]), pairs[i].0, pairs[i].1)
  {
    assert pairs[..i + 1][..i] == pairs[..i];
  }

  /** The merge loop. */
  method MergeCities(inputs: seq<(string, Json)>) returns (cities: Dict<Json>)
    ensures cities == CitiesOf(inputs)
  {
    ghost var pairs := Filed(inputs);
    cities := [];
    var i := 0;
    while i < |inputs|
      invariant i <= |inputs|
      invariant cities == FileAll(pairs[..i])
    {
      var (path, data) := inputs[i];
      FileAllStep(pairs, i);
      assert pairs[i] == (GuessCity(path), data);
      cities := Put(cities, GuessCity(path), data);
      i := i + 1;
    }
    assert pairs[..|inputs|] == pairs;
  }

  /** The summary of one city's data. */
  datatype MetaEntry = ItemCount(items: nat) | KeyCount(keys: nat) | TypeNamed(name: string)

  function MetaOf(data: Json): (e: MetaEntry)
    ensures data.JList? <==> e.ItemCount?
    ensures data.JList? ==> e.items == |data.items|
    ensures data.JObj? <==> e.KeyCount?
    ensures data.JObj? ==> e.keys == |data.fields.Keys|
    ensures e.TypeNamed? ==> e.name == TypeName(data) && e.name != "list" && e.name != "dict"
  {
    match data
    case JList(items) => ItemCount(|items|)
    case JObj(fields) => KeyCount(|fields.Keys|)
    case _ => TypeNamed(TypeName(data))
  }

  /** The summary loop: one entry per city, in the cities' order. */
  method CountMeta(cities: Dict<Json>) returns (meta: Dict<MetaEntry>)
    requires UniqueKeys(cities)
    ensures Keys(meta) == Keys(cities)
    ensures forall i :: 0 <= i < |cities| ==> meta[i] == (cities[i].0, MetaOf(cities[i].1))
  {
    meta := [];
    var i := 0;
    while i < |cities|
      invariant i <= |cities|
      invariant |meta| == i
      invariant forall m :: 0 <= m < i ==> meta[m] == (cities[m].0, MetaOf(cities[m].1))
    {
      var (city, data) := cities[i];
      assert city !in Keys(meta) by {
        forall m | 0 <= m < i ensures Keys(meta)[m] != city {
          assert Keys(meta)[m] == cities[m].0;
        }
      }
      PutNew(meta, city, MetaOf(data));
      meta := Put(meta, city, MetaOf(data));
      i := i + 1;
    }
  }

  /** The merged document. */
  datatype Merged = Merged(version: string, source: string, cities: Dict<Json>, meta: Dict<MetaEntry>)

  const Version := "CMHC Oct 2024"
  const Source := "local-merged"

  /** Each input path with the data read from it. */
  function Loaded(paths: seq<string>, load: string -> Json): (inputs: seq<(string, Json)>)
    ensures |inputs| == |paths|
    ensures forall i :: 0 <= i < |paths| ==> inputs[i] == (paths[i], load(paths[i]))
  {
    seq(|paths|, i requires 0 <= i < |paths| => (paths[i], load(paths[i])))
  }

  /**
   * `main` without the file writing: `None` for the usage exit, else the
   * output path and the merged document.  `load` reads one input file.
   */
  method Merge(args: seq<string>, load: string -> Json) returns (r: Option<(string, Merged)>)
    ensures r.None? <==> |args| < 4
    ensures r.Some? ==>
      var (outPath, merged) := r.value;
      && outPath == args[|args| - 1]
      && merged.version == Version && merged.source == Source
      && merged.cities == CitiesOf(Loaded(args[..|args| - 1], load))
      && Keys(merged.meta) == Keys(merged.cities)
      && forall i :: 0 <= i < |merged.cities| ==> merged.meta[i] == (merged.cities[i].0, MetaOf(merged.cities[i].1))
  {
    var split := SplitArgs(args);
    if split.None? {
      return None;
    }
    var (paths, outPath) := split.value;
    var inputs := Loaded(paths, load);
    var cities := MergeCities(inputs);
    var meta := CountMeta(cities);
    r := Some((outPath, Merged(Version, Source, cities, meta)));
  }
}
