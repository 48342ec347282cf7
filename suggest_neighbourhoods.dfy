/**
 * The `suggest_neighbourhoods` tool: hard filters on distance, transit and
 * rent-to-income, a weighted score, a stable descending sort on the score
 * and a cut to the top three.
 */
module SuggestNeighbourhoods {
  import opened Wrappers
  import opened PyJson
  import opened HousingData
  import NeighbourhoodStats
  import GetRentData

  /**
   * A request value that is missing, present but not convertible by `float()`,
   * or a number.  For `min_transit`, read with a default, a `null` is
   * `Present(None)`; for `listing_price`, tested with `is not None`, a `null`
   * is `Absent`.
   */
  datatype Arg = Absent | Present(value: Option<real>)

  /** The `prefs` object; `None` is a missing, `null` or unconvertible value. */
  datatype Prefs = Prefs(maxDistanceKm: Option<real>, minTransit: Arg, targetRentToIncome: Option<real>)

  datatype SuggestRequest = SuggestRequest(
    city: Option<string>,
    propertyType: Option<string>,
    incomeAnnual: Option<real>,
    prefs: Prefs,
    listingPrice: Arg,
    budgetCap: Option<real>)

  /** The score weights, read from the environment by the source. */
  datatype Weights = Weights(afford: real, transit: real, distance: real)

  const DefaultWeights := Weights(0.5, 0.3, 0.2)

  const NoIncomeRti: real := 1000000000.0

  /** The request after defaulting and clamping. */
  datatype Settings = Settings(
    prop: string,
    incomeMonthly: real,
    maxDist: real,
    minTransit: int,
    target: real,
    priceRef: real,
    whyMinTransit: int)

  /** The structured `why` text: price note, optional transit note, RTI note. */
  datatype PriceNote = CheaperBy(amount: int) | AbovePrice(amount: int)
  datatype RtiNote = AtOrBelow(percent: int) | NearTarget(percent: int)
  datatype Why = Why(price: PriceNote, meetsTransit: Option<int>, rti: RtiNote)

  datatype Rec = Rec(
    name: Json,
    median: real,
    rentDiffVsListing: int,
    rentToIncome: real,
    transit: int,
    distanceKm: real,
    score: real,
    why: Why)

  datatype SuggestReply =
    | Suggestions(city: string, propertyType: string, source: Json, snapshotMonth: Json,
                  liveMode: bool, recommendations: seq<Rec>, reason: Option<string>)
    | CityNotFound(city: string)
    | InternalError
  {
    function Status(): int {
      match this
      case Suggestions(_, _, _, _, _, _, _) => 200
      case CityNotFound(_) => 404
      case InternalError => 500
    }
  }

  /** `_clamp`: `max(lo, min(hi, v))`. */
  function Clamp(v: real, lo: real, hi: real): (r: real)
    ensures lo <= hi ==> lo <= r <= hi
    ensures lo <= v <= hi ==> r == v
    ensures r >= lo
  {
    Max(lo, Min(hi, v))
  }

  /** `_affordability_component`: how far the rent-to-income ratio exceeds the target, as a score in [0, 1]. */
  function AffordabilityComponent(rti: real, target: real): (a: real)
    ensures 0.0 <= a <= 1.0
    ensures target <= 0.0 ==> a == 0.0
    ensures target > 0.0 && rti <= target ==> a == 1.0
  {
    if target <= 0.0 then 0.0
    else
      var over := Max(0.0, rti - target);
      var v := 1.0 - over / Max(target, 0.01);
      Max(0.0, Min(1.0, v))
  }

  /** A higher rent-to-income ratio never raises the affordability component. */
  lemma AffordabilityAntitone(rti1: real, rti2: real, target: real)
    requires rti1 <= rti2
    ensures AffordabilityComponent(rti2, target) <= AffordabilityComponent(rti1, target)
  {
    if target > 0.0 {
      var d := Max(target, 0.01);
      assert d > 0.0;
      assert Max(0.0, rti1 - target) <= Max(0.0, rti2 - target);
      assert Max(0.0, rti1 - target) / d <= Max(0.0, rti2 - target) / d;
    }
  }

  /** `_distance_component`: 1 at the centre, falling linearly to 0 at the maximum distance. */
  function DistanceComponent(dist: real, maxDist: real): (d: real)
    ensures dist >= 0.0 ==> 0.0 <= d <= 1.0
    ensures maxDist <= 0.0 || dist >= maxDist ==> d == 0.0
    ensures maxDist > 0.0 && dist == 0.0 ==> d == 1.0
  {
    if maxDist <= 0.0 then 0.0
    else 1.0 - Min(dist / maxDist, 1.0)
  }

  /** A farther neighbourhood never gets a higher distance component. */
  lemma DistanceAntitone(dist1: real, dist2: real, maxDist: real)
    requires dist1 <= dist2
    ensures DistanceComponent(dist2, maxDist) <= DistanceComponent(dist1, maxDist)
  {
    if maxDist > 0.0 {
      assert dist1 / maxDist <= dist2 / maxDist;
    }
  }

  function RequestCity(req: SuggestRequest): string {
    CityKey(req.city.GetOr("Toronto"))
  }

  /** The defaults and clamps applied before filtering (lambdas/suggest_neighbourhoods.py:58-73). */
  function Configure(req: SuggestRequest): (s: Settings)
    ensures s.prop == NormalizeProp(req.propertyType)
    ensures s.maxDist >= 0.0 && 0 <= s.minTransit <= 100
    ensures req.incomeAnnual.None? ==> s.incomeMonthly * 12.0 == 80000.0
    ensures req.prefs.maxDistanceKm.None? ==> s.maxDist == 15.0
    ensures req.prefs.maxDistanceKm.Some? ==> s.maxDist == Max(0.0, req.prefs.maxDistanceKm.value)
    ensures req.prefs.minTransit.Absent? ==> s.minTransit == 65
    ensures req.prefs.minTransit == Present(None) ==> s.minTransit == 0
    ensures req.prefs.targetRentToIncome.None? ==> s.target == 0.30
    ensures req.incomeAnnual.Some? ==> s.incomeMonthly == req.incomeAnnual.value / 12.0
    ensures req.prefs.minTransit.Present? && req.prefs.minTransit.value.Some? ==>
      s.minTransit == Trunc(Clamp(req.prefs.minTransit.value.value, 0.0, 100.0))
    ensures req.prefs.targetRentToIncome.Some? ==> s.target == req.prefs.targetRentToIncome.value
    ensures req.prefs.minTransit.Absent? || req.prefs.minTransit == Present(None) ==> s.whyMinTransit == 0
    ensures req.prefs.minTransit.Present? && req.prefs.minTransit.value.Some? ==>
      s.whyMinTransit == Trunc(req.prefs.minTransit.value.value)
    ensures req.listingPrice.Present? ==> s.priceRef == req.listingPrice.value.GetOr(0.0)
    ensures req.listingPrice.Absent? && req.budgetCap.Some? ==> s.priceRef == req.budgetCap.value
    ensures req.listingPrice.Absent? && req.budgetCap.None? ==> s.priceRef == s.incomeMonthly * s.target
  {
    var incomeMonthly := req.incomeAnnual.GetOr(80000.0) / 12.0;
    var maxDist := Max(0.0, req.prefs.maxDistanceKm.GetOr(15.0));
    var rawMin := match req.prefs.minTransit
      case Absent => 65.0
      case Present(v) => v.GetOr(0.0);
    var minTransit := Trunc(Clamp(rawMin, 0.0, 100.0));
    var target := req.prefs.targetRentToIncome.GetOr(0.30);
    var priceRef := match req.listingPrice
      case Present(v) => v.GetOr(0.0)
      case Absent => req.budgetCap.GetOr(incomeMonthly * target);
    var whyMin := match req.prefs.minTransit
      case Absent => 0
      case Present(v) => if v.Some? then Trunc(v.value) else 0;
    Settings(NormalizeProp(req.propertyType), incomeMonthly, maxDist, minTransit, target, priceRef, whyMin)
  }

  /** `max(0.0, _safe_float(row.get("distance_km", 0.0)))`; `max` keeps 0.0 against NaN. */
  function RowDistance(row: Row): (d: real)
    ensures d >= 0.0
  {
    match NeighbourhoodStats.Distance(row)
    case NaN => 0.0
    case Finite(x) => Max(0.0, x)
  }

  /** `int(nei.get("transit", 0))`: the raw transit value, not the normalised one. */
  function RawTransit(row: Row): int {
    if row.transit.None? then 0
    else match ToFloat(row.transit.value)
      case Some(Finite(x)) => Trunc(x)
      case _ => 0
  }

  function RentToIncome(median: real, incomeMonthly: real): real {
    if incomeMonthly > 0.0 then median / incomeMonthly else NoIncomeRti
  }

  /** The hard filters of lambdas/suggest_neighbourhoods.py:81-93. */
  predicate Passes(row: Row, s: Settings) {
    && GetNeighbourhoodMedian(row, Some(s.prop)).Some?
    && RowDistance(row) <= s.maxDist
    && GetNeighbourhoodTransit(row, 0) >= s.minTransit
    && RentToIncome(GetNeighbourhoodMedian(row, Some(s.prop)).value, s.incomeMonthly) <= s.target
  }

  /** `_why`, as the structure of its message rather than the rendered text. */
  function MakeWhy(row: Row, rentDiff: real, rti: real, s: Settings): (w: Why)
    ensures w.price.CheaperBy? <==> rentDiff < 0.0
    ensures w.price.amount >= 0
    ensures w.meetsTransit.Some? <==> RawTransit(row) >= s.whyMinTransit
    ensures w.rti.AtOrBelow? <==> rti <= s.target
  {
    var price := if rentDiff < 0.0 then CheaperBy(Trunc(-rentDiff)) else AbovePrice(Trunc(rentDiff));
    var transit := if RawTransit(row) >= s.whyMinTransit then Some(s.whyMinTransit) else None;
    var pct := Trunc(s.target * 100.0);
    Why(price, transit, if rti <= s.target then AtOrBelow(pct) else NearTarget(pct))
  }

  /** The weighted score of a surviving row, from its rent-to-income ratio, transit score and distance. */
  function Score(rti: real, transit: int, dist: real, s: Settings, w: Weights): real {
    var aff := AffordabilityComponent(rti, s.target);
    var transitNorm := Max(0.0, Min(1.0, transit as real / 100.0));
    var distComp := DistanceComponent(dist, s.maxDist);
    Weighted(w, aff, transitNorm, distComp)
  }

  function Weighted(w: Weights, aff: real, transitNorm: real, distComp: real): real {
    w.afford * aff + w.transit * transitNorm + w.distance * distComp
  }

  /** With non-negative weights, components in [0, 1] give a score between 0 and the sum of the weights. */
  lemma WeightedBound(w: Weights, aff: real, transitNorm: real, distComp: real)
    requires w.afford >= 0.0 && w.transit >= 0.0 && w.distance >= 0.0
    requires 0.0 <= aff <= 1.0 && 0.0 <= transitNorm <= 1.0 && 0.0 <= distComp <= 1.0
    ensures 0.0 <= Weighted(w, aff, transitNorm, distComp) <= w.afford + w.transit + w.distance
  {
    var p1, p2, p3 := w.afford * aff, w.transit * transitNorm, w.distance * distComp;
    ScaledBound(w.afford, aff);
    ScaledBound(w.transit, transitNorm);
    ScaledBound(w.distance, distComp);
    SumBound(p1, p2, p3, w.afford, w.transit, w.distance);
  }

  lemma SumBound(p1: real, p2: real, p3: real, k1: real, k2: real, k3: real)
    requires 0.0 <= p1 <= k1 && 0.0 <= p2 <= k2 && 0.0 <= p3 <= k3
    ensures 0.0 <= p1 + p2 + p3 <= k1 + k2 + k3
  {
  }

  /** One iteration of the filter-and-score loop: `None` for a skipped row. */
  function Evaluate(row: Row, s: Settings, w: Weights): (r: Option<Rec>)
    ensures r.Some? <==> Passes(row, s)
    ensures r.Some? ==>
      && r.value.name == row.name
      && GetNeighbourhoodMedian(row, Some(s.prop)) == Some(r.value.median)
      && r.value.distanceKm == RowDistance(row)
      && r.value.transit == GetNeighbourhoodTransit(row, 0)
      && 0.0 <= r.value.distanceKm <= s.maxDist
      && s.minTransit <= r.value.transit <= 100
      && r.value.rentDiffVsListing == Trunc(r.value.median - s.priceRef)
      && r.value.rentToIncome <= s.target
      && r.value.rentToIncome == RentToIncome(r.value.median, s.incomeMonthly)
      && r.value.score == Score(r.value.rentToIncome, r.value.transit, r.value.distanceKm, s, w)
      && r.value.why.rti.AtOrBelow?
  {
    match GetNeighbourhoodMedian(row, Some(s.prop))
    case None => None
    case Some(med) =>
      var transit := GetNeighbourhoodTransit(row, 0);
      var dist := RowDistance(row);
      if dist > s.maxDist || transit < s.minTransit then None
      else
        var rti := RentToIncome(med, s.incomeMonthly);
        if rti > s.target then None
        else
          var rentDiff := med - s.priceRef;
          Some(Rec(row.name, med, Trunc(rentDiff), rti, transit, dist,
                   Score(rti, transit, dist, s, w), MakeWhy(row, rentDiff, rti, s)))
  }

  /**
   * Every surviving row scores full affordability when the target is positive
   * (and zero otherwise); with non-negative weights the score lies between 0
   * and their sum, so in [0, 1] with the default weights.
   */
  lemma SurvivorScore(row: Row, s: Settings, w: Weights)
    requires Evaluate(row, s, w).Some?
    requires w.afford >= 0.0 && w.transit >= 0.0 && w.distance >= 0.0
    ensures var r := Evaluate(row, s, w).value;
      AffordabilityComponent(r.rentToIncome, s.target) == (if s.target > 0.0 then 1.0 else 0.0)
    ensures 0.0 <= Evaluate(row, s, w).value.score <= w.afford + w.transit + w.distance
    ensures w == DefaultWeights ==> 0.0 <= Evaluate(row, s, w).value.score <= 1.0
  {
    var r := Evaluate(row, s, w).value;
    ScoreBounds(r.rentToIncome, r.transit, r.distanceKm, s, w);
  }

  lemma ScoreBounds(rti: real, transit: int, dist: real, s: Settings, w: Weights)
    requires 0 <= transit <= 100 && dist >= 0.0
    requires w.afford >= 0.0 && w.transit >= 0.0 && w.distance >= 0.0
    ensures 0.0 <= Score(rti, transit, dist, s, w) <= w.afford + w.transit + w.distance
  {
    var tn := Max(0.0, Min(1.0, transit as real / 100.0));
    WeightedBound(w, AffordabilityComponent(rti, s.target), tn, DistanceComponent(dist, s.maxDist));
  }

  lemma ScaledBound(k: real, x: real)
    requires k >= 0.0 && 0.0 <= x <= 1.0
    ensures 0.0 <= k * x <= k
  {
    assert k * x <= k * 1.0;
  }

  /** Raising the maximum distance, everything else fixed, never rejects a row that passed. */
  lemma PassesMonotoneInMaxDist(row: Row, s: Settings, d: real)
    requires s.maxDist <= d
    ensures Passes(row, s) ==> Passes(row, s.(maxDist := d))
  {
  }

  /** The `Some` results of `f` over `xs`, in order: a list comprehension with a filter. */
  function Survivors<A, B>(xs: seq<A>, f: A -> Option<B>): (out: seq<B>)
    ensures |out| <= |xs|
  {
    if xs == [] then []
    else
      var front := Survivors(xs[..|xs| - 1], f);
      match f(xs[|xs| - 1])
      case None => front
      case Some(y) => front + [y]
  }

  /** `y` survives exactly when it survives all but the last element or is the last one's result. */
  lemma SurvivorsLast<A, B>(xs: seq<A>, f: A -> Option<B>, y: B)
    requires xs != []
    ensures y in Survivors(xs, f) <==> y in Survivors(xs[..|xs| - 1], f) || f(xs[|xs| - 1]) == Some(y)
  {
  }

  /** Every survivor is the result of some element. */
  lemma {:induction false} SurvivorSource<A, B>(xs: seq<A>, f: A -> Option<B>, y: B) returns (x: A)
    requires y in Survivors(xs, f)
    ensures x in xs && f(x) == Some(y)
    decreases |xs|
  {
    var front, last := xs[..|xs| - 1], xs[|xs| - 1];
    assert xs == front + [last];
    SurvivorsLast(xs, f, y);
    if y in Survivors(front, f) {
      x := SurvivorSource(front, f, y);
    } else {
      x := last;
    }
  }

  /** Every result of an element survives. */
  lemma {:induction false} SurvivorListed<A, B>(xs: seq<A>, f: A -> Option<B>, x: A, y: B)
    requires x in xs && f(x) == Some(y)
    ensures y in Survivors(xs, f)
    decreases |xs|
  {
    var front, last := xs[..|xs| - 1], xs[|xs| - 1];
    assert xs == front + [last];
    SurvivorsLast(xs, f, y);
    if x != last {
      SurvivorListed(front, f, x, y);
    }
  }

  /** The scoring of one row under fixed settings and weights. */
  function Evaluator(s: Settings, w: Weights): Row -> Option<Rec> {
    row => Evaluate(row, s, w)
  }

  /** The scored rows in dataset order (the list before sorting). */
  function Candidates(rows: seq<Row>, s: Settings, w: Weights): (out: seq<Rec>)
    ensures |out| <= |rows|
  {
    Survivors(rows, Evaluator(s, w))
  }

  /** The candidates are exactly the evaluations of the rows that pass the filters. */
  lemma CandidatesMembers(rows: seq<Row>, s: Settings, w: Weights, x: Rec)
    ensures x in Candidates(rows, s, w) <==> exists row :: row in rows && Evaluate(row, s, w) == Some(x)
  {
    if x in Candidates(rows, s, w) {
      var row := SurvivorSource(rows, Evaluator(s, w), x);
      assert Evaluator(s, w)(row) == Evaluate(row, s, w);
    }
    if exists row :: row in rows && Evaluate(row, s, w) == Some(x) {
      var row :| row in rows && Evaluate(row, s, w) == Some(x);
      assert Evaluator(s, w)(row) == Evaluate(row, s, w);
      SurvivorListed(rows, Evaluator(s, w), row, x);
    }
  }

  /** The number of candidates counts the rows that pass the filters. */
  function PassCount(rows: seq<Row>, s: Settings): nat {
    if rows == [] then 0
    else PassCount(rows[..|rows| - 1], s) + (if Passes(rows[|rows| - 1], s) then 1 else 0)
  }

  lemma {:induction false} CandidatesCount(rows: seq<Row>, s: Settings, w: Weights)
    ensures |Candidates(rows, s, w)| == PassCount(rows, s)
    decreases |rows|
  {
    if rows != [] {
      CandidatesCount(rows[..|rows| - 1], s, w);
      assert Evaluator(s, w)(rows[|rows| - 1]) == Evaluate(rows[|rows| - 1], s, w);
    }
  }

  /** Raising the maximum distance never shrinks the filtered list (lambdas/suggest_neighbourhoods.py:88). */
  lemma {:induction false} MaxDistMonotone(rows: seq<Row>, s: Settings, w: Weights, d: real)
    requires s.maxDist <= d
    ensures |Candidates(rows, s, w)| <= |Candidates(rows, s.(maxDist := d), w)|
    decreases |rows|
  {
    CandidatesCount(rows, s, w);
    CandidatesCount(rows, s.(maxDist := d), w);
    PassCountMonotone(rows, s, d);
  }

  lemma {:induction false} PassCountMonotone(rows: seq<Row>, s: Settings, d: real)
    requires s.maxDist <= d
    ensures PassCount(rows, s) <= PassCount(rows, s.(maxDist := d))
    decreases |rows|
  {
    if rows != [] {
      PassCountMonotone(rows[..|rows| - 1], s, d);
      PassesMonotoneInMaxDist(rows[|rows| - 1], s, d);
    }
  }

  /** The filter-and-score loop (lambdas/suggest_neighbourhoods.py:79-110). */
  method CollectCandidates(rows: seq<Row>, s: Settings, w: Weights) returns (acc: seq<Rec>)
    ensures acc == Candidates(rows, s, w)
  {
    acc := [];
    var i := 0;
    while i < |rows|
      invariant 0 <= i <= |rows|
      invariant acc == Candidates(rows[..i], s, w)
    {
      assert rows[..i + 1][..i] == rows[..i];
      assert Evaluator(s, w)(rows[i]) == Evaluate(rows[i], s, w);
      var r := Evaluate(rows[i], s, w);
      if r.Some? {
        acc := acc + [r.value];
      }
      i := i + 1;
    }
    assert rows[..|rows|] == rows;
  }

  predicate SortedDesc(s: seq<Rec>) {
    forall i, j :: 0 <= i < j < |s| ==> s[i].score >= s[j].score
  }

  /** Insertion after every element whose score is at least `x`'s: a stable descending insert. */
  function Insert(x: Rec, s: seq<Rec>): (r: seq<Rec>)
    ensures |r| == |s| + 1
  {
    if s == [] then [x]
    else if s[0].score < x.score then [x] + s
    else [s[0]] + Insert(x, s[1..])
  }

  /** An insertion adds exactly the inserted entry. */
  lemma {:induction false} InsertPermutes(x: Rec, s: seq<Rec>)
    ensures multiset(Insert(x, s)) == multiset(s) + multiset{x}
    decreases |s|
  {
    if s != [] && s[0].score >= x.score {
      InsertPermutes(x, s[1..]);
      assert s == [s[0]] + s[1..];
    }
  }

  /** The entries of an insertion are the inserted entry and the old ones. */
  lemma {:induction false} InsertMembers(x: Rec, s: seq<Rec>, y: Rec)
    requires y in Insert(x, s)
    ensures y == x || y in s
  {
    InsertPermutes(x, s);
    assert y in multiset(Insert(x, s));
  }

  lemma {:induction false} InsertSorted(x: Rec, s: seq<Rec>)
    requires SortedDesc(s)
    ensures SortedDesc(Insert(x, s))
    decreases |s|
  {
    if s != [] && s[0].score >= x.score {
      var t := Insert(x, s[1..]);
      assert SortedDesc(s[1..]) by {
        forall i, j | 0 <= i < j < |s[1..]| ensures s[1..][i].score >= s[1..][j].score {
          assert s[1..][i] == s[i + 1] && s[1..][j] == s[j + 1];
        }
      }
      InsertSorted(x, s[1..]);
      forall k | 0 <= k < |t| ensures t[k].score <= s[0].score {
        InsertMembers(x, s[1..], t[k]);
      }
      var r := [s[0]] + t;
      assert Insert(x, s) == r;
      forall i, j | 0 <= i < j < |r| ensures r[i].score >= r[j].score {
        assert r[j] == t[j - 1];
        if i > 0 {
          assert r[i] == t[i - 1];
        }
      }
    } else if s != [] {
      var r := [x] + s;
      assert Insert(x, s) == r;
      forall i, j | 0 <= i < j < |r| ensures r[i].score >= r[j].score {
        assert r[j] == s[j - 1];
        if i > 0 {
          assert r[i] == s[i - 1];
        }
      }
    }
  }

  /** `rows.sort(key=score, reverse=True)` on the list built in dataset order. */
  function SortByScore(s: seq<Rec>): (r: seq<Rec>)
    ensures |r| == |s|
  {
    if s == [] then [] else Insert(s[|s| - 1], SortByScore(s[..|s| - 1]))
  }

  /** The sort yields a descending permutation of its input. */
  lemma {:induction false} SortByScoreCorrect(s: seq<Rec>)
    ensures SortedDesc(SortByScore(s))
    ensures multiset(SortByScore(s)) == multiset(s)
    decreases |s|
  {
    if s != [] {
      var front := s[..|s| - 1];
      SortByScoreCorrect(front);
      InsertSorted(s[|s| - 1], SortByScore(front));
      InsertPermutes(s[|s| - 1], SortByScore(front));
      assert s == front + [s[|s| - 1]];
    }
  }

  /** `[x]` when `x` has score `v`, otherwise `[]`. */
  function Only(x: Rec, v: real): seq<Rec> {
    if x.score == v then [x] else []
  }

  /** The entries with score `v`, in order. */
  function WithScore(s: seq<Rec>, v: real): seq<Rec> {
    if s == [] then [] else Only(s[0], v) + WithScore(s[1..], v)
  }

  lemma WithScoreCons(y: Rec, t: seq<Rec>, v: real)
    ensures WithScore([y] + t, v) == Only(y, v) + WithScore(t, v)
  {
    assert ([y] + t)[0] == y;
    assert ([y] + t)[1..] == t;
  }

  lemma {:induction false} WithScoreAppend(a: seq<Rec>, b: seq<Rec>, v: real)
    ensures WithScore(a + b, v) == WithScore(a, v) + WithScore(b, v)
    decreases |a|
  {
    if a == [] {
      assert a + b == b;
    } else {
      assert a == [a[0]] + a[1..];
      assert a + b == [a[0]] + (a[1..] + b);
      WithScoreCons(a[0], a[1..] + b, v);
      WithScoreAppend(a[1..], b, v);
      WithScoreCons(a[0], a[1..], v);
    }
  }

  lemma {:induction false} WithScoreNone(s: seq<Rec>, v: real)
    requires forall i :: 0 <= i < |s| ==> s[i].score < v
    ensures WithScore(s, v) == []
    decreases |s|
  {
    if s != [] {
      WithScoreNone(s[1..], v);
    }
  }

  lemma SortedTail(s: seq<Rec>)
    requires SortedDesc(s) && s != []
    ensures SortedDesc(s[1..])
  {
    forall i, j | 0 <= i < j < |s[1..]| ensures s[1..][i].score >= s[1..][j].score {
      assert s[1..][i] == s[i + 1] && s[1..][j] == s[j + 1];
    }
  }

  lemma {:induction false} WithScoreInsert(x: Rec, s: seq<Rec>, v: real)
    requires SortedDesc(s)
    ensures WithScore(Insert(x, s), v) == WithScore(s, v) + Only(x, v)
    decreases |s|
  {
    if s == [] {
      WithScoreCons(x, [], v);
      assert [x] + [] == [x];
    } else if s[0].score < x.score {
      WithScoreCons(x, s, v);
      if x.score == v {
        WithScoreNone(s, v);
      }
    } else {
      SortedTail(s);
      WithScoreInsert(x, s[1..], v);
      WithScoreCons(s[0], Insert(x, s[1..]), v);
      WithScoreCons(s[0], s[1..], v);
      assert s == [s[0]] + s[1..];
    }
  }

  /** The sort is stable: entries of equal score keep their dataset order. */
  lemma {:induction false} SortByScoreStable(s: seq<Rec>, v: real)
    ensures WithScore(SortByScore(s), v) == WithScore(s, v)
    decreases |s|
  {
    if s != [] {
      var front := s[..|s| - 1];
      var last := s[|s| - 1];
      SortByScoreStable(front, v);
      SortByScoreCorrect(front);
      WithScoreInsert(last, SortByScore(front), v);
      assert s == front + [last];
      WithScoreAppend(front, [last], v);
      WithScoreCons(last, [], v);
      assert [last] + [] == [last];
    }
  }

  function MinInt(a: int, b: int): int { if a <= b then a else b }

  /** `rows[:3]`. */
  function TopThree(sorted: seq<Rec>): seq<Rec> {
    sorted[..MinInt(3, |sorted|)]
  }

  /** The recommendations: the top three of the sorted candidates. */
  function Recommend(rows: seq<Row>, s: Settings, w: Weights): seq<Rec> {
    TopThree(SortByScore(Candidates(rows, s, w)))
  }

  /**
   * The recommendations are at most three, non-increasing in score, a prefix
   * of the sorted candidates, and empty exactly when no row passes the filters.
   */
  lemma RecommendShape(rows: seq<Row>, s: Settings, w: Weights)
    ensures var recs := Recommend(rows, s, w);
      && |recs| <= 3
      && SortedDesc(recs)
      && recs == SortByScore(Candidates(rows, s, w))[..|recs|]
      && |recs| == MinInt(3, |Candidates(rows, s, w)|)
      && (recs == [] <==> forall row :: row in rows ==> !Passes(row, s))
  {
    var c := Candidates(rows, s, w);
    SortByScoreCorrect(c);
    var sorted := SortByScore(c);
    SortedPrefix(sorted, MinInt(3, |sorted|));
    NoCandidatesIff(rows, s, w);
  }

  /** A prefix of a list sorted by descending score is sorted the same way. */
  lemma SortedPrefix(xs: seq<Rec>, n: nat)
    requires SortedDesc(xs) && n <= |xs|
    ensures SortedDesc(xs[..n])
  {
    var p := xs[..n];
    forall i, j | 0 <= i < j < |p| ensures p[i].score >= p[j].score {
      assert p[i] == xs[i] && p[j] == xs[j];
    }
  }

  /** No candidate survives exactly when no row passes the filters. */
  lemma NoCandidatesIff(rows: seq<Row>, s: Settings, w: Weights)
    ensures Candidates(rows, s, w) == [] <==> forall row :: row in rows ==> !Passes(row, s)
  {
    var c := Candidates(rows, s, w);
    if c == [] {
      forall row | row in rows ensures !Passes(row, s) {
        if Passes(row, s) {
          CandidatesMembers(rows, s, w, Evaluate(row, s, w).value);
        }
      }
    } else {
      CandidatesMembers(rows, s, w, c[0]);
      assert c[0] in c;
    }
  }

  /** Every recommendation comes from a neighbourhood of the city that passes all the filters. */
  lemma RecommendSound(rows: seq<Row>, s: Settings, w: Weights, x: Rec)
    requires x in Recommend(rows, s, w)
    ensures exists row :: row in rows && Passes(row, s) && Evaluate(row, s, w) == Some(x)
    ensures x.distanceKm <= s.maxDist && x.transit >= s.minTransit && x.rentToIncome <= s.target
  {
    var c := Candidates(rows, s, w);
    SortByScoreCorrect(c);
    var sorted := SortByScore(c);
    assert x in sorted;
    assert x in multiset(c);
    CandidatesMembers(rows, s, w, x);
  }

  /** `lambda_handler`. */
  method Handle(ds: Option<Dataset>, liveMode: bool, req: SuggestRequest, w: Weights) returns (reply: SuggestReply)
    ensures ds.None? ==> reply == InternalError
    ensures ds.Some? && GetCityObj(ds.value, RequestCity(req)).None? ==> reply == CityNotFound(RequestCity(req))
    ensures ds.Some? && GetCityObj(ds.value, RequestCity(req)).Some? ==>
      && reply.Suggestions?
      && reply.city == RequestCity(req)
      && reply.propertyType == NormalizeProp(req.propertyType)
      && reply.recommendations == Recommend(ListNeighbourhoods(ds.value, reply.city), Configure(req), w)
    ensures reply.Suggestions? ==>
      (reply.reason.Some? <==> reply.recommendations == []) &&
      (reply.reason.Some? ==> reply.reason.value == "no_neighbourhood_passed_filters")
  {
    if ds.None? {
      return InternalError;
    }
    var data := ds.value;
    var city := RequestCity(req);
    var s := Configure(req);
    if GetCityObj(data, city).None? {
      return CityNotFound(city);
    }
    var cands := CollectCandidates(ListNeighbourhoods(data, city), s, w);
    var sorted := SortByScore(cands);
    var recs := TopThree(sorted);
    reply := Suggestions(city, s.prop,
                         GetRentData.MetaOr(data.meta, "version", "static_json_v1"),
                         GetRentData.MetaOr(data.meta, "snapshot_month", "unknown"),
                         liveMode, recs,
                         if recs == [] then Some("no_neighbourhood_passed_filters") else None);
  }
}
