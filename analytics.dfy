/** Admin aggregates over stored survey results: per-axis mean and spread
    of the stored scores, and rank-weighted flavor popularity. */
module AnalyticsUtils {
  import opened Seqs
  import opened Types

  /** A stored axis score as the aggregation reads it. */
  datatype AxisEntry = AxisEntry(axisId: string, name: string, score: real)

  /** A stored result's axis lists, either of which may be missing. */
  datatype StoredAxes = StoredAxes(coreAxes: Option<seq<AxisEntry>>, facets: Option<seq<AxisEntry>>)

  datatype FlavorEntry = FlavorEntry(name: string, affinity: real)

  /** A stored result's ranked flavor list, which may be missing. */
  datatype StoredFlavors = StoredFlavors(topFlavors: Option<seq<FlavorEntry>>)

  /** `std_dev` is the square root of `variance`. */
  datatype AxisAggregate = AxisAggregate(
    axisId: string,
    axisName: string,
    avgScore: real,
    variance: real,
    sampleSize: nat)

  datatype FlavorPopularity = FlavorPopularity(flavorName: string, count: int, avgAffinity: real)

  /** `xs || []`. */
  function OrEmpty<T>(xs: Option<seq<T>>): seq<T>
  {
    match xs
    case None => []
    case Some(s) => s
  }

  // ------------------------------------------------------------ statistics

  /** The arithmetic mean; no caller passes an empty sequence. */
  function Mean(xs: seq<real>): real
  {
    if xs == [] then 0.0 else Sum(xs) / (|xs| as real)
  }

  function SquaredDeviations(xs: seq<real>, avg: real): (r: seq<real>)
    ensures |r| == |xs|
    ensures forall i | 0 <= i < |xs| :: r[i] == (xs[i] - avg) * (xs[i] - avg)
  {
    if xs == [] then []
    else SquaredDeviations(xs[..|xs| - 1], avg) + [(xs[|xs| - 1] - avg) * (xs[|xs| - 1] - avg)]
  }

  /** The population variance: the mean squared deviation from the mean. */
  function Variance(xs: seq<real>): real
  {
    if xs == [] then 0.0 else Sum(SquaredDeviations(xs, Mean(xs))) / (|xs| as real)
  }

  lemma {:induction false} SumNonNegative(xs: seq<real>)
    requires forall i | 0 <= i < |xs| :: xs[i] >= 0.0
    ensures Sum(xs) >= 0.0
  {
    if xs != [] {
      SumNonNegative(xs[..|xs| - 1]);
    }
  }

  lemma SquareNonNegative(e: real)
    ensures e * e >= 0.0
  {
    if e < 0.0 {
      MulNonNegative(-e, -e);
    } else {
      MulNonNegative(e, e);
    }
  }

  lemma {:induction false} SquaredDeviationsNonNegative(xs: seq<real>, avg: real)
    ensures forall i | 0 <= i < |xs| :: SquaredDeviations(xs, avg)[i] >= 0.0
  {
    forall i | 0 <= i < |xs| ensures SquaredDeviations(xs, avg)[i] >= 0.0 {
      SquareNonNegative(xs[i] - avg);
    }
  }

  lemma VarianceNonNegative(xs: seq<real>)
    ensures Variance(xs) >= 0.0
  {
    if xs != [] {
      var d := SquaredDeviations(xs, Mean(xs));
      SquaredDeviationsNonNegative(xs, Mean(xs));
      SumNonNegative(d);
      var total, n := Sum(d), |xs| as real;
      assert total >= 0.0 && n > 0.0;
      assert total / n >= 0.0;
    }
  }

  /** The mean lies between the smallest and the largest value. */
  lemma MeanBounded(xs: seq<real>, lo: real, hi: real)
    requires |xs| > 0 && forall i | 0 <= i < |xs| :: lo <= xs[i] <= hi
    ensures lo <= Mean(xs) <= hi
  {
    SumBetween(xs, lo, hi);
    var n := |xs| as real;
    assert lo * n / n == lo && hi * n / n == hi;
  }

  /** One sample is its own mean and has no spread. */
  lemma SingleSample(x: real)
    ensures Mean([x]) == x && Variance([x]) == 0.0
  {
    assert [x][..0] == [];
    assert Sum([x]) == x;
    assert Mean([x]) == x;
    var d := SquaredDeviations([x], x);
    assert d[0] == (x - x) * (x - x) == 0.0;
    assert d == [0.0];
    assert [0.0][..0] == [];
    assert Sum(d) == 0.0;
  }

  // --------------------------------------------------------- axis entries

  /** `[...(result.core_axes || []), ...(result.facets || [])]`. */
  function ResultAxes(result: StoredAxes): seq<AxisEntry>
  {
    OrEmpty(result.coreAxes) + OrEmpty(result.facets)
  }

  /** Every axis entry of every result, in order. */
  function AllAxes(data: seq<StoredAxes>): seq<AxisEntry>
  {
    if data == [] then [] else AllAxes(data[..|data| - 1]) + ResultAxes(data[|data| - 1])
  }

  /** The distinct axis ids, in order of first appearance. */
  function AxisIds(es: seq<AxisEntry>): seq<string>
  {
    if es == [] then []
    else
      var init, last := es[..|es| - 1], es[|es| - 1];
      var ids := AxisIds(init);
      if last.axisId in ids then ids else ids + [last.axisId]
  }

  /** An id is listed exactly when some entry carries it. */
  lemma {:induction false} AxisIdsMembership(es: seq<AxisEntry>, id: string)
    ensures id in AxisIds(es) <==> exists e | e in es :: e.axisId == id
  {
    if es != [] {
      var init, last := es[..|es| - 1], es[|es| - 1];
      assert es == init + [last];
      AxisIdsMembership(init, id);
    }
  }

  lemma {:induction false} AxisIdsDistinct(es: seq<AxisEntry>)
    ensures forall i, j | 0 <= i < j < |AxisIds(es)| :: AxisIds(es)[i] != AxisIds(es)[j]
  {
    if es != [] {
      AxisIdsDistinct(es[..|es| - 1]);
    }
  }

  /** The scores stored for `id`, in order. */
  function ScoresOf(es: seq<AxisEntry>, id: string): seq<real>
  {
    if es == [] then []
    else
      var init, last := es[..|es| - 1], es[|es| - 1];
      ScoresOf(init, id) + (if last.axisId == id then [last.score] else [])
  }

  /** The scores of `id` are exactly those of its entries, and a listed id
      has at least one. */
  lemma {:induction false} ScoresOfMembership(es: seq<AxisEntry>, id: string)
    ensures forall x | x in ScoresOf(es, id) :: exists e | e in es :: e.axisId == id && e.score == x
    ensures forall e | e in es && e.axisId == id :: e.score in ScoresOf(es, id)
    ensures id in AxisIds(es) ==> |ScoresOf(es, id)| > 0
  {
    if es != [] {
      var init, last := es[..|es| - 1], es[|es| - 1];
      assert es == init + [last];
      ScoresOfMembership(init, id);
    }
  }

  /** The name carried by the first entry of `id`. */
  function NameOf(es: seq<AxisEntry>, id: string): string
  {
    if es == [] then ""
    else
      var init, last := es[..|es| - 1], es[|es| - 1];
      if id in AxisIds(init) then NameOf(init, id) else if last.axisId == id then last.name else ""
  }

  /** `NameOf` is the name of the first occurrence. */
  lemma {:induction false} NameOfFirst(es: seq<AxisEntry>, i: int)
    requires 0 <= i < |es|
    requires forall k | 0 <= k < i :: es[k].axisId != es[i].axisId
    ensures NameOf(es, es[i].axisId) == es[i].name
  {
    var n := |es| - 1;
    var id := es[i].axisId;
    AxisIdsMembership(es[..n], id);
    if i < n {
      NameOfFirst(es[..n], i);
      assert es[..n][i] == es[i];
    } else {
      forall e | e in es[..n] ensures e.axisId != id {
        var k :| 0 <= k < n && es[..n][k] == e;
        assert es[k] == e;
      }
    }
  }

  datatype AxisStats = AxisStats(name: string, scores: seq<real>)

  function AggregateOf(id: string, stats: AxisStats): AxisAggregate
  {
    AxisAggregate(id, stats.name, Mean(stats.scores), Variance(stats.scores), |stats.scores|)
  }

  /** The aggregates of `keys`, in key order, from the entries `es`. */
  function AxisRows(keys: seq<string>, es: seq<AxisEntry>): (r: seq<AxisAggregate>)
    ensures |r| == |keys|
    ensures forall i | 0 <= i < |keys| :: r[i] == AggregateOf(keys[i], AxisStats(NameOf(es, keys[i]), ScoresOf(es, keys[i])))
  {
    if keys == [] then []
    else
      var k := keys[|keys| - 1];
      AxisRows(keys[..|keys| - 1], es) + [AggregateOf(k, AxisStats(NameOf(es, k), ScoresOf(es, k)))]
  }

  function AxisIdOf(a: AxisAggregate): string
  {
    a.axisId
  }

  /** What `computeAxisAggregates` returns. */
  function AxisAggregates(data: seq<StoredAxes>): seq<AxisAggregate>
  {
    var all := AllAxes(data);
    SortLex(AxisRows(AxisIds(all), all), AxisIdOf)
  }

  /** The `axisScores` record after the entries `done`: its keys in
      insertion order, and per key the first name and every score. */
  ghost predicate AxesTallied(keys: seq<string>, stats: map<string, AxisStats>, done: seq<AxisEntry>)
  {
    keys == AxisIds(done) &&
    (forall k :: k in stats <==> k in keys) &&
    (forall k | k in stats :: stats[k] == AxisStats(NameOf(done, k), ScoresOf(done, k)))
  }

  lemma {:induction false} ScoresOfAbsent(es: seq<AxisEntry>, id: string)
    requires id !in AxisIds(es)
    ensures ScoresOf(es, id) == []
  {
    if es != [] {
      ScoresOfAbsent(es[..|es| - 1], id);
    }
  }

  // ------------------------------------------------------ axis aggregates

  /** Recording one more entry keeps the record in step with the entries:
      a new id is appended to the keys with the entry's name, and the
      entry's score is appended to its id's scores. */
  lemma AxisTallyStep(keys: seq<string>, stats: map<string, AxisStats>, done: seq<AxisEntry>, axis: AxisEntry)
    requires AxesTallied(keys, stats, done)
    ensures var id := axis.axisId;
      var s := if id in stats then stats[id] else AxisStats(axis.name, []);
      AxesTallied(if id in stats then keys else keys + [id],
                  stats[id := AxisStats(s.name, s.scores + [axis.score])], done + [axis])
  {
    var id := axis.axisId;
    var done' := done + [axis];
    assert done'[..|done'| - 1] == done && done'[|done'| - 1] == axis;
    if id !in stats {
      ScoresOfAbsent(done, id);
    }
    var s := if id in stats then stats[id] else AxisStats(axis.name, []);
    var stats' := stats[id := AxisStats(s.name, s.scores + [axis.score])];
    forall k | k in stats' ensures stats'[k] == AxisStats(NameOf(done', k), ScoresOf(done', k)) {
      if k != id {
        assert k in AxisIds(done);
      }
    }
  }

  /** The body of the inner `forEach`: records one stored axis score. */
  method TallyAxis(keys: seq<string>, stats: map<string, AxisStats>, ghost done: seq<AxisEntry>, axis: AxisEntry)
    returns (keys': seq<string>, stats': map<string, AxisStats>)
    requires AxesTallied(keys, stats, done)
    ensures AxesTallied(keys', stats', done + [axis])
  {
    AxisTallyStep(keys, stats, done, axis);
    keys', stats' := keys, stats;
    if axis.axisId !in stats' {
      stats' := stats'[axis.axisId := AxisStats(axis.name, [])];
      keys' := keys' + [axis.axisId];
    }
    var s := stats'[axis.axisId];
    stats' := stats'[axis.axisId := AxisStats(s.name, s.scores + [axis.score])];
  }

  /** The inner `forEach` over one result's axes. */
  method TallyResult(keys: seq<string>, stats: map<string, AxisStats>, ghost done: seq<AxisEntry>, result: StoredAxes)
    returns (keys': seq<string>, stats': map<string, AxisStats>)
    requires AxesTallied(keys, stats, done)
    ensures AxesTallied(keys', stats', done + ResultAxes(result))
  {
    var allAxes := OrEmpty(result.coreAxes) + OrEmpty(result.facets);
    keys', stats' := keys, stats;
    assert done + allAxes[..0] == done;
    for j := 0 to |allAxes|
      invariant AxesTallied(keys', stats', done + allAxes[..j])
    {
      keys', stats' := TallyAxis(keys', stats', done + allAxes[..j], allAxes[j]);
      assert done + allAxes[..j] + [allAxes[j]] == done + allAxes[..j + 1];
    }
    assert allAxes[..|allAxes|] == allAxes;
  }

  /** `Object.entries(axisScores).map(...)`. */
  function StatsRows(keys: seq<string>, stats: map<string, AxisStats>): seq<AxisAggregate>
    requires forall k | k in keys :: k in stats
  {
    if keys == [] then []
    else
      var k := keys[|keys| - 1];
      StatsRows(keys[..|keys| - 1], stats) + [AggregateOf(k, stats[k])]
  }

  lemma {:induction false} StatsRowsMatch(keys: seq<string>, stats: map<string, AxisStats>, es: seq<AxisEntry>)
    requires forall k | k in keys :: k in stats && stats[k] == AxisStats(NameOf(es, k), ScoresOf(es, k))
    ensures StatsRows(keys, stats) == AxisRows(keys, es)
  {
    if keys != [] {
      var n := |keys| - 1;
      assert forall k | k in keys[..n] :: k in keys;
      StatsRowsMatch(keys[..n], stats, es);
      assert keys[n] in keys;
    }
  }

  /** `computeAxisAggregates`. */
  method ComputeAxisAggregates(data: seq<StoredAxes>) returns (aggregates: seq<AxisAggregate>)
    ensures aggregates == AxisAggregates(data)
  {
    var keys: seq<string> := [];
    var stats: map<string, AxisStats> := map[];
    for i := 0 to |data|
      invariant AxesTallied(keys, stats, AllAxes(data[..i]))
    {
      assert data[..i + 1][..i] == data[..i] && data[..i + 1][i] == data[i];
      keys, stats := TallyResult(keys, stats, AllAxes(data[..i]), data[i]);
    }
    assert data[..|data|] == data;
    StatsRowsMatch(keys, stats, AllAxes(data));
    aggregates := SortLex(StatsRows(keys, stats), AxisIdOf);
  }

  // -------------------------------------------- axis aggregate properties

  /** Every aggregate carries a stored axis id. */
  lemma AggregatesFromStoredAxes(data: seq<StoredAxes>)
    ensures forall a | a in AxisAggregates(data) :: exists e | e in AllAxes(data) :: e.axisId == a.axisId
  {
    var all := AllAxes(data);
    var keys := AxisIds(all);
    var rows := AxisRows(keys, all);
    forall a | a in AxisAggregates(data) ensures exists e | e in all :: e.axisId == a.axisId {
      assert a in multiset(rows);
      var i :| 0 <= i < |rows| && rows[i] == a;
      AxisIdsMembership(all, keys[i]);
    }
  }

  /** Every stored axis id has an aggregate. */
  lemma StoredAxesAggregated(data: seq<StoredAxes>)
    ensures forall e | e in AllAxes(data) :: exists a | a in AxisAggregates(data) :: a.axisId == e.axisId
  {
    var all := AllAxes(data);
    var keys := AxisIds(all);
    var rows := AxisRows(keys, all);
    forall e | e in all ensures exists a | a in AxisAggregates(data) :: a.axisId == e.axisId {
      AxisIdsMembership(all, e.axisId);
      var i :| 0 <= i < |keys| && keys[i] == e.axisId;
      assert rows[i] in multiset(AxisAggregates(data));
    }
  }

  /** There is an aggregate for every stored axis id, and for no other. */
  lemma AggregatesCoverAxes(data: seq<StoredAxes>)
    ensures forall a | a in AxisAggregates(data) :: exists e | e in AllAxes(data) :: e.axisId == a.axisId
    ensures forall e | e in AllAxes(data) :: exists a | a in AxisAggregates(data) :: a.axisId == e.axisId
  {
    AggregatesFromStoredAxes(data);
    StoredAxesAggregated(data);
  }

  /** No axis id has two aggregates, and the aggregates are ordered by
      axis id. */
  lemma AggregatesDistinctAndSorted(data: seq<StoredAxes>)
    ensures DistinctBy(AxisAggregates(data), AxisIdOf)
    ensures SortedLex(AxisAggregates(data), AxisIdOf)
  {
    var all := AllAxes(data);
    var keys := AxisIds(all);
    var rows := AxisRows(keys, all);
    AxisIdsDistinct(all);
    assert DistinctBy(rows, AxisIdOf) by {
      forall i, j | 0 <= i < j < |rows| ensures AxisIdOf(rows[i]) != AxisIdOf(rows[j]) {
        assert rows[i].axisId == keys[i] && rows[j].axisId == keys[j];
      }
    }
    SortLexDistinct(rows, AxisIdOf);
  }

  /** Each aggregate holds the mean and population variance of its axis'
      stored scores, their number, and its first stored name. */
  lemma AggregateContents(data: seq<StoredAxes>)
    ensures forall a | a in AxisAggregates(data) ::
      var scores := ScoresOf(AllAxes(data), a.axisId);
      a.sampleSize == |scores| && a.sampleSize >= 1 &&
      a.avgScore == Mean(scores) && a.variance == Variance(scores) && a.variance >= 0.0 &&
      a.axisName == NameOf(AllAxes(data), a.axisId)
  {
    var all := AllAxes(data);
    var keys := AxisIds(all);
    var rows := AxisRows(keys, all);
    forall a | a in AxisAggregates(data)
      ensures var scores := ScoresOf(all, a.axisId);
        a.sampleSize == |scores| && a.sampleSize >= 1 &&
        a.avgScore == Mean(scores) && a.variance == Variance(scores) && a.variance >= 0.0 &&
        a.axisName == NameOf(all, a.axisId)
    {
      assert a in multiset(rows);
      var i :| 0 <= i < |rows| && rows[i] == a;
      assert keys[i] in keys;
      ScoresOfMembership(all, keys[i]);
      VarianceNonNegative(ScoresOf(all, keys[i]));
    }
  }

  // ---------------------------------------------------- flavor popularity

  /** A flavor at a counted rank, with the weight of that rank. */
  datatype RankedFlavor = RankedFlavor(name: string, affinity: real, weight: int)

  /** The first five flavors of a list, weighted 5, 4, 3, 2, 1. */
  function Ranked(fs: seq<FlavorEntry>): (r: seq<RankedFlavor>)
    ensures |r| == if |fs| < 5 then |fs| else 5
  {
    if fs == [] then []
    else
      var i := |fs| - 1;
      Ranked(fs[..i]) + (if 5 - i > 0 then [RankedFlavor(fs[i].name, fs[i].affinity, 5 - i)] else [])
  }

  /** The counted ranks are the list's first flavors, in order, weighted 5,
      4, 3, 2, 1. */
  lemma {:induction false} RankedWeights(fs: seq<FlavorEntry>)
    ensures forall k | 0 <= k < |Ranked(fs)| :: Ranked(fs)[k] == RankedFlavor(fs[k].name, fs[k].affinity, 5 - k)
  {
    if fs != [] {
      RankedWeights(fs[..|fs| - 1]);
    }
  }

  function AllRanked(data: seq<StoredFlavors>): seq<RankedFlavor>
  {
    if data == [] then [] else AllRanked(data[..|data| - 1]) + Ranked(OrEmpty(data[|data| - 1].topFlavors))
  }

  /** The distinct flavor names, in order of first appearance. */
  function FlavorNames(rs: seq<RankedFlavor>): seq<string>
  {
    if rs == [] then []
    else
      var init, last := rs[..|rs| - 1], rs[|rs| - 1];
      var names := FlavorNames(init);
      if last.name in names then names else names + [last.name]
  }

  /** A name is listed exactly when some counted rank carries it. */
  lemma {:induction false} FlavorNamesMembership(rs: seq<RankedFlavor>, name: string)
    ensures name in FlavorNames(rs) <==> exists f | f in rs :: f.name == name
  {
    if rs != [] {
      var init, last := rs[..|rs| - 1], rs[|rs| - 1];
      assert rs == init + [last];
      FlavorNamesMembership(init, name);
    }
  }

  lemma {:induction false} FlavorNamesDistinct(rs: seq<RankedFlavor>)
    ensures forall i, j | 0 <= i < j < |FlavorNames(rs)| :: FlavorNames(rs)[i] != FlavorNames(rs)[j]
  {
    if rs != [] {
      FlavorNamesDistinct(rs[..|rs| - 1]);
    }
  }

  /** The summed rank weights of `name`. */
  function WeightOf(rs: seq<RankedFlavor>, name: string): int
  {
    if rs == [] then 0
    else
      var init, last := rs[..|rs| - 1], rs[|rs| - 1];
      WeightOf(init, name) + (if last.name == name then last.weight else 0)
  }

  /** The affinities of `name` at its counted ranks, in order. */
  function AffinitiesOf(rs: seq<RankedFlavor>, name: string): seq<real>
  {
    if rs == [] then []
    else
      var init, last := rs[..|rs| - 1], rs[|rs| - 1];
      AffinitiesOf(init, name) + (if last.name == name then [last.affinity] else [])
  }

  /** A listed name was counted at least once. */
  lemma {:induction false} AffinitiesNonEmpty(rs: seq<RankedFlavor>, name: string)
    requires name in FlavorNames(rs)
    ensures |AffinitiesOf(rs, name)| > 0
  {
    var init, last := rs[..|rs| - 1], rs[|rs| - 1];
    if last.name != name {
      AffinitiesNonEmpty(init, name);
    }
  }

  datatype FlavorStats = FlavorStats(count: int, affinities: seq<real>)

  function PopularityOf(name: string, stats: FlavorStats): FlavorPopularity
  {
    FlavorPopularity(name, stats.count, Mean(stats.affinities))
  }

  function PopularityRows(names: seq<string>, rs: seq<RankedFlavor>): (r: seq<FlavorPopularity>)
    ensures |r| == |names|
    ensures forall i | 0 <= i < |names| ::
      r[i] == PopularityOf(names[i], FlavorStats(WeightOf(rs, names[i]), AffinitiesOf(rs, names[i])))
  {
    if names == [] then []
    else
      var k := names[|names| - 1];
      PopularityRows(names[..|names| - 1], rs) + [PopularityOf(k, FlavorStats(WeightOf(rs, k), AffinitiesOf(rs, k)))]
  }

  function CountOf(p: FlavorPopularity): real
  {
    p.count as real
  }

  function FlavorNameOf(p: FlavorPopularity): string
  {
    p.flavorName
  }

  /** What `computeFlavorPopularity` returns. */
  function Popularity(data: seq<StoredFlavors>): seq<FlavorPopularity>
  {
    var all := AllRanked(data);
    Take(SortDesc(PopularityRows(FlavorNames(all), all), CountOf), 15)
  }

  /** The record after the counted ranks `done`, filled one rank at a time:
      a new name starts at nothing, then takes the rank's weight and
      affinity. */
  ghost function StatsMap(done: seq<RankedFlavor>): map<string, FlavorStats>
  {
    if done == [] then map[]
    else
      var m, f := StatsMap(done[..|done| - 1]), done[|done| - 1];
      var s := if f.name in m then m[f.name] else FlavorStats(0, []);
      m[f.name := FlavorStats(s.count + f.weight, s.affinities + [f.affinity])]
  }

  /** The tally state (`flavorCounts` and its insertion order) after the
      counted ranks in `done`. */
  ghost predicate FlavorsTallied(keys: seq<string>, stats: map<string, FlavorStats>, done: seq<RankedFlavor>)
  {
    keys == FlavorNames(done) && stats == StatsMap(done)
  }

  lemma {:induction false} FlavorAbsent(rs: seq<RankedFlavor>, name: string)
    requires name !in FlavorNames(rs)
    ensures WeightOf(rs, name) == 0 && AffinitiesOf(rs, name) == []
  {
    if rs != [] {
      FlavorAbsent(rs[..|rs| - 1], name);
    }
  }

  /** The record filled one rank at a time holds, for each listed name, its
      summed rank weights and its affinities in order. */
  lemma {:induction false} StatsMapTotals(done: seq<RankedFlavor>)
    ensures forall k :: k in StatsMap(done) <==> k in FlavorNames(done)
    ensures forall k | k in StatsMap(done) :: StatsMap(done)[k] == FlavorStats(WeightOf(done, k), AffinitiesOf(done, k))
  {
    if done != [] {
      var init, f := done[..|done| - 1], done[|done| - 1];
      StatsMapTotals(init);
      if f.name !in FlavorNames(init) {
        FlavorAbsent(init, f.name);
      }
    }
  }

  /** Recording one more counted rank keeps the record in step with the
      ranks: a new name is appended to the keys, and the rank's weight and
      affinity are added to its name's entry. */
  lemma FlavorTallyStep(keys: seq<string>, stats: map<string, FlavorStats>, done: seq<RankedFlavor>, f: RankedFlavor)
    requires FlavorsTallied(keys, stats, done)
    ensures var s := if f.name in stats then stats[f.name] else FlavorStats(0, []);
      FlavorsTallied(if f.name in stats then keys else keys + [f.name],
                     stats[f.name := FlavorStats(s.count + f.weight, s.affinities + [f.affinity])], done + [f])
  {
    StatsMapTotals(done);
    assert (done + [f])[..|done|] == done;
  }

  /** The body of the inner `forEach` for a counted rank. */
  method TallyFlavor(keys: seq<string>, stats: map<string, FlavorStats>, ghost done: seq<RankedFlavor>, f: RankedFlavor)
    returns (keys': seq<string>, stats': map<string, FlavorStats>)
    requires FlavorsTallied(keys, stats, done)
    ensures FlavorsTallied(keys', stats', done + [f])
  {
    keys', stats' := keys, stats;
    if f.name !in stats' {
      stats' := stats'[f.name := FlavorStats(0, [])];
      keys' := keys' + [f.name];
    }
    var s := stats'[f.name];
    stats' := stats'[f.name := FlavorStats(s.count + f.weight, s.affinities + [f.affinity])];
    assert s == if f.name in stats then stats[f.name] else FlavorStats(0, []);
    assert keys' == if f.name in stats then keys else keys + [f.name];
    FlavorTallyStep(keys, stats, done, f);
  }

  lemma RankedSnoc(fs: seq<FlavorEntry>, i: nat)
    requires i < |fs|
    ensures 5 - i > 0 ==> Ranked(fs[..i + 1]) == Ranked(fs[..i]) + [RankedFlavor(fs[i].name, fs[i].affinity, 5 - i)]
    ensures 5 - i <= 0 ==> Ranked(fs[..i + 1]) == Ranked(fs[..i])
  {
    assert fs[..i + 1][..i] == fs[..i];
  }

  /** The inner `forEach` over one result's ranked flavors. */
  method TallyRanks(keys: seq<string>, stats: map<string, FlavorStats>, ghost done: seq<RankedFlavor>, result: StoredFlavors)
    returns (keys': seq<string>, stats': map<string, FlavorStats>)
    requires FlavorsTallied(keys, stats, done)
    ensures FlavorsTallied(keys', stats', done + Ranked(OrEmpty(result.topFlavors)))
  {
    var flavors := OrEmpty(result.topFlavors);
    keys', stats' := keys, stats;
    assert done + Ranked(flavors[..0]) == done;
    for index := 0 to |flavors|
      invariant FlavorsTallied(keys', stats', done + Ranked(flavors[..index]))
    {
      keys', stats' := TallyAtRank(keys', stats', done, flavors, index);
    }
    assert flavors[..|flavors|] == flavors;
  }

  /** The callback of the inner `forEach`: the flavor at `index` counts
      with weight `5 - index` when that is positive. */
  method TallyAtRank(keys: seq<string>, stats: map<string, FlavorStats>, ghost done: seq<RankedFlavor>,
                     flavors: seq<FlavorEntry>, index: nat)
    returns (keys': seq<string>, stats': map<string, FlavorStats>)
    requires index < |flavors|
    requires FlavorsTallied(keys, stats, done + Ranked(flavors[..index]))
    ensures FlavorsTallied(keys', stats', done + Ranked(flavors[..index + 1]))
  {
    RankedSnoc(flavors, index);
    var flavor := flavors[index];
    var weight := 5 - index;
    if weight <= 0 {
      return keys, stats;
    }
    var ranked := RankedFlavor(flavor.name, flavor.affinity, weight);
    keys', stats' := TallyFlavor(keys, stats, done + Ranked(flavors[..index]), ranked);
    assert done + Ranked(flavors[..index]) + [ranked] == done + Ranked(flavors[..index + 1]);
  }

  function FlavorStatsRows(keys: seq<string>, stats: map<string, FlavorStats>): seq<FlavorPopularity>
    requires forall k | k in keys :: k in stats
  {
    if keys == [] then []
    else
      var k := keys[|keys| - 1];
      FlavorStatsRows(keys[..|keys| - 1], stats) + [PopularityOf(k, stats[k])]
  }

  lemma {:induction false} FlavorStatsRowsMatch(keys: seq<string>, stats: map<string, FlavorStats>, rs: seq<RankedFlavor>)
    requires forall k | k in keys :: k in stats && stats[k] == FlavorStats(WeightOf(rs, k), AffinitiesOf(rs, k))
    ensures FlavorStatsRows(keys, stats) == PopularityRows(keys, rs)
  {
    if keys != [] {
      var n := |keys| - 1;
      assert forall k | k in keys[..n] :: k in keys;
      FlavorStatsRowsMatch(keys[..n], stats, rs);
      assert keys[n] in keys;
    }
  }

  /** `computeFlavorPopularity`. */
  method ComputeFlavorPopularity(data: seq<StoredFlavors>) returns (popularity: seq<FlavorPopularity>)
    ensures popularity == Popularity(data)
  {
    var keys: seq<string> := [];
    var stats: map<string, FlavorStats> := map[];
    for i := 0 to |data|
      invariant FlavorsTallied(keys, stats, AllRanked(data[..i]))
    {
      assert data[..i + 1][..i] == data[..i] && data[..i + 1][i] == data[i];
      keys, stats := TallyRanks(keys, stats, AllRanked(data[..i]), data[i]);
    }
    assert data[..|data|] == data;
    StatsMapTotals(AllRanked(data));
    FlavorStatsRowsMatch(keys, stats, AllRanked(data));
    popularity := Take(SortDesc(FlavorStatsRows(keys, stats), CountOf), 15);
  }

  // ----------------------------------------- flavor popularity properties

  /** Every counted rank weighs between 1 and 5. */
  lemma {:induction false} RankWeights(data: seq<StoredFlavors>)
    ensures forall f | f in AllRanked(data) :: 1 <= f.weight <= 5
  {
    if data != [] {
      RankWeights(data[..|data| - 1]);
      var fs := OrEmpty(data[|data| - 1].topFlavors);
      RankedWeights(fs);
      forall f | f in Ranked(fs) ensures 1 <= f.weight <= 5 {
        var k :| 0 <= k < |Ranked(fs)| && Ranked(fs)[k] == f;
      }
    }
  }

  /** With rank weights between 1 and 5, a flavor's count is between one
      and five times the number of ranks it was counted at. */
  lemma {:induction false} CountBetween(rs: seq<RankedFlavor>, name: string)
    requires forall f | f in rs :: 1 <= f.weight <= 5
    ensures |AffinitiesOf(rs, name)| <= WeightOf(rs, name) <= 5 * |AffinitiesOf(rs, name)|
  {
    if rs != [] {
      var n := |rs| - 1;
      assert forall f | f in rs[..n] :: f in rs;
      CountBetween(rs[..n], name);
      assert rs[n] in rs;
    }
  }

  /** At most fifteen flavors, by non-increasing count, with distinct
      names. */
  lemma PopularityRanking(data: seq<StoredFlavors>)
    ensures |Popularity(data)| <= 15
    ensures SortedDesc(Popularity(data), CountOf)
    ensures DistinctBy(Popularity(data), FlavorNameOf)
  {
    var all := AllRanked(data);
    var names := FlavorNames(all);
    var rows := PopularityRows(names, all);
    var sorted := SortDesc(rows, CountOf);
    var r := Popularity(data);
    FlavorNamesDistinct(all);
    assert DistinctBy(rows, FlavorNameOf) by {
      forall i, j | 0 <= i < j < |rows| ensures FlavorNameOf(rows[i]) != FlavorNameOf(rows[j]) {
        assert rows[i].flavorName == names[i] && rows[j].flavorName == names[j];
      }
    }
    SortDescDistinct(rows, CountOf, FlavorNameOf);
    assert forall i | 0 <= i < |r| :: r[i] == sorted[i];
  }

  /** The fifteen most counted flavors are kept: the list is as long as
      the number of counted names, up to fifteen, and a counted name left
      out has a count no larger than any listed one. */
  lemma PopularitySelection(data: seq<StoredFlavors>)
    ensures var names := FlavorNames(AllRanked(data));
      |Popularity(data)| == if |names| < 15 then |names| else 15
    ensures forall n | n in FlavorNames(AllRanked(data)) ::
      || (exists p | p in Popularity(data) :: p.flavorName == n)
      || (forall p | p in Popularity(data) :: WeightOf(AllRanked(data), n) <= p.count)
  {
    var all := AllRanked(data);
    var names := FlavorNames(all);
    var rows := PopularityRows(names, all);
    var sorted := SortDesc(rows, CountOf);
    var r := Popularity(data);
    assert r == Take(sorted, 15);
    forall n | n in names
      ensures || (exists p | p in r :: p.flavorName == n)
              || (forall p | p in r :: WeightOf(all, n) <= p.count)
    {
      var i :| 0 <= i < |names| && names[i] == n;
      var row := rows[i];
      assert row.flavorName == n && row.count == WeightOf(all, n);
      assert row in multiset(sorted);
      var j :| 0 <= j < |sorted| && sorted[j] == row;
      if j < |r| {
        assert r[j] == row;
        assert r[j] in r;
      } else {
        forall p | p in r ensures WeightOf(all, n) <= p.count {
          var k :| 0 <= k < |r| && r[k] == p;
          assert sorted[k] == p;
          assert CountOf(sorted[k]) >= CountOf(sorted[j]);
        }
      }
    }
  }

  /** Each listed flavor was counted at least once; its count is its
      summed rank weights, between one and five times its number of
      counted ranks, and its average is the mean affinity at those ranks. */
  lemma PopularityEntries(data: seq<StoredFlavors>)
    ensures forall p | p in Popularity(data) ::
      var affinities := AffinitiesOf(AllRanked(data), p.flavorName);
      1 <= |affinities| <= p.count <= 5 * |affinities| &&
      p.count == WeightOf(AllRanked(data), p.flavorName) &&
      p.avgAffinity == Mean(affinities)
  {
    var all := AllRanked(data);
    var names := FlavorNames(all);
    var rows := PopularityRows(names, all);
    var sorted := SortDesc(rows, CountOf);
    var r := Popularity(data);
    RankWeights(data);
    forall p | p in r
      ensures var affinities := AffinitiesOf(all, p.flavorName);
        1 <= |affinities| <= p.count <= 5 * |affinities| &&
        p.count == WeightOf(all, p.flavorName) && p.avgAffinity == Mean(affinities)
    {
      var k :| 0 <= k < |r| && r[k] == p;
      assert sorted[k] == p;
      assert p in multiset(rows);
      var i :| 0 <= i < |rows| && rows[i] == p;
      assert names[i] in names;
      AffinitiesNonEmpty(all, names[i]);
      CountBetween(all, names[i]);
    }
  }

  /** Only the first five flavors of a result are counted: a flavor listed
      further down adds nothing. */
  lemma OnlyTopFiveCount(fs: seq<FlavorEntry>, extra: FlavorEntry)
    requires |fs| >= 5
    ensures Ranked(fs + [extra]) == Ranked(fs)
  {
    assert (fs + [extra])[..|fs|] == fs;
  }
}
