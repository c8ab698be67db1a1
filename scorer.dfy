/** The legacy item-based scorer: averages the keyed answers of each axis'
    items into a score in [-1, 1], labels the score by pole, and matches
    every flavor archetype by the weighted alignment of its components. */
module Scorer {
  import opened Seqs
  import opened Instrument
  import opened Survey
  import Types

  datatype CompassResults = CompassResults(
    coreAxes: seq<AxisScore>,
    facets: seq<AxisScore>,
    topFlavors: seq<FlavorMatch>,
    allFlavors: seq<FlavorMatch>)

  /** The instrument the scorer reads: `AXES` in declaration order, `ITEMS`
      and `FLAVOR_ARCHETYPES`. */
  datatype Catalog = Catalog(axes: seq<AxisDef>, items: seq<Item>, archetypes: seq<Archetype>)

  // ---------------------------------------------------------------- labels

  /** `Math.max(-1, Math.min(1, x))`. */
  function Clamp(x: real): (r: real)
    ensures -1.0 <= r <= 1.0
    ensures -1.0 <= x <= 1.0 ==> r == x
    ensures x > 1.0 ==> r == 1.0
    ensures x < -1.0 ==> r == -1.0
  {
    if x > 1.0 then 1.0 else if x < -1.0 then -1.0 else x
  }

  predicate EndsWith(s: string, suffix: string)
  {
    |suffix| <= |s| && s[|s| - |suffix|..] == suffix
  }

  predicate StartsWith(s: string, prefix: string)
  {
    |prefix| <= |s| && s[..|prefix|] == prefix
  }

  /** The label of a score: which pole it leans to, and how strongly. Beyond
      0.6 in magnitude the lean is strong, beyond 0.2 moderate, and within
      0.2 of 0 the score is centrist. */
  function PoleLabel(score: real, negLabel: string, posLabel: string): (r: string)
    ensures r == "Centrist / Mixed" <==> -0.2 <= score <= 0.2
    ensures StartsWith(r, "Strong ") <==> score < -0.6 || score > 0.6
    ensures StartsWith(r, "Moderate ") <==> (-0.6 <= score < -0.2 || 0.2 < score <= 0.6)
    ensures score < -0.6 ==> r == "Strong " + negLabel
    ensures -0.6 <= score < -0.2 ==> r == "Moderate " + negLabel
    ensures 0.2 < score <= 0.6 ==> r == "Moderate " + posLabel
    ensures score > 0.6 ==> r == "Strong " + posLabel
    ensures score < -0.2 ==> EndsWith(r, negLabel)
    ensures score > 0.2 ==> EndsWith(r, posLabel)
  {
    var centrist := "Centrist / Mixed";
    assert centrist[0] == 'C';
    if score < -0.6 then Prefixed("Strong ", negLabel)
    else if score < -0.2 then Prefixed("Moderate ", negLabel)
    else if score <= 0.2 then centrist
    else if score <= 0.6 then Prefixed("Moderate ", posLabel)
    else Prefixed("Strong ", posLabel)
  }

  function Prefixed(prefix: string, pole: string): (r: string)
    requires |prefix| > 0 && prefix[0] != 'C'
    ensures r == prefix + pole
    ensures r[0] == prefix[0] && EndsWith(r, pole) && StartsWith(r, prefix)
  {
    var r := prefix + pole;
    assert r[|r| - |pole|..] == pole;
    assert r[..|prefix|] == prefix;
    r
  }

  /** Mirroring a score swaps the roles of the two poles: the thresholds are
      strict on the negative side and inclusive on the positive side, so the
      labelling is exactly symmetric. */
  lemma PoleLabelSymmetric(score: real, negLabel: string, posLabel: string)
    ensures PoleLabel(-score, negLabel, posLabel) == PoleLabel(score, posLabel, negLabel)
  {
  }

  const StrengthTiers: seq<string> := ["Minimal", "Weak", "Moderate", "Strong", "Very Strong"]

  /** The position of a match-strength label in `StrengthTiers`. */
  function TierOf(strength: string): (t: int)
    ensures strength in StrengthTiers ==> 0 <= t < |StrengthTiers| && StrengthTiers[t] == strength
  {
    if strength == "Minimal" then 0
    else if strength == "Weak" then 1
    else if strength == "Moderate" then 2
    else if strength == "Strong" then 3
    else if strength == "Very Strong" then 4
    else -1
  }

  /** The verbal strength of a flavor affinity; a negative affinity is
      "Minimal". */
  function MatchStrength(affinity: real): (r: string)
    ensures r in StrengthTiers
    ensures r == "Minimal" <==> affinity < 0.1
    ensures r == "Weak" <==> 0.1 <= affinity < 0.3
    ensures r == "Moderate" <==> 0.3 <= affinity < 0.5
    ensures r == "Strong" <==> 0.5 <= affinity < 0.7
    ensures r == "Very Strong" <==> affinity >= 0.7
  {
    if affinity >= 0.7 then "Very Strong"
    else if affinity >= 0.5 then "Strong"
    else if affinity >= 0.3 then "Moderate"
    else if affinity >= 0.1 then "Weak"
    else "Minimal"
  }

  /** A larger affinity never gets a weaker label. */
  lemma MatchStrengthMonotone(a: real, b: real)
    requires a <= b
    ensures TierOf(MatchStrength(a)) <= TierOf(MatchStrength(b))
  {
  }

  // ------------------------------------------------------------ axis scores

  /** `itemsByAxis[axis]`: the items of `axis` in catalog order. */
  function ItemsOf(items: seq<Item>, axis: string): (r: seq<Item>)
    ensures forall it | it in r :: it in items && it.axis == axis
    ensures forall it | it in items && it.axis == axis :: it in r
  {
    if items == [] then []
    else
      var init, last := items[..|items| - 1], items[|items| - 1];
      assert items == init + [last];
      ItemsOf(init, axis) + (if last.axis == axis then [last] else [])
  }

  /** `itemsByAxis[axis] || []`. */
  function Lookup(byAxis: map<string, seq<Item>>, axis: string): seq<Item>
  {
    if axis in byAxis then byAxis[axis] else []
  }

  /** The sum of the keyed answers of the answered items. */
  function AnsweredSum(items: seq<Item>, responses: Types.Responses): real
  {
    if items == [] then 0.0
    else
      var init, last := items[..|items| - 1], items[|items| - 1];
      AnsweredSum(init, responses) + (if last.id in responses then responses[last.id] * last.key else 0.0)
  }

  /** The number of answered items. */
  function AnsweredCount(items: seq<Item>, responses: Types.Responses): (n: nat)
    ensures n <= |items|
  {
    if items == [] then 0
    else
      var init, last := items[..|items| - 1], items[|items| - 1];
      AnsweredCount(init, responses) + (if last.id in responses then 1 else 0)
  }

  /** The mean keyed answer halved onto [-1, 1], or 0 with no answer. */
  function Normalized(items: seq<Item>, responses: Types.Responses): real
  {
    var n := AnsweredCount(items, responses);
    if n > 0 then AnsweredSum(items, responses) / (2.0 * n as real) else 0.0
  }

  /** The score of an axis from the items of that axis. */
  function AxisScoreOf(def: AxisDef, group: seq<Item>, responses: Types.Responses): AxisScore
  {
    var score := Clamp(Normalized(group, responses));
    AxisScore(def.id, def.name, score, def.poleNegative, def.polePositive,
              PoleLabel(score, def.poleNegative, def.polePositive))
  }

  /** The scores in `AXES` order, as `Object.values(axisScores)` lists them. */
  function AxisScores(axes: seq<AxisDef>, items: seq<Item>, responses: Types.Responses): (r: seq<AxisScore>)
    ensures |r| == |axes|
    ensures forall j | 0 <= j < |axes| :: r[j].axisId == axes[j].id && -1.0 <= r[j].score <= 1.0
  {
    if axes == [] then []
    else AxisScores(axes[..|axes| - 1], items, responses) + [AxisScoreOf(axes[|axes| - 1], ItemsOf(items, axes[|axes| - 1].id), responses)]
  }

  /** The `axisScores` record: the axes written one after another. */
  function ScoreTable(axes: seq<AxisDef>, items: seq<Item>, responses: Types.Responses): map<string, AxisScore>
  {
    if axes == [] then map[]
    else
      var last := axes[|axes| - 1];
      ScoreTable(axes[..|axes| - 1], items, responses)[last.id := AxisScoreOf(last, ItemsOf(items, last.id), responses)]
  }

  /** The record has an entry for exactly the ids of the axes. */
  lemma {:induction false} ScoreTableKeys(axes: seq<AxisDef>, items: seq<Item>, responses: Types.Responses)
    ensures forall id :: id in ScoreTable(axes, items, responses) <==> exists j :: 0 <= j < |axes| && axes[j].id == id
  {
    if axes != [] {
      var init, last := axes[..|axes| - 1], axes[|axes| - 1];
      ScoreTableKeys(init, items, responses);
      forall id ensures id in ScoreTable(axes, items, responses) <==> exists j :: 0 <= j < |axes| && axes[j].id == id {
        if id != last.id && id in ScoreTable(init, items, responses) {
          var j :| 0 <= j < |init| && init[j].id == id;
          assert axes[j].id == id;
        }
        if exists j :: 0 <= j < |axes| && axes[j].id == id {
          var j :| 0 <= j < |axes| && axes[j].id == id;
          if j < |init| {
            assert init[j].id == id;
          }
        }
      }
    }
  }

  /** With distinct axis ids the record holds one entry per axis, and its
      values in insertion order are `AxisScores`. */
  lemma {:induction false} ScoreTableLookup(axes: seq<AxisDef>, items: seq<Item>, responses: Types.Responses)
    requires DistinctAxisIds(axes)
    ensures forall j | 0 <= j < |axes| ::
      axes[j].id in ScoreTable(axes, items, responses) &&
      ScoreTable(axes, items, responses)[axes[j].id] == AxisScores(axes, items, responses)[j]
  {
    if axes != [] {
      var n := |axes| - 1;
      ScoreTableLookup(axes[..n], items, responses);
      var t := ScoreTable(axes, items, responses);
      var s := AxisScores(axes, items, responses);
      forall j | 0 <= j < |axes| ensures axes[j].id in t && t[axes[j].id] == s[j] {
        if j < n {
          assert axes[..n][j] == axes[j];
          assert axes[j].id != axes[n].id;
        }
      }
    }
  }

  /** `AXES[id]`: the definition of `id`, if the catalog has one. */
  function FindAxisDef(axes: seq<AxisDef>, id: string): (r: Types.Option<AxisDef>)
    ensures r.Some? ==> r.value in axes && r.value.id == id
    ensures r.None? ==> forall d | d in axes :: d.id != id
  {
    if axes == [] then Types.None
    else if axes[0].id == id then Types.Some(axes[0])
    else FindAxisDef(axes[1..], id)
  }

  /** `AXES[id]?.is_facet`, with an unknown axis counted as core. */
  predicate IsFacet(axes: seq<AxisDef>, id: string)
  {
    match FindAxisDef(axes, id)
    case None => false
    case Some(d) => d.isFacet
  }

  function CoreAxes(axes: seq<AxisDef>, scores: seq<AxisScore>): seq<AxisScore>
  {
    Filter(scores, (a: AxisScore) => !IsFacet(axes, a.axisId))
  }

  function Facets(axes: seq<AxisDef>, scores: seq<AxisScore>): seq<AxisScore>
  {
    Filter(scores, (a: AxisScore) => IsFacet(axes, a.axisId))
  }

  // ------------------------------------------------------------ affinities

  /** A component takes part when its axis has a score and it is not
      neutral. */
  predicate Counts(c: Component, table: map<string, AxisScore>)
  {
    c.axis in table && c.direction != 0
  }

  /** `axisScore.score * comp.direction * comp.weight`. */
  function Alignment(c: Component, table: map<string, AxisScore>): real
    requires c.axis in table
  {
    table[c.axis].score * (c.direction as real) * c.weight
  }

  function WeightedSum(components: seq<Component>, table: map<string, AxisScore>): real
  {
    if components == [] then 0.0
    else
      var init, c := components[..|components| - 1], components[|components| - 1];
      WeightedSum(init, table) +
        (if Counts(c, table) then Alignment(c, table) else 0.0)
  }

  function TotalWeight(components: seq<Component>, table: map<string, AxisScore>): real
  {
    if components == [] then 0.0
    else
      var init, c := components[..|components| - 1], components[|components| - 1];
      TotalWeight(init, table) + (if Counts(c, table) then c.weight else 0.0)
  }

  /** The weighted mean alignment, before clamping; 0 with no weight. */
  function RawAffinity(components: seq<Component>, table: map<string, AxisScore>): real
  {
    var tw := TotalWeight(components, table);
    if tw > 0.0 then WeightedSum(components, table) / tw else 0.0
  }

  function FlavorMatchOf(flavor: Archetype, table: map<string, AxisScore>): FlavorMatch
  {
    var affinity := Clamp(RawAffinity(flavor.components, table));
    FlavorMatch(flavor.id, flavor.name, affinity, MatchStrength(affinity), flavor.description, flavor.color)
  }

  function Matches(flavors: seq<Archetype>, table: map<string, AxisScore>): (r: seq<FlavorMatch>)
    ensures |r| == |flavors|
    ensures forall k | 0 <= k < |flavors| :: r[k].flavorId == flavors[k].id && -1.0 <= r[k].affinity <= 1.0
  {
    if flavors == [] then []
    else Matches(flavors[..|flavors| - 1], table) + [FlavorMatchOf(flavors[|flavors| - 1], table)]
  }

  function AffinityOf(m: FlavorMatch): real
  {
    m.affinity
  }

  /** What `calculateScores` returns. */
  function Compass(catalog: Catalog, responses: Types.Responses): CompassResults
  {
    var scores := AxisScores(catalog.axes, catalog.items, responses);
    var table := ScoreTable(catalog.axes, catalog.items, responses);
    var flavors := SortDesc(Matches(catalog.archetypes, table), AffinityOf);
    CompassResults(CoreAxes(catalog.axes, scores), Facets(catalog.axes, scores), Take(flavors, 5), flavors)
  }

  // --------------------------------------------------------------- methods

  /** The `ITEMS.forEach` that groups the items by axis. */
  method GroupItemsByAxis(items: seq<Item>) returns (byAxis: map<string, seq<Item>>)
    ensures forall axis :: Lookup(byAxis, axis) == ItemsOf(items, axis)
  {
    byAxis := map[];
    for i := 0 to |items|
      invariant forall axis :: Lookup(byAxis, axis) == ItemsOf(items[..i], axis)
    {
      var item := items[i];
      assert items[..i + 1][..i] == items[..i] && items[..i + 1][i] == item;
      if item.axis !in byAxis {
        byAxis := byAxis[item.axis := []];
      }
      byAxis := byAxis[item.axis := byAxis[item.axis] + [item]];
    }
    assert items[..|items|] == items;
  }

  /** The per-axis loop over the axis' items. */
  method SumAnswers(items: seq<Item>, responses: Types.Responses) returns (rawSum: real, count: nat)
    ensures rawSum == AnsweredSum(items, responses)
    ensures count == AnsweredCount(items, responses)
  {
    rawSum, count := 0.0, 0;
    for i := 0 to |items|
      invariant rawSum == AnsweredSum(items[..i], responses)
      invariant count == AnsweredCount(items[..i], responses)
    {
      var item := items[i];
      assert items[..i + 1][..i] == items[..i] && items[..i + 1][i] == item;
      if item.id in responses {
        rawSum := rawSum + responses[item.id] * item.key;
        count := count + 1;
      }
    }
    assert items[..|items|] == items;
  }

  /** The mapping of one flavor archetype to its match. */
  method MatchFlavor(flavor: Archetype, table: map<string, AxisScore>) returns (m: FlavorMatch)
    ensures m == FlavorMatchOf(flavor, table)
  {
    var weightedSum, totalWeight := 0.0, 0.0;
    var cs := flavor.components;
    for i := 0 to |cs|
      invariant weightedSum == WeightedSum(cs[..i], table)
      invariant totalWeight == TotalWeight(cs[..i], table)
    {
      var comp := cs[i];
      assert cs[..i + 1][..i] == cs[..i] && cs[..i + 1][i] == comp;
      if comp.axis in table && comp.direction != 0 {
        var alignment := table[comp.axis].score * (comp.direction as real);
        weightedSum := weightedSum + alignment * comp.weight;
        totalWeight := totalWeight + comp.weight;
      }
    }
    assert cs[..|cs|] == cs;
    var affinity := if totalWeight > 0.0 then weightedSum / totalWeight else 0.0;
    var clamped := Clamp(affinity);
    m := FlavorMatch(flavor.id, flavor.name, clamped, MatchStrength(clamped), flavor.description, flavor.color);
  }

  /** The body of the per-axis loop: averages the answered items of one
      axis. */
  method ScoreAxis(def: AxisDef, group: seq<Item>, responses: Types.Responses) returns (score: AxisScore)
    ensures score == AxisScoreOf(def, group, responses)
  {
    var rawSum, count := SumAnswers(group, responses);
    var normalized := if count > 0 then rawSum / (2.0 * count as real) else 0.0;
    var clamped := Clamp(normalized);
    score := AxisScore(def.id, def.name, clamped, def.poleNegative, def.polePositive,
                       PoleLabel(clamped, def.poleNegative, def.polePositive));
  }

  lemma ScoreTableSnoc(axes: seq<AxisDef>, items: seq<Item>, responses: Types.Responses, k: nat)
    requires k < |axes|
    ensures var score := AxisScoreOf(axes[k], ItemsOf(items, axes[k].id), responses);
      && ScoreTable(axes[..k + 1], items, responses) == ScoreTable(axes[..k], items, responses)[axes[k].id := score]
      && AxisScores(axes[..k + 1], items, responses) == AxisScores(axes[..k], items, responses) + [score]
  {
    assert axes[..k + 1][..k] == axes[..k];
  }

  /** The `Object.entries(AXES).forEach` that scores every axis. */
  method ScoreAxes(axes: seq<AxisDef>, items: seq<Item>, byAxis: map<string, seq<Item>>, responses: Types.Responses)
    returns (axisScores: map<string, AxisScore>, values: seq<AxisScore>)
    requires forall axis :: Lookup(byAxis, axis) == ItemsOf(items, axis)
    ensures axisScores == ScoreTable(axes, items, responses)
    ensures values == AxisScores(axes, items, responses)
  {
    axisScores, values := map[], [];
    for k := 0 to |axes|
      invariant axisScores == ScoreTable(axes[..k], items, responses)
      invariant values == AxisScores(axes[..k], items, responses)
    {
      var def := axes[k];
      ScoreTableSnoc(axes, items, responses, k);
      var group := Lookup(byAxis, def.id);
      var score := ScoreAxis(def, group, responses);
      axisScores := axisScores[def.id := score];
      values := values + [score];
    }
    assert axes[..|axes|] == axes;
  }

  lemma MatchesSnoc(flavors: seq<Archetype>, table: map<string, AxisScore>, k: nat)
    requires k < |flavors|
    ensures Matches(flavors[..k + 1], table) == Matches(flavors[..k], table) + [FlavorMatchOf(flavors[k], table)]
  {
    assert flavors[..k + 1][..k] == flavors[..k];
  }

  /** The `FLAVOR_ARCHETYPES.map` that matches every flavor. */
  method MatchFlavors(flavors: seq<Archetype>, axisScores: map<string, AxisScore>) returns (matches: seq<FlavorMatch>)
    ensures matches == Matches(flavors, axisScores)
  {
    matches := [];
    for k := 0 to |flavors|
      invariant matches == Matches(flavors[..k], axisScores)
    {
      MatchesSnoc(flavors, axisScores, k);
      var m := MatchFlavor(flavors[k], axisScores);
      matches := matches + [m];
    }
    assert flavors[..|flavors|] == flavors;
  }

  /** `calculateScores`. */
  method CalculateScores(catalog: Catalog, responses: Types.Responses) returns (results: CompassResults)
    ensures results == Compass(catalog, responses)
  {
    var byAxis := GroupItemsByAxis(catalog.items);
    var axisScores, values := ScoreAxes(catalog.axes, catalog.items, byAxis, responses);
    var matches := MatchFlavors(catalog.archetypes, axisScores);
    var flavorMatches := SortDesc(matches, AffinityOf);
    results := CompassResults(CoreAxes(catalog.axes, values), Facets(catalog.axes, values),
                              Take(flavorMatches, 5), flavorMatches);
  }

  // ---------------------------------------------------------------- lemmas

  /** Every axis score lands in exactly one of the two lists: facets are the
      axes the catalog marks as facets, everything else is core. */
  lemma CompassAxesPartition(catalog: Catalog, responses: Types.Responses)
    ensures var r := Compass(catalog, responses);
      multiset(r.coreAxes) + multiset(r.facets) == multiset(AxisScores(catalog.axes, catalog.items, responses))
    ensures var r := Compass(catalog, responses);
      |r.coreAxes| + |r.facets| == |catalog.axes|
    ensures forall a | a in Compass(catalog, responses).coreAxes :: !IsFacet(catalog.axes, a.axisId)
    ensures forall a | a in Compass(catalog, responses).facets :: IsFacet(catalog.axes, a.axisId)
  {
    FacetSplit(catalog.axes, AxisScores(catalog.axes, catalog.items, responses));
  }

  /** Splitting scores by the facet flag loses and duplicates nothing. */
  lemma FacetSplit(axes: seq<AxisDef>, scores: seq<AxisScore>)
    ensures multiset(CoreAxes(axes, scores)) + multiset(Facets(axes, scores)) == multiset(scores)
    ensures |CoreAxes(axes, scores)| + |Facets(axes, scores)| == |scores|
    ensures forall a | a in CoreAxes(axes, scores) :: !IsFacet(axes, a.axisId)
    ensures forall a | a in Facets(axes, scores) :: IsFacet(axes, a.axisId)
  {
    var core, facets := CoreAxes(axes, scores), Facets(axes, scores);
    forall x: AxisScore ensures multiset(core)[x] + multiset(facets)[x] == multiset(scores)[x] {
      FilterMultiset(scores, (a: AxisScore) => !IsFacet(axes, a.axisId), x);
      FilterMultiset(scores, (a: AxisScore) => IsFacet(axes, a.axisId), x);
    }
    assert multiset(core) + multiset(facets) == multiset(scores);
    assert |multiset(core) + multiset(facets)| == |multiset(scores)|;
  }

  /** Every archetype gets one match; `allFlavors` is by non-increasing
      affinity and `topFlavors` is its first five. */
  lemma CompassFlavors(catalog: Catalog, responses: Types.Responses)
    ensures var r := Compass(catalog, responses);
      |r.allFlavors| == |catalog.archetypes| &&
      multiset(r.allFlavors) == multiset(Matches(catalog.archetypes, ScoreTable(catalog.axes, catalog.items, responses))) &&
      SortedDesc(r.allFlavors, AffinityOf) &&
      |r.topFlavors| == (if |catalog.archetypes| < 5 then |catalog.archetypes| else 5) &&
      r.topFlavors == r.allFlavors[..|r.topFlavors|]
    ensures forall m | m in Compass(catalog, responses).allFlavors ::
      -1.0 <= m.affinity <= 1.0 && m.matchStrength == MatchStrength(m.affinity)
  {
    RankedMatches(catalog.archetypes, ScoreTable(catalog.axes, catalog.items, responses));
  }

  /** The matches sorted by affinity: each in [-1, 1] with the label of its
      own affinity. */
  lemma RankedMatches(flavors: seq<Archetype>, table: map<string, AxisScore>)
    ensures forall m | m in SortDesc(Matches(flavors, table), AffinityOf) ::
      -1.0 <= m.affinity <= 1.0 && m.matchStrength == MatchStrength(m.affinity)
  {
    var ms := Matches(flavors, table);
    forall m | m in SortDesc(ms, AffinityOf) ensures -1.0 <= m.affinity <= 1.0 && m.matchStrength == MatchStrength(m.affinity) {
      assert m in multiset(ms);
      MatchesWellFormed(flavors, table, m);
    }
  }

  lemma {:induction false} MatchesWellFormed(flavors: seq<Archetype>, table: map<string, AxisScore>, m: FlavorMatch)
    requires m in Matches(flavors, table)
    ensures m.matchStrength == MatchStrength(m.affinity)
  {
    var n := |flavors| - 1;
    if m != FlavorMatchOf(flavors[n], table) {
      MatchesWellFormed(flavors[..n], table, m);
    }
  }

  /** An axis with no answered item scores 0 and is labelled centrist. */
  lemma UnansweredAxisIsCentrist(def: AxisDef, items: seq<Item>, responses: Types.Responses)
    requires forall it | it in items && it.axis == def.id :: it.id !in responses
    ensures AxisScoreOf(def, ItemsOf(items, def.id), responses).score == 0.0
    ensures AxisScoreOf(def, ItemsOf(items, def.id), responses).poleLabel == "Centrist / Mixed"
  {
    NoneAnswered(ItemsOf(items, def.id), responses);
  }

  lemma {:induction false} NoneAnswered(items: seq<Item>, responses: Types.Responses)
    requires forall it | it in items :: it.id !in responses
    ensures AnsweredCount(items, responses) == 0
  {
    if items != [] {
      NoneAnswered(items[..|items| - 1], responses);
    }
  }

  /** Every item key is 1 or -1. */
  ghost predicate UnitKeys(items: seq<Item>)
  {
    forall it | it in items :: it.key == 1.0 || it.key == -1.0
  }

  /** Answers on the Likert scale keep the keyed sum within twice the
      answer count. */
  lemma {:induction false} AnsweredSumBounded(items: seq<Item>, responses: Types.Responses)
    requires Types.ResponsesInRange(responses) && UnitKeys(items)
    ensures var n := AnsweredCount(items, responses) as real;
      -2.0 * n <= AnsweredSum(items, responses) <= 2.0 * n
  {
    if items != [] {
      var init, last := items[..|items| - 1], items[|items| - 1];
      assert forall it | it in init :: it in items;
      AnsweredSumBounded(init, responses);
    }
  }

  /** On Likert answers and unit keys the halved mean keyed answer lies in
      [-1, 1]. */
  lemma NormalizedInRange(group: seq<Item>, responses: Types.Responses)
    requires Types.ResponsesInRange(responses) && UnitKeys(group)
    ensures -1.0 <= Normalized(group, responses) <= 1.0
  {
    AnsweredSumBounded(group, responses);
    var n := AnsweredCount(group, responses);
    if n > 0 {
      var s, d := AnsweredSum(group, responses), 2.0 * n as real;
      assert Normalized(group, responses) == s / d;
      DivisionBounded(s, d);
    }
  }

  /** On Likert answers and unit keys the clamp never changes an axis
      score: the score is the halved mean keyed answer itself. */
  lemma AxisClampInactive(def: AxisDef, items: seq<Item>, responses: Types.Responses)
    requires Types.ResponsesInRange(responses) && UnitKeys(items)
    ensures AxisScoreOf(def, ItemsOf(items, def.id), responses).score == Normalized(ItemsOf(items, def.id), responses)
  {
    var group := ItemsOf(items, def.id);
    assert UnitKeys(group) by {
      forall it | it in group ensures it.key == 1.0 || it.key == -1.0 {
        assert it in items;
      }
    }
    NormalizedInRange(group, responses);
  }

  /** Every score in the record lies in [-1, 1]. */
  ghost predicate TableInRange(table: map<string, AxisScore>)
  {
    forall id | id in table :: -1.0 <= table[id].score <= 1.0
  }

  /** The weighted alignment is bounded by the weight that took part. */
  lemma {:induction false} WeightedSumBounded(components: seq<Component>, table: map<string, AxisScore>)
    requires PositiveWeights(components) && TableInRange(table)
    ensures TotalWeight(components, table) >= 0.0
    ensures -TotalWeight(components, table) <= WeightedSum(components, table) <= TotalWeight(components, table)
  {
    if components != [] {
      var init, c := components[..|components| - 1], components[|components| - 1];
      assert forall x | x in init :: x in components;
      WeightedSumBounded(init, table);
      if Counts(c, table) {
        assert c in components;
        AlignmentBounded(c, table);
      }
    }
  }

  lemma AlignmentBounded(c: Component, table: map<string, AxisScore>)
    requires Counts(c, table) && -1.0 <= table[c.axis].score <= 1.0 && c.weight > 0.0
    ensures -c.weight <= Alignment(c, table) <= c.weight
  {
    var s := table[c.axis].score * (c.direction as real);
    assert s == table[c.axis].score || s == -table[c.axis].score;
    assert Alignment(c, table) == s * c.weight;
    MulNonNegative(1.0 - s, c.weight);
    MulNonNegative(1.0 + s, c.weight);
  }

  /** With positive component weights the clamp never changes a flavor's
      affinity. */
  lemma AffinityClampInactive(flavor: Archetype, table: map<string, AxisScore>)
    requires PositiveWeights(flavor.components) && TableInRange(table)
    ensures FlavorMatchOf(flavor, table).affinity == RawAffinity(flavor.components, table)
  {
    WeightedSumBounded(flavor.components, table);
    var tw := TotalWeight(flavor.components, table);
    if tw > 0.0 {
      DivisionBounded(WeightedSum(flavor.components, table), tw);
    }
  }

  /** When no component takes part there is no weight, and the affinity
      is 0. */
  lemma {:induction false} NothingCountsIsZero(components: seq<Component>, table: map<string, AxisScore>)
    requires forall c | c in components :: !Counts(c, table)
    ensures TotalWeight(components, table) == 0.0
    ensures RawAffinity(components, table) == 0.0
  {
    if components != [] {
      var n := |components| - 1;
      assert forall c | c in components[..n] :: c in components;
      NothingCountsIsZero(components[..n], table);
      assert components[n] in components;
    }
  }

  /** A neutral component, or one whose axis has no score, leaves the
      affinity unchanged. */
  lemma NonCountingComponentIgnored(components: seq<Component>, c: Component, table: map<string, AxisScore>)
    requires !Counts(c, table)
    ensures RawAffinity(components + [c], table) == RawAffinity(components, table)
  {
    assert (components + [c])[..|components|] == components;
  }
}
