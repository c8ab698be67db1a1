/** Flavor matching on the link-based axis scores: every archetype's
    affinity is the weighted mean alignment of its components, a neutral
    component counting as fully aligned and an unscored axis as 0. */
module ArchetypeCalculator {
  import opened Seqs
  import opened Instrument
  import Types

  datatype MatchStrength = Strong | Moderate | Weak | Mismatch

  datatype FlavorMatch = FlavorMatch(
    flavorId: string,
    name: string,
    description: string,
    color: string,
    affinity: real,
    matchStrength: MatchStrength)

  // ------------------------------------------------------------ score map

  /** `Object.fromEntries(axisScores.map(s => [s.axis_id, s.score]))`: the
      entries are written in order, so a later duplicate id wins. */
  function ScoreMap(axisScores: seq<Types.AxisScore>): map<string, real>
  {
    if axisScores == [] then map[]
    else
      var last := axisScores[|axisScores| - 1];
      ScoreMap(axisScores[..|axisScores| - 1])[last.axisId := last.score]
  }

  /** An id is in the map exactly when some score carries it, and it maps
      to the score of the last entry that carries it. */
  lemma {:induction false} ScoreMapLastWins(axisScores: seq<Types.AxisScore>, j: int)
    requires 0 <= j < |axisScores|
    requires forall k | j < k < |axisScores| :: axisScores[k].axisId != axisScores[j].axisId
    ensures axisScores[j].axisId in ScoreMap(axisScores)
    ensures ScoreMap(axisScores)[axisScores[j].axisId] == axisScores[j].score
  {
    var n := |axisScores| - 1;
    if j < n {
      ScoreMapLastWins(axisScores[..n], j);
    }
  }

  lemma {:induction false} ScoreMapKeys(axisScores: seq<Types.AxisScore>, id: string)
    ensures id in ScoreMap(axisScores) <==> exists s :: s in axisScores && s.axisId == id
  {
    if axisScores != [] {
      var n := |axisScores| - 1;
      ScoreMapKeys(axisScores[..n], id);
      assert axisScores == axisScores[..n] + [axisScores[n]];
    }
  }

  /** `scoreMap[axis] ?? 0`. */
  function UserScore(scoreMap: map<string, real>, axis: string): real
  {
    if axis in scoreMap then scoreMap[axis] else 0.0
  }

  // ------------------------------------------------------------ affinities

  /** A neutral component is always aligned; otherwise the user's score
      signed by the component's pole. */
  function Alignment(c: Component, scoreMap: map<string, real>): real
  {
    if c.direction == 0 then 1.0 else UserScore(scoreMap, c.axis) * (c.direction as real)
  }

  function WeightedAlignment(c: Component, scoreMap: map<string, real>): real
  {
    Alignment(c, scoreMap) * c.weight
  }

  function TotalAlignment(components: seq<Component>, scoreMap: map<string, real>): real
  {
    if components == [] then 0.0
    else
      var n := |components| - 1;
      TotalAlignment(components[..n], scoreMap) + WeightedAlignment(components[n], scoreMap)
  }

  /** Every component's weight counts, whether or not its axis is scored. */
  function TotalWeight(components: seq<Component>): real
  {
    if components == [] then 0.0
    else
      var n := |components| - 1;
      TotalWeight(components[..n]) + components[n].weight
  }

  function Affinity(components: seq<Component>, scoreMap: map<string, real>): real
  {
    var tw := TotalWeight(components);
    if tw > 0.0 then TotalAlignment(components, scoreMap) / tw else 0.0
  }

  /** The label of an affinity, by its magnitude alone. */
  function Strength(affinity: real): (s: MatchStrength)
    ensures s == Strong <==> Types.Abs(affinity) >= 0.7
    ensures s == Mismatch <==> Types.Abs(affinity) < 0.2
    ensures s == Moderate <==> 0.4 <= Types.Abs(affinity) < 0.7
  {
    var a := Types.Abs(affinity);
    if a >= 0.7 then Strong
    else if a >= 0.4 then Moderate
    else if a >= 0.2 then Weak
    else Mismatch
  }

  function MatchOf(flavor: Archetype, scoreMap: map<string, real>): FlavorMatch
  {
    var affinity := Affinity(flavor.components, scoreMap);
    FlavorMatch(flavor.id, flavor.name, flavor.description, flavor.color, affinity, Strength(affinity))
  }

  function Matches(flavors: seq<Archetype>, scoreMap: map<string, real>): (r: seq<FlavorMatch>)
    ensures |r| == |flavors|
    ensures forall k | 0 <= k < |flavors| :: r[k].flavorId == flavors[k].id
  {
    if flavors == [] then []
    else Matches(flavors[..|flavors| - 1], scoreMap) + [MatchOf(flavors[|flavors| - 1], scoreMap)]
  }

  function AffinityOf(m: FlavorMatch): real
  {
    m.affinity
  }

  /** What `calculateFlavorMatches` returns. */
  function FlavorMatches(axisScores: seq<Types.AxisScore>, flavors: seq<Archetype>): seq<FlavorMatch>
  {
    SortDesc(Matches(flavors, ScoreMap(axisScores)), AffinityOf)
  }

  // --------------------------------------------------------------- methods

  /** The inner loop over one flavor's components. */
  method SumComponents(components: seq<Component>, scoreMap: map<string, real>)
    returns (totalAlignment: real, totalWeight: real)
    ensures totalAlignment == TotalAlignment(components, scoreMap)
    ensures totalWeight == TotalWeight(components)
  {
    totalAlignment, totalWeight := 0.0, 0.0;
    for i := 0 to |components|
      invariant totalAlignment == TotalAlignment(components[..i], scoreMap)
      invariant totalWeight == TotalWeight(components[..i])
    {
      var component := components[i];
      assert components[..i + 1][..i] == components[..i] && components[..i + 1][i] == component;
      var userScore := if component.axis in scoreMap then scoreMap[component.axis] else 0.0;
      var weight := component.weight;
      var alignment := if component.direction == 0 then 1.0 else userScore * (component.direction as real);
      totalAlignment := totalAlignment + alignment * weight;
      totalWeight := totalWeight + weight;
    }
    assert components[..|components|] == components;
  }

  /** `calculateFlavorMatches`: scores every archetype and sorts the matches
      by non-increasing affinity. */
  method CalculateFlavorMatches(axisScores: seq<Types.AxisScore>, flavors: seq<Archetype>)
    returns (matches: seq<FlavorMatch>)
    ensures matches == FlavorMatches(axisScores, flavors)
    ensures SortedDesc(matches, AffinityOf)
    ensures multiset(matches) == multiset(Matches(flavors, ScoreMap(axisScores)))
  {
    var scoreMap := ScoreMap(axisScores);
    matches := [];
    for k := 0 to |flavors|
      invariant matches == Matches(flavors[..k], scoreMap)
    {
      var flavor := flavors[k];
      assert flavors[..k + 1][..k] == flavors[..k] && flavors[..k + 1][k] == flavor;
      var totalAlignment, totalWeight := SumComponents(flavor.components, scoreMap);
      var affinity := if totalWeight > 0.0 then totalAlignment / totalWeight else 0.0;
      var absAffinity := if affinity < 0.0 then -affinity else affinity;
      var matchStrength;
      if absAffinity >= 0.7 {
        matchStrength := Strong;
      } else if absAffinity >= 0.4 {
        matchStrength := Moderate;
      } else if absAffinity >= 0.2 {
        matchStrength := Weak;
      } else {
        matchStrength := Mismatch;
      }
      matches := matches + [FlavorMatch(flavor.id, flavor.name, flavor.description, flavor.color, affinity, matchStrength)];
    }
    assert flavors[..|flavors|] == flavors;
    matches := SortDesc(matches, AffinityOf);
  }

  // ---------------------------------------------------------------- lemmas

  /** Every score in the map lies in [-1, 1]. */
  ghost predicate MapInRange(scoreMap: map<string, real>)
  {
    forall id | id in scoreMap :: -1.0 <= scoreMap[id] <= 1.0
  }

  lemma AlignmentBounded(c: Component, scoreMap: map<string, real>)
    requires MapInRange(scoreMap) && c.weight > 0.0
    ensures -c.weight <= WeightedAlignment(c, scoreMap) <= c.weight
  {
    var a := Alignment(c, scoreMap);
    var u := UserScore(scoreMap, c.axis);
    assert -1.0 <= u <= 1.0;
    assert a == u || a == -u || a == 1.0;
    MulNonNegative(1.0 - a, c.weight);
    MulNonNegative(1.0 + a, c.weight);
  }

  lemma {:induction false} TotalAlignmentBounded(components: seq<Component>, scoreMap: map<string, real>)
    requires PositiveWeights(components) && MapInRange(scoreMap)
    ensures TotalWeight(components) >= 0.0
    ensures -TotalWeight(components) <= TotalAlignment(components, scoreMap) <= TotalWeight(components)
  {
    if components != [] {
      var n := |components| - 1;
      assert forall x | x in components[..n] :: x in components;
      TotalAlignmentBounded(components[..n], scoreMap);
      assert components[n] in components;
      AlignmentBounded(components[n], scoreMap);
    }
  }

  /** With positive component weights and axis scores in [-1, 1], every
      affinity lies in [-1, 1] even though it is not clamped. */
  lemma AffinityBounded(flavor: Archetype, scoreMap: map<string, real>)
    requires PositiveWeights(flavor.components) && MapInRange(scoreMap)
    ensures -1.0 <= MatchOf(flavor, scoreMap).affinity <= 1.0
  {
    TotalAlignmentBounded(flavor.components, scoreMap);
    var tw := TotalWeight(flavor.components);
    if tw > 0.0 {
      var ta := TotalAlignment(flavor.components, scoreMap);
      DivisionBounded(ta, tw);
    }
  }

  /** A flavor made only of neutral components matches perfectly, whatever
      the scores. */
  lemma {:induction false} AllNeutralIsPerfect(components: seq<Component>, scoreMap: map<string, real>)
    requires forall c | c in components :: c.direction == 0
    ensures TotalAlignment(components, scoreMap) == TotalWeight(components)
  {
    if components != [] {
      var n := |components| - 1;
      assert forall x | x in components[..n] :: x in components;
      AllNeutralIsPerfect(components[..n], scoreMap);
      assert components[n] in components;
    }
  }

  /** A directed component on an axis without a score adds its weight but
      no alignment: it pulls the affinity towards 0. */
  lemma UnscoredAxisDilutes(components: seq<Component>, c: Component, scoreMap: map<string, real>)
    requires c.direction != 0 && c.axis !in scoreMap
    ensures TotalAlignment(components + [c], scoreMap) == TotalAlignment(components, scoreMap)
    ensures TotalWeight(components + [c]) == TotalWeight(components) + c.weight
  {
    assert (components + [c])[..|components|] == components;
  }

  /** The label ignores the sign: an opposed flavor is labelled as strongly
      as an equally aligned one. */
  lemma StrengthIgnoresSign(affinity: real)
    ensures Strength(-affinity) == Strength(affinity)
  {
  }

  // ----------------------------------------------------- core and facets

  predicate StartsWith(s: string, c: char)
  {
    |s| > 0 && s[0] == c
  }

  function CoreAxes(axisScores: seq<Types.AxisScore>): seq<Types.AxisScore>
  {
    Filter(axisScores, (s: Types.AxisScore) => StartsWith(s.axisId, 'C'))
  }

  function FacetAxes(axisScores: seq<Types.AxisScore>): seq<Types.AxisScore>
  {
    Filter(axisScores, (s: Types.AxisScore) => StartsWith(s.axisId, 'F'))
  }

  /** `separateCoreAndFacets`: core axes have ids starting with 'C', facets
      ids starting with 'F'; any other score is in neither list. */
  function SeparateCoreAndFacets(axisScores: seq<Types.AxisScore>): (r: (seq<Types.AxisScore>, seq<Types.AxisScore>))
    ensures forall s | s in r.0 :: s in axisScores && StartsWith(s.axisId, 'C')
    ensures forall s | s in r.1 :: s in axisScores && StartsWith(s.axisId, 'F')
    ensures forall s | s in axisScores && StartsWith(s.axisId, 'C') :: s in r.0
    ensures forall s | s in axisScores && StartsWith(s.axisId, 'F') :: s in r.1
    ensures forall s :: multiset(r.0)[s] == if StartsWith(s.axisId, 'C') then multiset(axisScores)[s] else 0
    ensures forall s :: multiset(r.1)[s] == if StartsWith(s.axisId, 'F') then multiset(axisScores)[s] else 0
  {
    assert forall x :: multiset(CoreAxes(axisScores))[x] ==
                       if StartsWith(x.axisId, 'C') then multiset(axisScores)[x] else 0 by {
      forall x ensures multiset(CoreAxes(axisScores))[x] ==
                       if StartsWith(x.axisId, 'C') then multiset(axisScores)[x] else 0 {
        FilterMultiset(axisScores, (s: Types.AxisScore) => StartsWith(s.axisId, 'C'), x);
      }
    }
    assert forall x :: multiset(FacetAxes(axisScores))[x] ==
                       if StartsWith(x.axisId, 'F') then multiset(axisScores)[x] else 0 by {
      forall x ensures multiset(FacetAxes(axisScores))[x] ==
                       if StartsWith(x.axisId, 'F') then multiset(axisScores)[x] else 0 {
        FilterMultiset(axisScores, (s: Types.AxisScore) => StartsWith(s.axisId, 'F'), x);
      }
    }
    (CoreAxes(axisScores), FacetAxes(axisScores))
  }

  /** When every id starts with 'C' or 'F', the two lists split the scores
      exactly: nothing is lost and nothing is in both. */
  lemma SeparatePartition(axisScores: seq<Types.AxisScore>)
    requires forall s | s in axisScores :: StartsWith(s.axisId, 'C') || StartsWith(s.axisId, 'F')
    ensures var r := SeparateCoreAndFacets(axisScores);
      multiset(r.0) + multiset(r.1) == multiset(axisScores)
  {
    var r := SeparateCoreAndFacets(axisScores);
    forall x: Types.AxisScore ensures multiset(r.0)[x] + multiset(r.1)[x] == multiset(axisScores)[x] {
      if x in axisScores {
        assert StartsWith(x.axisId, 'C') || StartsWith(x.axisId, 'F');
      }
    }
  }
}
