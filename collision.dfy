/** The collision analyzer: pairwise "value collision" statistics between
    the primary axis and the collision axis of multi-link questions. */
module CollisionAnalyzer {
  import opened Types
  import opened Seqs

  /** The `{ id, name }` axis entries the analyzer receives. */
  datatype AxisRef = AxisRef(id: string, name: string)

  /** The per-pair accumulator of `analyzeCollisions`: the questions that touched the
      pair and, position by position, their contributions and raw weights. */
  datatype PairData = PairData(
    primary: string,
    collision: string,
    questions: seq<QuestionWithLinks>,
    primaryContribs: seq<real>,
    collisionContribs: seq<real>,
    primaryWeights: seq<real>,
    collisionWeights: seq<real>)

  /** One (primary link, collision link) combination of one answered
      question, in the order the nested loops visit them. */
  datatype Entry = Entry(
    question: QuestionWithLinks,
    response: real,
    primary: QuestionAxisLink,
    collision: QuestionAxisLink)

  datatype QuestionCollisionDetail = QuestionCollisionDetail(
    question: QuestionWithLinks,
    response: real,
    primaryContribution: real,
    collisionContribution: real,
    favoredAxis: PreferenceDirection)

  // ---------------------------------------------------------------------
  // Entries: which combinations the nested loops visit
  // ---------------------------------------------------------------------

  /** The map key of a pair: the two axis ids joined by a bar. */
  function PairKey(primary: string, collision: string): string
  {
    primary + "|" + collision
  }

  function EntryKey(e: Entry): string
  {
    PairKey(e.primary.axisId, e.collision.axisId)
  }

  /** The contribution of one link to one answer, with the link's raw
      (not normalised) weight. */
  function Contribution(response: real, link: QuestionAxisLink): real
  {
    response * link.axisKey * link.weight
  }

  predicate IsMultiLink(q: QuestionWithLinks)
  {
    |q.links| > 1
  }

  function LinksWithRole(links: seq<QuestionAxisLink>, role: Role): (r: seq<QuestionAxisLink>)
    ensures forall l | l in r :: l in links && l.role == role
    ensures forall l | l in links && l.role == role :: l in r
  {
    Filter(links, (l: QuestionAxisLink) => l.role == role)
  }

  /** The inner loop: one primary link against each collision link. */
  function Row(q: QuestionWithLinks, response: real, p: QuestionAxisLink, cs: seq<QuestionAxisLink>): seq<Entry>
  {
    if cs == [] then []
    else Row(q, response, p, cs[..|cs| - 1]) + [Entry(q, response, p, cs[|cs| - 1])]
  }

  /** Extending the collision links by one extends the row by one entry. */
  lemma RowSnoc(q: QuestionWithLinks, response: real, p: QuestionAxisLink, cs: seq<QuestionAxisLink>, b: nat)
    requires b < |cs|
    ensures Row(q, response, p, cs[..b + 1]) == Row(q, response, p, cs[..b]) + [Entry(q, response, p, cs[b])]
  {
    assert cs[..b + 1][..b] == cs[..b];
  }

  /** The two inner loops: every primary link against every collision link. */
  function Cross(q: QuestionWithLinks, response: real, ps: seq<QuestionAxisLink>, cs: seq<QuestionAxisLink>): seq<Entry>
  {
    if ps == [] then []
    else Cross(q, response, ps[..|ps| - 1], cs) + Row(q, response, ps[|ps| - 1], cs)
  }

  /** Extending the primary links by one appends that link's row. */
  lemma CrossSnoc(q: QuestionWithLinks, response: real, ps: seq<QuestionAxisLink>, cs: seq<QuestionAxisLink>, a: nat)
    requires a < |ps|
    ensures Cross(q, response, ps[..a + 1], cs) == Cross(q, response, ps[..a], cs) + Row(q, response, ps[a], cs)
  {
    assert ps[..a + 1][..a] == ps[..a];
  }

  function QuestionEntries(responses: Responses, q: QuestionWithLinks): seq<Entry>
  {
    if q.question.id in responses then
      Cross(q, responses[q.question.id], LinksWithRole(q.links, Primary), LinksWithRole(q.links, Collision))
    else []
  }

  /** The outer loop over (already filtered) questions. */
  function Entries(responses: Responses, qs: seq<QuestionWithLinks>): seq<Entry>
  {
    if qs == [] then []
    else Entries(responses, qs[..|qs| - 1]) + QuestionEntries(responses, qs[|qs| - 1])
  }

  /** Every combination visited by `analyzeCollisions`. */
  function AllEntries(responses: Responses, questions: seq<QuestionWithLinks>): seq<Entry>
  {
    Entries(responses, Filter(questions, IsMultiLink))
  }

  // ---------------------------------------------------------------------
  // Grouping by pair key
  // ---------------------------------------------------------------------

  /** The entries filed under key `k`, in visiting order. */
  function Matching(entries: seq<Entry>, k: string): (m: seq<Entry>)
    ensures forall e | e in m :: e in entries && EntryKey(e) == k
    ensures forall e | e in entries && EntryKey(e) == k :: e in m
  {
    if entries == [] then []
    else
      var n := |entries| - 1;
      assert entries == entries[..n] + [entries[n]];
      Matching(entries[..n], k) + (if EntryKey(entries[n]) == k then [entries[n]] else [])
  }

  /** The pair keys in order of first appearance (the Map's insertion order). */
  function DistinctKeys(entries: seq<Entry>): seq<string>
  {
    if entries == [] then []
    else
      var init := DistinctKeys(entries[..|entries| - 1]);
      var k := EntryKey(entries[|entries| - 1]);
      if k in init then init else init + [k]
  }

  /** What the accumulator for key `k` holds after all of `entries`: the
      axis ids of the entry that created it, and one position per entry
      filed under `k`. */
  function Group(entries: seq<Entry>, k: string): PairData
  {
    GroupOf(Matching(entries, k))
  }

  /** The accumulator built from the entries `m` filed under one key. */
  function GroupOf(m: seq<Entry>): PairData
  {
    PairData(
      if m == [] then "" else m[0].primary.axisId,
      if m == [] then "" else m[0].collision.axisId,
      seq(|m|, i requires 0 <= i < |m| => m[i].question),
      seq(|m|, i requires 0 <= i < |m| => Contribution(m[i].response, m[i].primary)),
      seq(|m|, i requires 0 <= i < |m| => Contribution(m[i].response, m[i].collision)),
      seq(|m|, i requires 0 <= i < |m| => m[i].primary.weight),
      seq(|m|, i requires 0 <= i < |m| => m[i].collision.weight))
  }

  function NewPair(primary: string, collision: string): PairData
  {
    PairData(primary, collision, [], [], [], [], [])
  }

  /** The five pushes the loop body performs for one entry. */
  function Push(pair: PairData, e: Entry): PairData
  {
    pair.(
      questions := pair.questions + [e.question],
      primaryContribs := pair.primaryContribs + [Contribution(e.response, e.primary)],
      collisionContribs := pair.collisionContribs + [Contribution(e.response, e.collision)],
      primaryWeights := pair.primaryWeights + [e.primary.weight],
      collisionWeights := pair.collisionWeights + [e.collision.weight])
  }

  /** The accumulators after the entries in `done` have been visited one at
      a time: created on first sight of a key, then pushed. */
  ghost function GroupMap(done: seq<Entry>): map<string, PairData>
  {
    if done == [] then map[]
    else
      var m, e := GroupMap(done[..|done| - 1]), done[|done| - 1];
      var k := EntryKey(e);
      m[k := Push(if k in m then m[k] else NewPair(e.primary.axisId, e.collision.axisId), e)]
  }

  /** The accumulator state (`pairMap` and its insertion order) after the
      entries in `done` have been visited. */
  ghost predicate Accumulated(keys: seq<string>, pairMap: map<string, PairData>, done: seq<Entry>)
  {
    keys == DistinctKeys(done) && pairMap == GroupMap(done)
  }

  lemma {:induction false} DistinctKeysMatching(entries: seq<Entry>, k: string)
    ensures k in DistinctKeys(entries) <==> Matching(entries, k) != []
  {
    if entries != [] {
      var n := |entries| - 1;
      DistinctKeysMatching(entries[..n], k);
    }
  }

  lemma {:induction false} DistinctKeysUnique(entries: seq<Entry>)
    ensures forall i, j :: 0 <= i < j < |DistinctKeys(entries)| ==> DistinctKeys(entries)[i] != DistinctKeys(entries)[j]
  {
    if entries != [] {
      DistinctKeysUnique(entries[..|entries| - 1]);
    }
  }

  /** One more entry under a key is one more push onto its accumulator. */
  lemma GroupOfSnoc(m: seq<Entry>, e: Entry)
    ensures GroupOf(m + [e]) ==
      Push(if m == [] then NewPair(e.primary.axisId, e.collision.axisId) else GroupOf(m), e)
  {
    var g, g', p := GroupOf(m), GroupOf(m + [e]), Push(if m == [] then NewPair(e.primary.axisId, e.collision.axisId) else GroupOf(m), e);
    assert g'.primary == p.primary && g'.collision == p.collision;
    assert g'.questions == p.questions;
    assert g'.primaryContribs == p.primaryContribs;
    assert g'.collisionContribs == p.collisionContribs;
    assert g'.primaryWeights == p.primaryWeights;
    assert g'.collisionWeights == p.collisionWeights;
  }

  lemma GroupPush(done: seq<Entry>, e: Entry, k: string)
    requires EntryKey(e) == k
    ensures Matching(done + [e], k) == Matching(done, k) + [e]
    ensures Group(done + [e], k) ==
      Push(if Matching(done, k) == [] then NewPair(e.primary.axisId, e.collision.axisId) else Group(done, k), e)
  {
    assert (done + [e])[..|done|] == done;
    GroupOfSnoc(Matching(done, k), e);
  }

  lemma GroupOther(done: seq<Entry>, e: Entry, k: string)
    requires EntryKey(e) != k
    ensures Group(done + [e], k) == Group(done, k)
  {
    assert (done + [e])[..|done|] == done;
    assert Matching(done + [e], k) == Matching(done, k);
  }

  /** The key list after one more entry grows by the entry's key on first
      sight of it. */
  lemma KeysStep(done: seq<Entry>, e: Entry)
    ensures var keys := DistinctKeys(done);
      DistinctKeys(done + [e]) == if EntryKey(e) in keys then keys else keys + [EntryKey(e)]
  {
    assert (done + [e])[..|done|] == done;
  }

  /** Visiting one more entry: create the accumulator on first sight of the
      key, then push the entry's values. */
  lemma AccumulateStep(keys: seq<string>, pairMap: map<string, PairData>, done: seq<Entry>, e: Entry)
    requires Accumulated(keys, pairMap, done)
    ensures var k := EntryKey(e);
      Accumulated(
        if k in pairMap then keys else keys + [k],
        pairMap[k := Push(if k in pairMap then pairMap[k] else NewPair(e.primary.axisId, e.collision.axisId), e)],
        done + [e])
  {
    KeysStep(done, e);
    GroupMapIsGroup(done);
    assert (done + [e])[..|done|] == done;
  }

  /** The accumulators built one entry at a time hold, for each key seen,
      exactly the entries filed under that key, in visiting order. */
  lemma {:induction false} GroupMapIsGroup(done: seq<Entry>)
    ensures forall k :: k in GroupMap(done) <==> k in DistinctKeys(done)
    ensures forall k | k in GroupMap(done) :: GroupMap(done)[k] == Group(done, k)
  {
    if done != [] {
      var init, e := done[..|done| - 1], done[|done| - 1];
      var k := EntryKey(e);
      GroupMapIsGroup(init);
      assert done == init + [e];
      KeysStep(init, e);
      DistinctKeysMatching(init, k);
      GroupPush(init, e, k);
      forall k' | k' != k && k' in GroupMap(init) ensures Group(done, k') == Group(init, k') {
        GroupOther(init, e, k');
      }
    }
  }

  // ---------------------------------------------------------------------
  // Per-pair statistics and classification
  // ---------------------------------------------------------------------

  /** `weightSum > 0 ? sum / (2 * weightSum) : 0`. */
  function PairScore(sum: real, weightSum: real): (r: real)
    ensures weightSum <= 0.0 ==> r == 0.0
    ensures weightSum > 0.0 && -2.0 * weightSum <= sum <= 2.0 * weightSum ==> -1.0 <= r <= 1.0
  {
    if weightSum > 0.0 then
      var d := 2.0 * weightSum;
      assert -d <= sum <= d ==> -1.0 <= sum / d <= 1.0 by {
        if -d <= sum <= d {
          DivisionBounded(sum, d);
        }
      }
      sum / d
    else 0.0
  }

  function Direction(index: real): (d: PreferenceDirection)
    ensures d == Balanced <==> Abs(index) < 0.15
    ensures d == TowardCollision <==> Abs(index) >= 0.15 && index > 0.0
    ensures d == TowardPrimary <==> index <= -0.15
  {
    if Abs(index) < 0.15 then Balanced
    else if index > 0.0 then TowardCollision
    else TowardPrimary
  }

  function Strength(index: real): (s: PreferenceStrength)
    ensures s == Weak <==> Abs(index) < 0.15
    ensures s == Moderate <==> 0.15 <= Abs(index) < 0.35
    ensures s == Strong <==> 0.35 <= Abs(index) < 0.60
    ensures s == VeryStrong <==> 0.60 <= Abs(index)
  {
    var a := Abs(index);
    if a < 0.15 then Weak
    else if a < 0.35 then Moderate
    else if a < 0.60 then Strong
    else VeryStrong
  }

  function Confidence(count: nat): (c: ConfidenceLevel)
    ensures c == Low <==> count < 3
    ensures c == Medium <==> 3 <= count < 5
    ensures c == High <==> 5 <= count
  {
    if count < 3 then Low
    else if count < 5 then Medium
    else High
  }

  function ConfidenceBonus(c: ConfidenceLevel): real
  {
    match c
    case High => 20.0
    case Medium => 10.0
    case Low => 0.0
  }

  function Interestingness(absPreference: real, count: nat, confidence: ConfidenceLevel, direction: PreferenceDirection): real
  {
    absPreference * 40.0 + (count as real) * 5.0 + ConfidenceBonus(confidence)
      + (if direction == Balanced then -10.0 else 0.0)
  }

  /** The ranking score a pair with this index and question count gets. */
  function Rank(index: real, count: nat): real
  {
    Interestingness(Abs(index), count, Confidence(count), Direction(index))
  }

  /** `axes.find(a => a.id === id)`. */
  function FindAxis(axes: seq<AxisRef>, id: string): (r: Option<AxisRef>)
    ensures r.None? <==> forall a | a in axes :: a.id != id
    ensures r.Some? ==> exists i :: 0 <= i < |axes| && axes[i] == r.value && axes[i].id == id
                          && forall j :: 0 <= j < i ==> axes[j].id != id
  {
    if axes == [] then None
    else if axes[0].id == id then Some(axes[0])
    else
      var r := FindAxis(axes[1..], id);
      assert forall a | a in axes[1..] :: a in axes;
      if r.Some? then
        var i :| 0 <= i < |axes[1..]| && axes[1..][i] == r.value && axes[1..][i].id == id
                 && forall j :: 0 <= j < i ==> axes[1..][j].id != id;
        assert axes[i + 1] == r.value;
        r
      else r
  }

  /** `axes.find(a => a.id === id)?.name || id`: an empty or missing name
      falls back to the raw id. */
  function DisplayName(axes: seq<AxisRef>, id: string): (name: string)
    ensures (forall a | a in axes :: a.id != id) ==> name == id
    ensures forall i | 0 <= i < |axes| && axes[i].id == id && (forall j | 0 <= j < i :: axes[j].id != id) ::
              name == if axes[i].name != "" then axes[i].name else id
  {
    var found := FindAxis(axes, id);
    if found.Some? && found.value.name != "" then found.value.name else id
  }

  function ScorePair(pair: PairData, axes: seq<AxisRef>): CollisionScore
  {
    var scorePrimary := PairScore(Sum(pair.primaryContribs), Sum(pair.primaryWeights));
    var scoreCollision := PairScore(Sum(pair.collisionContribs), Sum(pair.collisionWeights));
    var index := (scoreCollision - scorePrimary) / 2.0;
    var count := |pair.questions|;
    var direction := Direction(index);
    var confidence := Confidence(count);
    CollisionScore(
      pair.primary, pair.collision,
      DisplayName(axes, pair.primary), DisplayName(axes, pair.collision),
      scorePrimary, scoreCollision, index,
      Strength(index), direction, count, confidence,
      Interestingness(Abs(index), count, confidence, direction))
  }

  /** The scores loop over the pair map, skipping pairs with fewer than two
      questions. */
  function Emit(keys: seq<string>, entries: seq<Entry>, axes: seq<AxisRef>): seq<CollisionScore>
  {
    if keys == [] then []
    else
      var pair := Group(entries, keys[|keys| - 1]);
      Emit(keys[..|keys| - 1], entries, axes)
        + (if |pair.questions| < 2 then [] else [ScorePair(pair, axes)])
  }

  function InterestingnessOf(s: CollisionScore): real
  {
    s.interestingness
  }

  /** What `analyzeCollisions` returns. */
  function AnalysisOf(responses: Responses, questions: seq<QuestionWithLinks>, axes: seq<AxisRef>): seq<CollisionScore>
  {
    var entries := AllEntries(responses, questions);
    SortDesc(Emit(DistinctKeys(entries), entries, axes), InterestingnessOf)
  }

  // ---------------------------------------------------------------------
  // analyzeCollisions
  // ---------------------------------------------------------------------

  /** The body of the innermost loop: file one (primary link, collision
      link) combination under its pair key. */
  method AddCombination(keys: seq<string>, pairMap: map<string, PairData>, ghost done: seq<Entry>,
                        q: QuestionWithLinks, response: real, p: QuestionAxisLink, c: QuestionAxisLink)
    returns (keys': seq<string>, pairMap': map<string, PairData>)
    requires Accumulated(keys, pairMap, done)
    ensures Accumulated(keys', pairMap', done + [Entry(q, response, p, c)])
  {
    ghost var e := Entry(q, response, p, c);
    keys', pairMap' := keys, pairMap;
    var key := PairKey(p.axisId, c.axisId);
    if key !in pairMap' {
      pairMap' := pairMap'[key := NewPair(p.axisId, c.axisId)];
      keys' := keys' + [key];
    }
    var pair := pairMap'[key];
    ghost var pushed := Push(pair, e);
    // Raw weights, not normalised ones
    var primaryContrib := Contribution(response, p);
    var collisionContrib := Contribution(response, c);
    pair := pair.(
      questions := pair.questions + [q],
      primaryContribs := pair.primaryContribs + [primaryContrib],
      collisionContribs := pair.collisionContribs + [collisionContrib],
      primaryWeights := pair.primaryWeights + [p.weight],
      collisionWeights := pair.collisionWeights + [c.weight]);
    assert pair == pushed;
    pairMap' := pairMap'[key := pair];
    assert key == EntryKey(e);
    assert pairMap' == pairMap[key := Push(if key in pairMap then pairMap[key] else NewPair(p.axisId, c.axisId), e)];
    assert keys' == if key in pairMap then keys else keys + [key];
    AccumulateStep(keys, pairMap, done, e);
  }

  /** The innermost loop for one primary link: the link against every
      collision link. */
  method AccumulateRow(keys: seq<string>, pairMap: map<string, PairData>, ghost done: seq<Entry>,
                       q: QuestionWithLinks, response: real,
                       p: QuestionAxisLink, collisionLinks: seq<QuestionAxisLink>)
    returns (keys': seq<string>, pairMap': map<string, PairData>)
    requires Accumulated(keys, pairMap, done)
    ensures Accumulated(keys', pairMap', done + Row(q, response, p, collisionLinks))
  {
    keys', pairMap' := keys, pairMap;
    ghost var acc := done;
    for b := 0 to |collisionLinks|
      invariant acc == done + Row(q, response, p, collisionLinks[..b])
      invariant Accumulated(keys', pairMap', acc)
    {
      keys', pairMap' := AddCombination(keys', pairMap', acc, q, response, p, collisionLinks[b]);
      RowSnoc(q, response, p, collisionLinks, b);
      acc := acc + [Entry(q, response, p, collisionLinks[b])];
    }
    assert collisionLinks[..|collisionLinks|] == collisionLinks;
  }

  /** The two inner loops for one answered question: every primary link
      against every collision link. */
  method AccumulateQuestion(keys: seq<string>, pairMap: map<string, PairData>, ghost done: seq<Entry>,
                            q: QuestionWithLinks, response: real,
                            primaryLinks: seq<QuestionAxisLink>, collisionLinks: seq<QuestionAxisLink>)
    returns (keys': seq<string>, pairMap': map<string, PairData>)
    requires Accumulated(keys, pairMap, done)
    ensures Accumulated(keys', pairMap', done + Cross(q, response, primaryLinks, collisionLinks))
  {
    keys', pairMap' := keys, pairMap;
    ghost var acc := done;
    for a := 0 to |primaryLinks|
      invariant acc == done + Cross(q, response, primaryLinks[..a], collisionLinks)
      invariant Accumulated(keys', pairMap', acc)
    {
      keys', pairMap' := AccumulateRow(keys', pairMap', acc, q, response, primaryLinks[a], collisionLinks);
      CrossSnoc(q, response, primaryLinks, collisionLinks, a);
      acc := acc + Row(q, response, primaryLinks[a], collisionLinks);
    }
    assert primaryLinks[..|primaryLinks|] == primaryLinks;
  }

  /** The nested loops of `analyzeCollisions` that fill `pairMap`; `keys`
      is the map's insertion order. */
  method AccumulatePairs(responses: Responses, collisionQuestions: seq<QuestionWithLinks>)
    returns (keys: seq<string>, pairMap: map<string, PairData>)
    ensures Accumulated(keys, pairMap, Entries(responses, collisionQuestions))
  {
    keys, pairMap := [], map[];
    ghost var done: seq<Entry> := [];

    for i := 0 to |collisionQuestions|
      invariant done == Entries(responses, collisionQuestions[..i])
      invariant Accumulated(keys, pairMap, done)
    {
      var q := collisionQuestions[i];
      ghost var qs := collisionQuestions[..i + 1];
      assert qs[..|qs| - 1] == collisionQuestions[..i] && qs[|qs| - 1] == q;
      if q.question.id !in responses {
        continue;
      }
      var response := responses[q.question.id];
      var primaryLinks := LinksWithRole(q.links, Primary);
      var collisionLinks := LinksWithRole(q.links, Collision);
      keys, pairMap := AccumulateQuestion(keys, pairMap, done, q, response, primaryLinks, collisionLinks);
      done := done + Cross(q, response, primaryLinks, collisionLinks);
    }
    assert collisionQuestions[..|collisionQuestions|] == collisionQuestions;
  }

  lemma EmitSnoc(keys: seq<string>, entries: seq<Entry>, axes: seq<AxisRef>, i: nat)
    requires i < |keys|
    ensures var pair := Group(entries, keys[i]);
      Emit(keys[..i + 1], entries, axes) ==
        Emit(keys[..i], entries, axes) + (if |pair.questions| < 2 then [] else [ScorePair(pair, axes)])
  {
    assert keys[..i + 1][..i] == keys[..i];
  }

  lemma AccumulatedLookup(keys: seq<string>, pairMap: map<string, PairData>, entries: seq<Entry>, k: string)
    requires Accumulated(keys, pairMap, entries) && k in keys
    ensures k in pairMap && pairMap[k] == Group(entries, k)
  {
    GroupMapIsGroup(entries);
  }

  /** The loop of `analyzeCollisions` that scores, in insertion order,
      every pair filed under at least two questions. */
  method EmitPairs(keys: seq<string>, pairMap: map<string, PairData>, ghost entries: seq<Entry>, axes: seq<AxisRef>)
    returns (scores: seq<CollisionScore>)
    requires Accumulated(keys, pairMap, entries)
    ensures scores == Emit(keys, entries, axes)
  {
    scores := [];
    for i := 0 to |keys|
      invariant scores == Emit(keys[..i], entries, axes)
    {
      EmitSnoc(keys, entries, axes, i);
      AccumulatedLookup(keys, pairMap, entries, keys[i]);
      var pair := pairMap[keys[i]];
      if |pair.questions| < 2 {
        continue;
      }
      scores := scores + [ScorePair(pair, axes)];
    }
    assert keys[..|keys|] == keys;
  }

  method AnalyzeCollisions(responses: Responses, questions: seq<QuestionWithLinks>, axes: seq<AxisRef>)
    returns (scores: seq<CollisionScore>)
    ensures scores == AnalysisOf(responses, questions, axes)
    ensures SortedDesc(scores, InterestingnessOf)
    ensures forall s | s in scores :: s.questionCount >= 2
  {
    var collisionQuestions := Filter(questions, IsMultiLink);
    var keys, pairMap := AccumulatePairs(responses, collisionQuestions);
    ghost var entries := AllEntries(responses, questions);
    scores := EmitPairs(keys, pairMap, entries, axes);
    scores := SortDesc(scores, InterestingnessOf);
    EmittedHaveTwoQuestions(keys, entries, axes);
  }

  // ---------------------------------------------------------------------
  // Properties of analyzeCollisions
  // ---------------------------------------------------------------------

  /** No emitted pair rests on fewer than two questions. */
  lemma {:induction false} EmittedHaveTwoQuestions(keys: seq<string>, entries: seq<Entry>, axes: seq<AxisRef>)
    ensures forall s | s in Emit(keys, entries, axes) :: s.questionCount >= 2
    ensures forall s | s in SortDesc(Emit(keys, entries, axes), InterestingnessOf) :: s.questionCount >= 2
  {
    var out := Emit(keys, entries, axes);
    if keys != [] {
      EmittedHaveTwoQuestions(keys[..|keys| - 1], entries, axes);
    }
    forall s | s in SortDesc(out, InterestingnessOf) ensures s.questionCount >= 2 {
      assert s in multiset(SortDesc(out, InterestingnessOf));
      assert s in multiset(out);
    }
  }

  /** An emitted score is exactly the statistics of one key that has at
      least two entries, and every such key is emitted. */
  lemma {:induction false} EmitCharacterization(keys: seq<string>, entries: seq<Entry>, axes: seq<AxisRef>)
    ensures forall s | s in Emit(keys, entries, axes) ::
      exists k | k in keys :: |Matching(entries, k)| >= 2 && s == ScorePair(Group(entries, k), axes)
    ensures forall k | k in keys && |Matching(entries, k)| >= 2 ::
      ScorePair(Group(entries, k), axes) in Emit(keys, entries, axes)
  {
    if keys != [] {
      var n := |keys| - 1;
      var init, k := keys[..n], keys[n];
      EmitCharacterization(init, entries, axes);
      assert keys == init + [k];
      assert forall k' | k' in init :: k' in keys;
      assert forall k' | k' in keys :: k' in init || k' == k;
    }
  }

  /** Each visited combination belongs to an answered question with more
      than one link, pairs one of its primary links with one of its
      collision links and carries the question's answer; conversely every
      such combination is visited. */
  lemma {:induction false} EntriesCharacterization(responses: Responses, qs: seq<QuestionWithLinks>, e: Entry)
    ensures e in Entries(responses, qs) <==>
      && e.question in qs
      && e.question.question.id in responses
      && e.response == responses[e.question.question.id]
      && e.primary in e.question.links && e.primary.role == Primary
      && e.collision in e.question.links && e.collision.role == Collision
  {
    if qs != [] {
      var n := |qs| - 1;
      EntriesCharacterization(responses, qs[..n], e);
      assert qs == qs[..n] + [qs[n]];
      var q := qs[n];
      if q.question.id in responses {
        CrossCharacterization(q, responses[q.question.id], LinksWithRole(q.links, Primary), LinksWithRole(q.links, Collision), e);
      }
    }
  }

  lemma {:induction false} CrossCharacterization(q: QuestionWithLinks, response: real, ps: seq<QuestionAxisLink>, cs: seq<QuestionAxisLink>, e: Entry)
    ensures e in Cross(q, response, ps, cs) <==>
      e.question == q && e.response == response && e.primary in ps && e.collision in cs
  {
    if ps != [] {
      var n := |ps| - 1;
      CrossCharacterization(q, response, ps[..n], cs, e);
      RowCharacterization(q, response, ps[n], cs, e);
      assert ps == ps[..n] + [ps[n]];
    }
  }

  lemma {:induction false} RowCharacterization(q: QuestionWithLinks, response: real, p: QuestionAxisLink, cs: seq<QuestionAxisLink>, e: Entry)
    ensures e in Row(q, response, p, cs) <==>
      e.question == q && e.response == response && e.primary == p && e.collision in cs
  {
    if cs != [] {
      var n := |cs| - 1;
      RowCharacterization(q, response, p, cs[..n], e);
      assert cs == cs[..n] + [cs[n]];
    }
  }

  /** Each primary link meets each collision link exactly once. */
  lemma {:induction false} CrossCount(q: QuestionWithLinks, response: real, ps: seq<QuestionAxisLink>, cs: seq<QuestionAxisLink>)
    ensures |Cross(q, response, ps, cs)| == |ps| * |cs|
  {
    if ps != [] {
      var n := |ps| - 1;
      CrossCount(q, response, ps[..n], cs);
      RowCount(q, response, ps[n], cs);
      assert |ps| * |cs| == n * |cs| + |cs|;
    }
  }

  lemma {:induction false} RowCount(q: QuestionWithLinks, response: real, p: QuestionAxisLink, cs: seq<QuestionAxisLink>)
    ensures |Row(q, response, p, cs)| == |cs|
  {
    if cs != [] {
      RowCount(q, response, p, cs[..|cs| - 1]);
    }
  }

  /** Only answered questions with more than one link contribute, and an
      answered one contributes its primary-by-collision combinations. */
  lemma QuestionContributes(responses: Responses, questions: seq<QuestionWithLinks>, e: Entry)
    ensures e in AllEntries(responses, questions) <==>
      && e.question in questions
      && |e.question.links| > 1
      && e.question.question.id in responses
      && e.response == responses[e.question.question.id]
      && e.primary in e.question.links && e.primary.role == Primary
      && e.collision in e.question.links && e.collision.role == Collision
  {
    EntriesCharacterization(responses, Filter(questions, IsMultiLink), e);
  }

  /** Every link weight of every question is positive. */
  ghost predicate LinkWeightsPositive(questions: seq<QuestionWithLinks>)
  {
    forall q, l | q in questions && l in q.links :: l.weight > 0.0
  }

  ghost predicate EntryInRange(e: Entry)
  {
    -2.0 <= e.response <= 2.0 && e.primary.weight > 0.0 && e.collision.weight > 0.0
  }

  lemma ContributionBounded(response: real, link: QuestionAxisLink)
    requires -2.0 <= response <= 2.0 && link.weight > 0.0
    ensures -2.0 * link.weight <= Contribution(response, link) <= 2.0 * link.weight
  {
    var w := link.weight;
    MulNonNegative(response + 2.0, w);
    MulNonNegative(2.0 - response, w);
    if link.axisKey == 1.0 {
      assert Contribution(response, link) == response * w;
    } else {
      assert Contribution(response, link) == -(response * w);
    }
  }

  /** Position by position, the contributions of a pair are bounded by
      twice its positive raw weights. */
  ghost predicate PairInRange(pair: PairData)
  {
    && |pair.questions| > 0
    && |pair.primaryContribs| == |pair.primaryWeights| == |pair.questions|
    && |pair.collisionContribs| == |pair.collisionWeights| == |pair.questions|
    && (forall i | 0 <= i < |pair.questions| ::
         && pair.primaryWeights[i] > 0.0
         && -2.0 * pair.primaryWeights[i] <= pair.primaryContribs[i] <= 2.0 * pair.primaryWeights[i])
    && (forall i | 0 <= i < |pair.questions| ::
         && pair.collisionWeights[i] > 0.0
         && -2.0 * pair.collisionWeights[i] <= pair.collisionContribs[i] <= 2.0 * pair.collisionWeights[i])
  }

  lemma GroupInRange(entries: seq<Entry>, k: string)
    requires forall e | e in entries :: EntryInRange(e)
    requires Matching(entries, k) != []
    ensures PairInRange(Group(entries, k))
  {
    var m := Matching(entries, k);
    var g := Group(entries, k);
    forall i | 0 <= i < |m|
      ensures -2.0 * g.primaryWeights[i] <= g.primaryContribs[i] <= 2.0 * g.primaryWeights[i]
      ensures -2.0 * g.collisionWeights[i] <= g.collisionContribs[i] <= 2.0 * g.collisionWeights[i]
    {
      assert m[i] in m;
      ContributionBounded(m[i].response, m[i].primary);
      ContributionBounded(m[i].response, m[i].collision);
    }
    forall i | 0 <= i < |m| ensures g.primaryWeights[i] > 0.0 && g.collisionWeights[i] > 0.0 {
      assert m[i] in m;
    }
  }

  /** The statistics of an in-range pair stay in [-1, 1]. */
  lemma ScorePairBounded(pair: PairData, axes: seq<AxisRef>)
    requires PairInRange(pair)
    ensures var s := ScorePair(pair, axes);
      && -1.0 <= s.scorePrimary <= 1.0
      && -1.0 <= s.scoreCollision <= 1.0
      && -1.0 <= s.preferenceIndex <= 1.0
  {
    SumWithinTwiceWeights(pair.primaryContribs, pair.primaryWeights);
    SumWithinTwiceWeights(pair.collisionContribs, pair.collisionWeights);
    SumPositive(pair.primaryWeights);
    SumPositive(pair.collisionWeights);
  }

  /** With answers on the Likert scale and positive link weights, both pair
      scores and the preference index of every reported pair lie in [-1, 1]. */
  lemma AnalysisBounded(responses: Responses, questions: seq<QuestionWithLinks>, axes: seq<AxisRef>)
    requires ResponsesInRange(responses)
    requires LinkWeightsPositive(questions)
    ensures forall s | s in AnalysisOf(responses, questions, axes) ::
      && -1.0 <= s.scorePrimary <= 1.0
      && -1.0 <= s.scoreCollision <= 1.0
      && -1.0 <= s.preferenceIndex <= 1.0
  {
    var entries := AllEntries(responses, questions);
    var keys := DistinctKeys(entries);
    var out := Emit(keys, entries, axes);
    forall e | e in entries ensures EntryInRange(e) {
      QuestionContributes(responses, questions, e);
    }
    EmitCharacterization(keys, entries, axes);
    forall s | s in AnalysisOf(responses, questions, axes)
      ensures -1.0 <= s.scorePrimary <= 1.0
      ensures -1.0 <= s.scoreCollision <= 1.0
      ensures -1.0 <= s.preferenceIndex <= 1.0
    {
      assert s in multiset(SortDesc(out, InterestingnessOf));
      assert s in out;
      var k :| k in keys && |Matching(entries, k)| >= 2 && s == ScorePair(Group(entries, k), axes);
      GroupInRange(entries, k);
      ScorePairBounded(Group(entries, k), axes);
    }
  }

  /** The index is the halved difference of the two pair scores, so a pair
      with equal scores is balanced, and the categorical fields agree:
      balanced exactly when the strength is weak. */
  lemma ScoreClassification(pair: PairData, axes: seq<AxisRef>)
    ensures var s := ScorePair(pair, axes);
      && s.preferenceIndex == (s.scoreCollision - s.scorePrimary) / 2.0
      && (s.preferenceDirection == Balanced <==> s.preferenceStrength == Weak)
      && (s.preferenceDirection == Balanced <==> Abs(s.preferenceIndex) < 0.15)
      && (s.scorePrimary == s.scoreCollision ==> s.preferenceDirection == Balanced)
      && (s.preferenceDirection == TowardCollision <==> s.preferenceIndex >= 0.15)
      && s.questionCount == |pair.questions|
      && s.confidenceLevel == Confidence(s.questionCount)
      && s.interestingness == Rank(s.preferenceIndex, s.questionCount)
  {
  }

  /** For a fixed number of questions, a larger |index| never ranks lower. */
  lemma RankMonotoneInIndex(i1: real, i2: real, count: nat)
    requires Abs(i1) <= Abs(i2)
    ensures Rank(i1, count) <= Rank(i2, count)
  {
  }

  /** For a fixed index, more questions always rank strictly higher. */
  lemma RankMonotoneInCount(index: real, c1: nat, c2: nat)
    requires c1 < c2
    ensures Rank(index, c1) < Rank(index, c2)
  {
  }

  /** With the same number of questions, a balanced pair ranks strictly
      below one that leans either way. */
  lemma BalancedRanksLower(balanced: real, leaning: real, count: nat)
    requires Direction(balanced) == Balanced && Direction(leaning) != Balanced
    ensures Rank(balanced, count) < Rank(leaning, count)
  {
  }

  /** With |index| <= 1 the ranking score lies in [5n - 10, 5n + 60]. */
  lemma RankBounds(index: real, count: nat)
    requires Abs(index) <= 1.0
    ensures 5.0 * (count as real) - 10.0 <= Rank(index, count) <= 5.0 * (count as real) + 60.0
  {
  }

  lemma BarPosition(p: string, c: string)
    requires '|' !in p
    ensures |PairKey(p, c)| == |p| + 1 + |c|
    ensures forall i | 0 <= i < |p| :: PairKey(p, c)[i] != '|'
    ensures PairKey(p, c)[|p|] == '|'
    ensures PairKey(p, c)[..|p|] == p && PairKey(p, c)[|p| + 1..] == c
  {
    var k := PairKey(p, c);
    forall i | 0 <= i < |p| ensures k[i] != '|' {
      assert k[i] == p[i];
    }
  }

  /** Keys of ids free of bars identify the ordered pair. */
  lemma PairKeyInjective(p1: string, c1: string, p2: string, c2: string)
    requires '|' !in p1 && '|' !in p2
    requires PairKey(p1, c1) == PairKey(p2, c2)
    ensures p1 == p2 && c1 == c2
  {
    BarPosition(p1, c1);
    BarPosition(p2, c2);
    assert |p1| == |p2|;
  }

  /** The direction matters: (A, B) and (B, A) are different keys. */
  lemma PairKeyOrdered(a: string, b: string)
    requires '|' !in a && '|' !in b && a != b
    ensures PairKey(a, b) != PairKey(b, a)
  {
    if PairKey(a, b) == PairKey(b, a) {
      PairKeyInjective(a, b, b, a);
    }
  }

  /** With bar-free primary ids, every entry filed under a key pairs the
      same two axes as the accumulator records. */
  lemma GroupAxesAgree(entries: seq<Entry>, k: string)
    requires forall e | e in entries :: '|' !in e.primary.axisId
    ensures var g := Group(entries, k);
      forall e | e in Matching(entries, k) :: e.primary.axisId == g.primary && e.collision.axisId == g.collision
  {
    var m := Matching(entries, k);
    forall e | e in m ensures e.primary.axisId == m[0].primary.axisId && e.collision.axisId == m[0].collision.axisId {
      assert m[0] in m;
      PairKeyInjective(e.primary.axisId, e.collision.axisId, m[0].primary.axisId, m[0].collision.axisId);
    }
  }

  // ---------------------------------------------------------------------
  // findCollisionQuestions and getCollisionQuestionDetails
  // ---------------------------------------------------------------------

  predicate HasLink(q: QuestionWithLinks, role: Role, axis: string)
  {
    exists l | l in q.links :: l.role == role && l.axisId == axis
  }

  predicate IsCollisionQuestion(primaryAxis: string, collisionAxis: string, q: QuestionWithLinks)
  {
    |q.links| >= 2 && HasLink(q, Primary, primaryAxis) && HasLink(q, Collision, collisionAxis)
  }

  /** The input questions, in input order, that have two or more links, a
      primary link on `primaryAxis` and a collision link on `collisionAxis`;
      each kept question occurs as often as in the input. */
  function FindCollisionQuestions(primaryAxis: string, collisionAxis: string, questions: seq<QuestionWithLinks>)
    : (r: seq<QuestionWithLinks>)
    ensures forall q | q in r :: (
      && q in questions && |q.links| >= 2
      && (exists l | l in q.links :: l.role == Primary && l.axisId == primaryAxis)
      && (exists l | l in q.links :: l.role == Collision && l.axisId == collisionAxis))
    ensures forall q | q in questions && IsCollisionQuestion(primaryAxis, collisionAxis, q) :: q in r
    ensures forall q :: multiset(r)[q] ==
                          if IsCollisionQuestion(primaryAxis, collisionAxis, q) then multiset(questions)[q] else 0
  {
    var p := (q: QuestionWithLinks) => IsCollisionQuestion(primaryAxis, collisionAxis, q);
    assert forall q :: multiset(Filter(questions, p))[q] == if p(q) then multiset(questions)[q] else 0 by {
      forall q ensures multiset(Filter(questions, p))[q] == if p(q) then multiset(questions)[q] else 0 {
        FilterMultiset(questions, p, q);
      }
    }
    Filter(questions, p)
  }

  /** `links.find(l => l.role === role && l.axis_id === axis)`: the first
      link with that role and axis. */
  function FindLink(links: seq<QuestionAxisLink>, role: Role, axis: string): (r: Option<QuestionAxisLink>)
    ensures r.None? <==> forall l | l in links :: !(l.role == role && l.axisId == axis)
    ensures r.Some? ==> exists i :: 0 <= i < |links| && links[i] == r.value && r.value.role == role && r.value.axisId == axis
                          && forall j :: 0 <= j < i ==> !(links[j].role == role && links[j].axisId == axis)
  {
    if links == [] then None
    else if links[0].role == role && links[0].axisId == axis then Some(links[0])
    else
      var r := FindLink(links[1..], role, axis);
      assert forall l | l in links[1..] :: l in links;
      if r.Some? then
        var i :| 0 <= i < |links[1..]| && links[1..][i] == r.value && r.value.role == role && r.value.axisId == axis
                 && forall j :: 0 <= j < i ==> !(links[1..][j].role == role && links[1..][j].axisId == axis);
        assert links[i + 1] == r.value;
        r
      else r
  }

  /** Which axis one question favoured: balanced when the two contributions
      differ by less than 0.3, otherwise the larger one. */
  function Favored(primaryContrib: real, collisionContrib: real): (f: PreferenceDirection)
    ensures f == Balanced <==> Abs(primaryContrib - collisionContrib) < 0.3
    ensures f == TowardPrimary <==> primaryContrib - collisionContrib >= 0.3
    ensures f == TowardCollision <==> collisionContrib - primaryContrib >= 0.3
  {
    if Abs(primaryContrib - collisionContrib) < 0.3 then Balanced
    else if primaryContrib > collisionContrib then TowardPrimary
    else TowardCollision
  }

  /** The `map` callback: `null` for an unanswered question or a missing link. */
  function DetailOf(primaryAxis: string, collisionAxis: string, responses: Responses, q: QuestionWithLinks)
    : Option<QuestionCollisionDetail>
  {
    if q.question.id !in responses then None
    else
      var response := responses[q.question.id];
      var primaryLink := FindLink(q.links, Primary, primaryAxis);
      var collisionLink := FindLink(q.links, Collision, collisionAxis);
      if primaryLink.None? || collisionLink.None? then None
      else
        var pc := Contribution(response, primaryLink.value);
        var cc := Contribution(response, collisionLink.value);
        Some(QuestionCollisionDetail(q, response, pc, cc, Favored(pc, cc)))
  }

  /** The `map` followed by the `filter` of non-null details. */
  function Details(primaryAxis: string, collisionAxis: string, responses: Responses, qs: seq<QuestionWithLinks>)
    : seq<QuestionCollisionDetail>
  {
    if qs == [] then []
    else
      var d := DetailOf(primaryAxis, collisionAxis, responses, qs[|qs| - 1]);
      Details(primaryAxis, collisionAxis, responses, qs[..|qs| - 1]) + (if d.Some? then [d.value] else [])
  }

  function Decisiveness(d: QuestionCollisionDetail): real
  {
    Abs(d.primaryContribution - d.collisionContribution)
  }

  /** A detail's two contributions are those of the first primary and the
      first collision link of its question on the pair's axes. */
  ghost predicate ContributionsOfFirstLinks(primaryAxis: string, collisionAxis: string, d: QuestionCollisionDetail)
  {
    && FindLink(d.question.links, Primary, primaryAxis).Some?
    && FindLink(d.question.links, Collision, collisionAxis).Some?
    && d.primaryContribution == Contribution(d.response, FindLink(d.question.links, Primary, primaryAxis).value)
    && d.collisionContribution == Contribution(d.response, FindLink(d.question.links, Collision, collisionAxis).value)
  }

  /** The details of the answered questions of the pair, one per answered
      question (with its multiplicity in the input), sorted by how far
      apart the two contributions are. */
  function GetCollisionQuestionDetails(primaryAxis: string, collisionAxis: string, responses: Responses, questions: seq<QuestionWithLinks>)
    : (r: seq<QuestionCollisionDetail>)
    ensures SortedDesc(r, Decisiveness)
    ensures forall d | d in r ::
      && d.question in questions
      && IsCollisionQuestion(primaryAxis, collisionAxis, d.question)
      && d.question.question.id in responses
      && d.response == responses[d.question.question.id]
      && ContributionsOfFirstLinks(primaryAxis, collisionAxis, d)
      && d.favoredAxis == Favored(d.primaryContribution, d.collisionContribution)
    ensures forall q :: multiset(QuestionsOf(r))[q] ==
                          if IsCollisionQuestion(primaryAxis, collisionAxis, q) && IsAnswered(responses, q) then multiset(questions)[q] else 0
  {
    var found := FindCollisionQuestions(primaryAxis, collisionAxis, questions);
    var details := Details(primaryAxis, collisionAxis, responses, found);
    DetailsSound(primaryAxis, collisionAxis, responses, found);
    DetailsMultiset(primaryAxis, collisionAxis, responses, found);
    var r := SortDesc(details, Decisiveness);
    assert forall d | d in r :: d in details by {
      forall d | d in r ensures d in details {
        assert d in multiset(r);
      }
    }
    QuestionsOfPermutation(r, details);
    r
  }

  lemma {:induction false} DetailsSound(primaryAxis: string, collisionAxis: string, responses: Responses, qs: seq<QuestionWithLinks>)
    ensures forall d | d in Details(primaryAxis, collisionAxis, responses, qs) ::
      && d.question in qs
      && d.question.question.id in responses
      && d.response == responses[d.question.question.id]
      && ContributionsOfFirstLinks(primaryAxis, collisionAxis, d)
      && d.favoredAxis == Favored(d.primaryContribution, d.collisionContribution)
  {
    if qs != [] {
      var n := |qs| - 1;
      DetailsSound(primaryAxis, collisionAxis, responses, qs[..n]);
      assert qs == qs[..n] + [qs[n]];
    }
  }

  function QuestionsOf(ds: seq<QuestionCollisionDetail>): seq<QuestionWithLinks>
  {
    if ds == [] then [] else QuestionsOf(ds[..|ds| - 1]) + [ds[|ds| - 1].question]
  }

  predicate IsAnswered(responses: Responses, q: QuestionWithLinks)
  {
    q.question.id in responses
  }

  /** Among questions of the pair, the details keep exactly the answered
      ones, in input order. */
  lemma {:induction false} DetailsKeepAnswered(primaryAxis: string, collisionAxis: string, responses: Responses, qs: seq<QuestionWithLinks>)
    requires forall q | q in qs :: IsCollisionQuestion(primaryAxis, collisionAxis, q)
    ensures QuestionsOf(Details(primaryAxis, collisionAxis, responses, qs))
      == Filter(qs, (q: QuestionWithLinks) => IsAnswered(responses, q))
  {
    if qs != [] {
      var n := |qs| - 1;
      DetailsKeepAnswered(primaryAxis, collisionAxis, responses, qs[..n]);
      var q := qs[n];
      assert q in qs;
      var rest := Details(primaryAxis, collisionAxis, responses, qs[..n]);
      var d := DetailOf(primaryAxis, collisionAxis, responses, q);
      if q.question.id in responses {
        assert d.Some?;
        assert (rest + [d.value])[..|rest|] == rest;
      } else {
        assert d.None?;
        assert rest + [] == rest;
      }
    }
  }

  lemma {:induction false} QuestionsOfAppend(u: seq<QuestionCollisionDetail>, v: seq<QuestionCollisionDetail>)
    ensures QuestionsOf(u + v) == QuestionsOf(u) + QuestionsOf(v)
  {
    if v == [] {
      assert u + v == u;
    } else {
      var n := |v| - 1;
      assert (u + v)[..|u + v| - 1] == u + v[..n];
      assert (u + v)[|u + v| - 1] == v[n];
      QuestionsOfAppend(u, v[..n]);
    }
  }

  /** Removing the detail at `i` removes its question from the questions. */
  lemma QuestionsOfRemove(b: seq<QuestionCollisionDetail>, i: nat)
    requires i < |b|
    ensures multiset(b) == multiset(b[..i] + b[i + 1..]) + multiset{b[i]}
    ensures multiset(QuestionsOf(b)) == multiset(QuestionsOf(b[..i] + b[i + 1..])) + multiset{b[i].question}
  {
    var x := b[i];
    SplitAt(b, i);
    QuestionsOfAppend(b[..i], b[i + 1..]);
    QuestionsOfAppend(b[..i] + [x], b[i + 1..]);
    QuestionsOfAppend(b[..i], [x]);
    assert QuestionsOf([x]) == [x.question];
  }

  /** Reordering the details reorders their questions alike. */
  lemma {:induction false} QuestionsOfPermutation(a: seq<QuestionCollisionDetail>, b: seq<QuestionCollisionDetail>)
    requires multiset(a) == multiset(b)
    ensures multiset(QuestionsOf(a)) == multiset(QuestionsOf(b))
  {
    if a != [] {
      var n := |a| - 1;
      var x := a[n];
      assert a == a[..n] + [x];
      assert x in multiset(b);
      var i :| 0 <= i < |b| && b[i] == x;
      var rest := b[..i] + b[i + 1..];
      QuestionsOfRemove(b, i);
      assert multiset(a[..n]) == multiset(a) - multiset{x};
      assert multiset(rest) == multiset(b) - multiset{x};
      QuestionsOfPermutation(a[..n], rest);
    }
  }

  /** Among questions of the pair, each answered one gets as many details
      as it occurs, and an unanswered one none. */
  lemma {:induction false} DetailsMultiset(primaryAxis: string, collisionAxis: string, responses: Responses, qs: seq<QuestionWithLinks>)
    requires forall q | q in qs :: IsCollisionQuestion(primaryAxis, collisionAxis, q)
    ensures forall q :: multiset(QuestionsOf(Details(primaryAxis, collisionAxis, responses, qs)))[q] ==
                          if IsCollisionQuestion(primaryAxis, collisionAxis, q) && IsAnswered(responses, q) then multiset(qs)[q] else 0
  {
    if qs == [] {
    } else {
      var n := |qs| - 1;
      DetailsMultiset(primaryAxis, collisionAxis, responses, qs[..n]);
      var q := qs[n];
      assert qs == qs[..n] + [q];
      assert q in qs;
      var rest := Details(primaryAxis, collisionAxis, responses, qs[..n]);
      var d := DetailOf(primaryAxis, collisionAxis, responses, q);
      if q.question.id in responses {
        assert d.Some? && d.value.question == q;
        assert (rest + [d.value])[..|rest|] == rest;
      } else {
        assert d.None?;
        assert rest + [] == rest;
      }
    }
  }
}
