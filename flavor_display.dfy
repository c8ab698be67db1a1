/** The flavor chart helpers: which flavor matches a results page shows,
    and the rows the flavor charts are drawn from. A `char` here is a
    Unicode scalar value; names are taken to lie in the Basic Multilingual
    Plane, where each character is the one UTF-16 code unit that `length`
    and `substring` count. */
module FlavorDisplay {
  import opened Seqs
  import opened Survey

  /** One bar of a flavor chart. */
  datatype ChartRow = ChartRow(
    name: string,
    fullName: string,
    affinity: int,
    color: string,
    description: string,
    matchStrength: string)

  predicate IsPositive(f: FlavorMatch)
  {
    f.affinity > 0.0
  }

  /** `getDisplayFlavors`: every positive match when `showAll` is set,
      otherwise the first five matches whatever their sign. */
  function DisplayFlavors(flavors: seq<FlavorMatch>, showAll: bool): (r: seq<FlavorMatch>)
    ensures showAll ==> (forall f | f in r :: f in flavors && f.affinity > 0.0)
    ensures showAll ==> (forall f | f in flavors && f.affinity > 0.0 :: f in r)
    ensures showAll ==> (forall f :: multiset(r)[f] == if f.affinity > 0.0 then multiset(flavors)[f] else 0)
    ensures !showAll ==> |r| == (if |flavors| < 5 then |flavors| else 5) && r == flavors[..|r|]
  {
    if showAll then
      assert forall f :: multiset(Filter(flavors, IsPositive))[f] == if IsPositive(f) then multiset(flavors)[f] else 0 by {
        forall f ensures multiset(Filter(flavors, IsPositive))[f] == if IsPositive(f) then multiset(flavors)[f] else 0 {
          FilterMultiset(flavors, IsPositive, f);
        }
      }
      Filter(flavors, IsPositive)
    else Take(flavors, 5)
  }

  /** The characters `String.prototype.trimEnd` removes: white space and
      line terminators. */
  predicate IsTrimmable(c: char)
  {
    c == '\t' || c == '\U{B}' || c == '\U{C}' || c == ' ' || c == '\U{A0}' || c == '\U{FEFF}' ||
    c == '\n' || c == '\r' || c == '\U{2028}' || c == '\U{2029}' ||
    c == '\U{1680}' || ('\U{2000}' <= c <= '\U{200A}') || c == '\U{202F}' || c == '\U{205F}' ||
    c == '\U{3000}'
  }

  /** `trimEnd`: the longest prefix that does not end in white space. */
  function TrimEnd(s: string): (r: string)
    ensures |r| <= |s| && r == s[..|r|]
    ensures r == [] || !IsTrimmable(r[|r| - 1])
    ensures forall i | |r| <= i < |s| :: IsTrimmable(s[i])
  {
    if s == [] || !IsTrimmable(s[|s| - 1]) then s
    else
      var r := TrimEnd(s[..|s| - 1]);
      assert s[..|s| - 1][..|r|] == s[..|r|];
      r
  }

  /** Trimming twice is trimming once. */
  lemma TrimEndIdempotent(s: string)
    ensures TrimEnd(TrimEnd(s)) == TrimEnd(s)
  {
  }

  /** The chart label: names longer than 20 are cut to 18, trimmed and
      marked with an ellipsis. The kept part is the first 18 characters
      without their trailing white space: it does not end in white space,
      and every character cut from the first 18 is white space. */
  function ChartName(name: string): (r: string)
    ensures |name| <= 20 ==> r == name
    ensures |name| > 20 ==> 3 <= |r| <= 21 && r[|r| - 3..] == "..." && r[..|r| - 3] == name[..|r| - 3]
    ensures |name| > 20 ==> |r| == 3 || !IsTrimmable(name[|r| - 4])
    ensures |name| > 20 ==> forall i | |r| - 3 <= i < 18 :: IsTrimmable(name[i])
  {
    if |name| > 20 then
      var kept := TrimEnd(name[..18]);
      assert forall i | |kept| <= i < 18 :: name[..18][i] == name[i];
      var r := kept + "...";
      assert r[..|r| - 3] == kept && r[|r| - 3..] == "...";
      r
    else name
  }

  /** `Math.round`: the nearest integer, halves rounded up. */
  function Round(x: real): (n: int)
    ensures x - 0.5 < n as real <= x + 0.5
  {
    (x + 0.5).Floor
  }

  /** Rounding to the nearest integer is unique: any integer within half a
      unit below and half a unit above is the result. */
  lemma RoundUnique(x: real, n: int)
    requires x - 0.5 < n as real <= x + 0.5
    ensures Round(x) == n
  {
  }

  function ChartRowOf(f: FlavorMatch): ChartRow
  {
    ChartRow(ChartName(f.name), f.name, Round(f.affinity * 100.0), f.color, f.description, f.matchStrength)
  }

  function ChartRows(flavors: seq<FlavorMatch>): (r: seq<ChartRow>)
    ensures |r| == |flavors|
    ensures forall i | 0 <= i < |flavors| :: r[i] == ChartRowOf(flavors[i])
  {
    if flavors == [] then []
    else ChartRows(flavors[..|flavors| - 1]) + [ChartRowOf(flavors[|flavors| - 1])]
  }

  /** `buildFlavorChartData`: one row per displayed flavor, in order, each
      keeping the full name, colour, description and strength label and the
      affinity as a rounded percentage. */
  function BuildFlavorChartData(flavors: seq<FlavorMatch>, showAll: bool := false): (r: seq<ChartRow>)
    ensures |r| == |DisplayFlavors(flavors, showAll)|
    ensures forall i | 0 <= i < |r| ::
      var f := DisplayFlavors(flavors, showAll)[i];
      r[i].name == ChartName(f.name) && r[i].fullName == f.name && r[i].color == f.color && r[i].description == f.description &&
      r[i].matchStrength == f.matchStrength &&
      f.affinity * 100.0 - 0.5 < r[i].affinity as real <= f.affinity * 100.0 + 0.5
  {
    ChartRows(DisplayFlavors(flavors, showAll))
  }

  /** Shown with `showAll`, every bar is at least 0: a positive affinity
      never rounds below 0 percent. */
  lemma ShowAllBarsNonNegative(flavors: seq<FlavorMatch>)
    ensures forall row | row in BuildFlavorChartData(flavors, true) :: row.affinity >= 0
  {
    var rows := BuildFlavorChartData(flavors, true);
    var shown := DisplayFlavors(flavors, true);
    forall row | row in rows ensures row.affinity >= 0 {
      var i :| 0 <= i < |rows| && rows[i] == row;
      assert shown[i] in shown;
    }
  }

  // --------------------------------------------------------------- examples

  const MockFlavors: seq<FlavorMatch> := [
    FlavorMatch("deep_ecologist", "Deep Ecologist", 0.72, "Very Strong", "Existing archetype", "#1B5E20"),
    FlavorMatch("eco_sovereigntist", "Eco-Sovereigntist Steward", 0.55, "Strong", "New national-control eco type", "#2E7D32"),
    FlavorMatch("communitarian_conservationist", "Communitarian Conservationist", 0.42, "Moderate", "New local eco type", "#33691E"),
    FlavorMatch("anthropocentric_developer", "Anthropocentric Developer", -0.1, "Minimal", "Existing archetype", "#FF9800")
  ]

  function Ids(flavors: seq<FlavorMatch>): seq<string>
  {
    seq(|flavors|, i requires 0 <= i < |flavors| => flavors[i].flavorId)
  }

  /** Without `showAll` the four sample matches are all shown. */
  lemma DisplayFlavorsExample()
    ensures Ids(DisplayFlavors(MockFlavors, false)) ==
      ["deep_ecologist", "eco_sovereigntist", "communitarian_conservationist", "anthropocentric_developer"]
  {
  }

  /** With `showAll` the negative sample match is dropped. */
  lemma DisplayFlavorsShowAllExample()
    ensures Ids(DisplayFlavors(MockFlavors, true)) ==
      ["deep_ecologist", "eco_sovereigntist", "communitarian_conservationist"]
  {
    PositiveMockFlavors();
  }

  /** With `showAll`, the sample keeps its first three matches. */
  lemma PositiveMockFlavors()
    ensures Filter(MockFlavors, IsPositive) == MockFlavors[..3]
  {
    assert MockFlavors[..|MockFlavors| - 1] == MockFlavors[..3];
    FilterAll(MockFlavors[..3], IsPositive);
  }

  /** The 25-character sample name is cut after its first word, and 0.55 is
      shown as 55. */
  lemma ChartDataExample()
    ensures |BuildFlavorChartData(MockFlavors, true)| == 3
    ensures BuildFlavorChartData(MockFlavors, true)[1] ==
      ChartRow("Eco-Sovereigntist...", "Eco-Sovereigntist Steward", 55, "#2E7D32",
               "New national-control eco type", "Strong")
  {
    PositiveMockFlavors();
    var rows := ChartRows(MockFlavors[..3]);
    assert rows[1] == ChartRowOf(MockFlavors[1]);
    SampleNameCut();
    RoundUnique(0.55 * 100.0, 55);
  }

  lemma SampleNameCut()
    ensures ChartName("Eco-Sovereigntist Steward") == "Eco-Sovereigntist..."
  {
    var cut := "Eco-Sovereigntist Steward"[..18];
    assert cut == "Eco-Sovereigntist ";
    assert IsTrimmable(cut[17]) && cut[..17] == "Eco-Sovereigntist";
    assert !IsTrimmable(cut[..17][16]);
  }
}
