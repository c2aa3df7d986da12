/**
 * The assessment script end to end: fetch the fleet tables, build one effort
 * record per route-fuel tuple, sort by effort score, take the top three, and
 * re-sort all records by operations per aircraft to report the first five.
 */
module Pipeline {
  import opened Slices
  import opened Fleets
  import opened Effort
  import opened Ranking

  /** Number of leaders reported. */
  const LeaderCount: nat := 3

  /** Number of rows in the efficiency list. */
  const EfficiencyCount: nat := 5

  /** Sort key of `nation_effort`. */
  function Score(r: EffortRecord): real {
    r.score
  }

  /** Sort key of the efficiency list; the division is unguarded in the script. */
  function OpsPerAircraft(r: EffortRecord): real
    requires r.totalFleet != 0
  {
    (r.ops as real) / (r.totalFleet as real)
  }

  /** What the script reports: the ranked records, the leaders and the efficiency list. */
  datatype Assessment = Assessment(
    ranked: seq<EffortRecord>,
    leaders: seq<EffortRecord>,
    efficiency: seq<EffortRecord>)

  /**
   * The script's precondition: every nation's total-fleet lookup is nonzero,
   * since the efficiency key divides by it whatever the operation count.
   */
  ghost predicate FleetsNonZero(routes: seq<Operation>, totals: map<string, nat>) {
    forall i | 0 <= i < |routes| :: TotalFleetOf(totals, routes[i].nation) != 0
  }

  /** The records the classification loop builds, in input order. */
  function Built(routes: seq<Operation>, totals: map<string, nat>, combats: map<string, nat>): seq<EffortRecord>
    requires ScorableWith(routes, totals)
  {
    seq(|routes|, i requires 0 <= i < |routes| => EffortOf(routes[i], totals, combats))
  }

  lemma {:induction false} InsertShares(x: EffortRecord, s: seq<EffortRecord>)
    ensures SumShares(Insert(x, s, Score)) == x.opsPct + SumShares(s)
    decreases |s|
  {
    if s != [] && Score(x) < Score(s[0]) {
      var inserted := Insert(x, s[1..], Score);
      InsertShares(x, s[1..]);
      assert ([s[0]] + inserted)[1..] == inserted;
    } else if s != [] {
      assert ([x] + s)[1..] == s;
    }
  }

  /** Sorting by score does not change the total of the shares. */
  lemma {:induction false} SortPreservesShares(s: seq<EffortRecord>)
    ensures SumShares(SortDesc(s, Score)) == SumShares(s)
  {
    if s != [] {
      SortPreservesShares(s[1..]);
      InsertShares(s[0], SortDesc(s[1..], Score));
    }
  }

  lemma RankedFleetsNonZero(routes: seq<Operation>, totals: map<string, nat>, combats: map<string, nat>,
                            ranked: seq<EffortRecord>)
    requires FleetsNonZero(routes, totals)
    requires multiset(ranked) == multiset(Built(routes, totals, combats))
    ensures KeyDefined(ranked, OpsPerAircraft)
  {
    var built := Built(routes, totals, combats);
    forall r | r in ranked ensures r.totalFleet != 0 {
      assert r in multiset(built);
      var i :| 0 <= i < |built| && built[i] == r;
    }
  }

  /** What sorting the built records by score gives. */
  lemma RankedFacts(routes: seq<Operation>, totals: map<string, nat>, combats: map<string, nat>)
    requires FleetsNonZero(routes, totals)
    ensures var built := Built(routes, totals, combats);
      var ranked := SortDesc(built, Score);
      && SortedDesc(ranked, Score)
      && StableReorder(ranked, built, Score)
      && ((forall i | 0 <= i < |routes| :: routes[i].fuel >= 0.0) ==>
            forall i | 0 <= i < |ranked| :: ranked[i].score >= 0.0)
      && (SumOps(routes) == GlobalOps ==> SumShares(ranked) == 100.0)
      && KeyDefined(ranked, OpsPerAircraft)
  {
    var built := Built(routes, totals, combats);
    var ranked := SortDesc(built, Score);
    SortDescSorted(built, Score);
    SortDescStable(built, Score);
    if SumOps(routes) == GlobalOps {
      SharesSum100(routes, built);
      SortPreservesShares(built);
    }
    if forall i | 0 <= i < |routes| :: routes[i].fuel >= 0.0 {
      forall i | 0 <= i < |ranked| ensures ranked[i].score >= 0.0 {
        assert ranked[i] in multiset(built);
      }
    }
    RankedFleetsNonZero(routes, totals, combats, ranked);
  }

  /**
   * The assessment over the fetched tables: `ranked` is the built records
   * sorted stably by non-increasing score, `leaders` its first three, and
   * `efficiency` the first five after all of `ranked` is re-sorted stably by
   * non-increasing operations per aircraft.
   */
  method RunAssessment(routes: seq<Operation>, totals: map<string, nat>, combats: map<string, nat>)
    returns (a: Assessment)
    requires FleetsNonZero(routes, totals)
    ensures multiset(a.ranked) == multiset(Built(routes, totals, combats))
    ensures SortedDesc(a.ranked, Score)
    ensures StableReorder(a.ranked, Built(routes, totals, combats), Score)
    ensures (forall i | 0 <= i < |routes| :: routes[i].fuel >= 0.0) ==>
      forall i | 0 <= i < |a.ranked| :: a.ranked[i].score >= 0.0
    ensures SumOps(routes) == GlobalOps ==> SumShares(a.ranked) == 100.0
    ensures a.leaders == Prefix(a.ranked, LeaderCount)
    ensures forall i, j | 0 <= i < |a.leaders| <= j < |a.ranked| :: a.ranked[i].score >= a.ranked[j].score
    ensures KeyDefined(a.ranked, OpsPerAircraft)
    ensures a.efficiency == Prefix(SortDesc(a.ranked, OpsPerAircraft), EfficiencyCount)
    ensures KeyDefined(a.efficiency, OpsPerAircraft) && SortedDesc(a.efficiency, OpsPerAircraft)
  {
    var effort := ClassifyAll(routes, totals, combats);
    assert effort == Built(routes, totals, combats);
    RankedFacts(routes, totals, combats);

    // The in-place sort by score, highest first, is a reassignment here.
    effort := SortDesc(effort, Score);

    var leaders := Prefix(effort, LeaderCount);
    PrefixDominates(effort, Score, LeaderCount);

    var byEfficiency := SortDesc(effort, OpsPerAircraft);
    SortDescSorted(effort, OpsPerAircraft);
    var efficiency := Prefix(byEfficiency, EfficiencyCount);
    a := Assessment(effort, leaders, efficiency);
  }

  /**
   * With positive counts among the first ten live pairs, or no live data, the
   * script's precondition holds for any routes.
   */
  lemma FleetsNonZeroForLive(live: LiveRanking, routes: seq<Operation>)
    requires live.Parsed? ==> forall j | 0 <= j < |live.matches| && j < LiveEntryLimit :: live.matches[j].1 > 0
    ensures FleetsNonZero(routes, TotalTable(live))
  {
    forall i | 0 <= i < |routes| ensures TotalFleetOf(TotalTable(live), routes[i].nation) != 0 {
      TotalTablePositive(live, routes[i].nation);
    }
  }

  /**
   * The script as a whole: fetch the tables, then assess the built-in
   * route-fuel dataset. It runs to completion exactly when no dataset nation
   * has a zero total-fleet lookup. The ranking is then the reference sort of
   * the built records, the shares add up to exactly 100, and the eight tuples
   * fill both the top three and the five-row efficiency list.
   */
  method Script(live: LiveRanking) returns (a: Assessment)
    requires FleetsNonZero(RouteFuel, TotalTable(live))
    ensures ScorableWith(RouteFuel, TotalTable(live))
      && a.ranked == SortDesc(Built(RouteFuel, TotalTable(live), BuiltInCombat), Score)
    ensures SumShares(a.ranked) == 100.0
    ensures a.leaders == Prefix(a.ranked, LeaderCount) && |a.leaders| == LeaderCount
    ensures KeyDefined(a.ranked, OpsPerAircraft)
      && a.efficiency == Prefix(SortDesc(a.ranked, OpsPerAircraft), EfficiencyCount)
    ensures |a.efficiency| == EfficiencyCount
  {
    var totals, combats := FetchRealtimeFleets(live);
    RouteFuelOpsTotal();
    a := RunAssessment(RouteFuel, totals, combats);
    StableSortIsSortDesc(Built(RouteFuel, totals, combats), a.ranked, Score);
  }
}
