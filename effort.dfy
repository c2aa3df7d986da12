/**
 * Per-nation effort records: the fuel-normalised effort score, the share of
 * global operations, the four commitment tiers, and the loop that builds one
 * record per route-fuel tuple.
 */
module Effort {
  import opened Fleets

  /** One route-fuel tuple: nation code, operation count, fuel in litres. */
  datatype Operation = Operation(nation: string, ops: int, fuel: real)

  /** The script's route-fuel dataset. */
  const RouteFuel: seq<Operation> := [
    Operation("USA", 8112, 473.3), Operation("GBR", 1400, 450.2), Operation("FRA", 1300, 420.1),
    Operation("DEU", 1200, 380.5), Operation("IND", 850, 370.4), Operation("ESP", 1100, 350.3),
    Operation("PAK", 800, 340.2), Operation("ITA", 1000, 320.8)
  ]

  /** The fixed denominator of the operations share. */
  const GlobalOps: int := 15762

  /** Commitment levels, from the highest; labels "HIGH COMMITMENT" … "MINIMAL". */
  datatype Level = HighCommitment | MajorContributor | ModerateSupport | Minimal

  /** Priority labels "STRATEGIC HUB", "REGIONAL POWER", "TACTICAL", "STANDBY". */
  datatype Priority = StrategicHub | RegionalPower | Tactical | Standby

  /** One row of `nation_effort`. */
  datatype EffortRecord = EffortRecord(
    nation: string, ops: int, fuel: real,
    totalFleet: nat, combatFleet: nat,
    opsPct: real, score: real,
    level: Level, priority: Priority)

  /**
   * `fuel / (ops / total_fleet)` when `ops > 0`, else 0. Only `ops > 0` is
   * guarded, so a zero fleet with positive operations is a division by zero.
   */
  function EffortScore(fuel: real, ops: int, totalFleet: int): (score: real)
    requires ops > 0 ==> totalFleet != 0
    ensures ops <= 0 ==> score == 0.0
    ensures ops > 0 ==> score * (ops as real) == fuel * (totalFleet as real)
    ensures fuel >= 0.0 && totalFleet >= 0 ==> score >= 0.0
  {
    if ops > 0 then
      var perAircraft := (ops as real) / (totalFleet as real);
      assert perAircraft * (totalFleet as real) == ops as real;
      fuel / perAircraft
    else 0.0
  }

  /** Closed form of the score: `fuel * total_fleet / ops`. */
  lemma EffortScoreClosedForm(fuel: real, ops: int, totalFleet: int)
    requires ops > 0 && totalFleet != 0
    ensures EffortScore(fuel, ops, totalFleet) == fuel * (totalFleet as real) / (ops as real)
  {
    var score := EffortScore(fuel, ops, totalFleet);
    assert score * (ops as real) == fuel * (totalFleet as real);
  }

  /** `ops / 15762 * 100`. */
  function OpsShare(ops: int): real {
    (ops as real) / (GlobalOps as real) * 100.0
  }

  /** Tier on fuel: thresholds 400, 250 and 100, each strict, first match wins. */
  function Tier(fuel: real): (level: Level)
    ensures level == HighCommitment <==> fuel > 400.0
    ensures level == MajorContributor <==> 250.0 < fuel <= 400.0
    ensures level == ModerateSupport <==> 100.0 < fuel <= 250.0
    ensures level == Minimal <==> fuel <= 100.0
  {
    if fuel > 400.0 then HighCommitment
    else if fuel > 250.0 then MajorContributor
    else if fuel > 100.0 then ModerateSupport
    else Minimal
  }

  /** The priority assigned together with each level. */
  function PriorityOf(level: Level): Priority {
    match level
    case HighCommitment => StrategicHub
    case MajorContributor => RegionalPower
    case ModerateSupport => Tactical
    case Minimal => Standby
  }

  /** Position of a level in the commitment order, 0 for `Minimal`. */
  function Rank(level: Level): nat {
    match level
    case Minimal => 0
    case ModerateSupport => 1
    case MajorContributor => 2
    case HighCommitment => 3
  }

  /** More fuel never gives a lower tier. */
  lemma TierMonotone(fuel1: real, fuel2: real)
    requires fuel1 <= fuel2
    ensures Rank(Tier(fuel1)) <= Rank(Tier(fuel2))
  {
  }

  /** The boundary cases: exactly 400 is not HIGH, exactly 100 is MINIMAL. */
  lemma TierBoundaries()
    ensures Tier(400.0) == MajorContributor && Tier(400.01) == HighCommitment
    ensures Tier(250.0) == ModerateSupport && Tier(250.01) == MajorContributor
    ensures Tier(100.0) == Minimal && Tier(100.01) == ModerateSupport
  {
  }

  /** Precondition of the classification loop: no positive-ops nation has a zero fleet. */
  ghost predicate ScorableWith(routes: seq<Operation>, totals: map<string, nat>) {
    forall i | 0 <= i < |routes| :: routes[i].ops > 0 ==> TotalFleetOf(totals, routes[i].nation) != 0
  }

  /** The record built for one tuple: copies, fleet lookups, score, share and tier. */
  function EffortOf(op: Operation, totals: map<string, nat>, combats: map<string, nat>): (r: EffortRecord)
    requires op.ops > 0 ==> TotalFleetOf(totals, op.nation) != 0
    ensures r.nation == op.nation && r.ops == op.ops && r.fuel == op.fuel
    ensures r.totalFleet == TotalFleetOf(totals, op.nation)
    ensures r.combatFleet == CombatFleetOf(combats, op.nation)
    ensures r.opsPct == OpsShare(op.ops)
    ensures op.ops <= 0 ==> r.score == 0.0
    ensures op.ops > 0 ==> r.score * (op.ops as real) == op.fuel * (r.totalFleet as real)
    ensures op.fuel >= 0.0 ==> r.score >= 0.0
    ensures r.level == Tier(op.fuel) && r.priority == PriorityOf(r.level)
  {
    var total := TotalFleetOf(totals, op.nation);
    var level := Tier(op.fuel);
    EffortRecord(op.nation, op.ops, op.fuel, total, CombatFleetOf(combats, op.nation),
                 OpsShare(op.ops), EffortScore(op.fuel, op.ops, total), level, PriorityOf(level))
  }

  /** The classification loop: one record per tuple, appended in input order. */
  method ClassifyAll(routes: seq<Operation>, totals: map<string, nat>, combats: map<string, nat>)
    returns (effort: seq<EffortRecord>)
    requires ScorableWith(routes, totals)
    ensures |effort| == |routes|
    ensures forall i | 0 <= i < |routes| :: effort[i] == EffortOf(routes[i], totals, combats)
  {
    effort := [];
    for i := 0 to |routes|
      invariant |effort| == i
      invariant forall j | 0 <= j < i :: effort[j] == EffortOf(routes[j], totals, combats)
    {
      effort := effort + [EffortOf(routes[i], totals, combats)];
    }
  }

  function SumOps(routes: seq<Operation>): int {
    if routes == [] then 0 else routes[0].ops + SumOps(routes[1..])
  }

  function SumShares(effort: seq<EffortRecord>): real {
    if effort == [] then 0.0 else effort[0].opsPct + SumShares(effort[1..])
  }

  /** The hardcoded denominator is the total of the dataset's operations. */
  lemma RouteFuelOpsTotal()
    ensures SumOps(RouteFuel) == GlobalOps
  {
    assert RouteFuel[1..][1..][1..][1..][1..][1..][1..][1..] == [];
  }

  /** The shares of records built from `routes` add up to `SumOps(routes) / 15762 * 100`. */
  lemma {:induction false} SharesSum(routes: seq<Operation>, effort: seq<EffortRecord>)
    requires |effort| == |routes|
    requires forall i | 0 <= i < |routes| :: effort[i].opsPct == OpsShare(routes[i].ops)
    ensures SumShares(effort) == (SumOps(routes) as real) / (GlobalOps as real) * 100.0
  {
    if routes != [] {
      SharesSum(routes[1..], effort[1..]);
    }
  }

  /** When the operations add up to 15762 the shares add up to exactly 100. */
  lemma SharesSum100(routes: seq<Operation>, effort: seq<EffortRecord>)
    requires |effort| == |routes| && SumOps(routes) == GlobalOps
    requires forall i | 0 <= i < |routes| :: effort[i].opsPct == OpsShare(routes[i].ops)
    ensures SumShares(effort) == 100.0
  {
    SharesSum(routes, effort);
  }

  /** The USA tuple with the built-in tables: fleet 13209, score 473.3 * 13209 / 8112, HIGH COMMITMENT. */
  lemma UsaRecord()
    ensures var r := EffortOf(Operation("USA", 8112, 473.3), BuiltInTotal, BuiltInCombat);
      && r.totalFleet == 13209 && r.combatFleet == 2803
      && r.score == 473.3 * 13209.0 / 8112.0
      && r.level == HighCommitment && r.priority == StrategicHub
  {
    EffortScoreClosedForm(473.3, 8112, 13209);
  }

  /**
   * A code in neither table gets fleets 100 and 50; with 500 ops and fuel 200
   * the score is 40 and the tier MODERATE SUPPORT (200 > 100).
   */
  lemma MissingNationRecord()
    ensures var r := EffortOf(Operation("XYZ", 500, 200.0), BuiltInTotal, BuiltInCombat);
      && r.totalFleet == 100 && r.combatFleet == 50
      && r.score == 40.0
      && r.level == ModerateSupport && r.priority == Tactical
  {
    EffortScoreClosedForm(200.0, 500, 100);
  }
}
