/**
 * Fleet-size tables: the built-in total-aircraft and combat-aircraft counts,
 * lookup with the script's defaults, and the overlay of the (code, count)
 * pairs read from the live ranking page.
 */
module Fleets {
  import opened Slices

  /** A (country code, aircraft count) pair as extracted from the live page. */
  type Pair = (string, nat)

  /**
   * Outcome of the live fetch: `Unavailable` when the request raised, timed
   * out or answered with a status other than 200; otherwise the parsed pairs
   * in page order.
   */
  datatype LiveRanking = Unavailable | Parsed(matches: seq<Pair>)

  /** Built-in total aircraft per country (15 entries). */
  const BuiltInTotal: map<string, nat> := map[
    "USA" := 13209, "RUS" := 4255, "CHN" := 3304, "IND" := 2296, "KOR" := 1576,
    "JPN" := 1459, "PAK" := 1434, "EGY" := 1080, "TUR" := 1069, "FRA" := 972,
    "PRK" := 951, "SAU" := 914, "ITA" := 800, "TWN" := 750, "GBR" := 664
  ]

  /** Built-in combat-ready aircraft per country (10 entries). */
  const BuiltInCombat: map<string, nat> := map[
    "USA" := 2803, "RUS" := 1538, "CHN" := 1334, "IND" := 686, "PRK" := 572,
    "KOR" := 467, "PAK" := 450, "EGY" := 427, "FRA" := 265, "JPN" := 261
  ]

  /** Counts used for a country missing from a table. */
  const MissingTotal: nat := 100
  const MissingCombat: nat := 50

  /** At most this many leading live pairs are applied. */
  const LiveEntryLimit: nat := 10

  function TotalFleetOf(totals: map<string, nat>, code: string): nat {
    if code in totals then totals[code] else MissingTotal
  }

  function CombatFleetOf(combats: map<string, nat>, code: string): nat {
    if code in combats then combats[code] else MissingCombat
  }

  /** The built-in tables as written: DEU and ESP have no total; GBR, ITA, DEU and ESP no combat count. */
  lemma BuiltInTables()
    ensures BuiltInCombat.Keys <= BuiltInTotal.Keys
    ensures "DEU" !in BuiltInTotal && "ESP" !in BuiltInTotal
    ensures "GBR" !in BuiltInCombat && "ITA" !in BuiltInCombat
  {
  }

  /** Lookups in the built-in tables: listed codes give their entry, the others the defaults. */
  lemma BuiltInLookups()
    ensures TotalFleetOf(BuiltInTotal, "USA") == 13209 && TotalFleetOf(BuiltInTotal, "GBR") == 664
    ensures TotalFleetOf(BuiltInTotal, "DEU") == 100 && TotalFleetOf(BuiltInTotal, "ESP") == 100
    ensures CombatFleetOf(BuiltInCombat, "RUS") == 1538
    ensures CombatFleetOf(BuiltInCombat, "GBR") == 50 && CombatFleetOf(BuiltInCombat, "ITA") == 50
    ensures CombatFleetOf(BuiltInCombat, "DEU") == 50 && CombatFleetOf(BuiltInCombat, "ESP") == 50
  {
  }

  /** Every lookup in the built-in total table is positive, listed or not. */
  lemma BuiltInTotalsPositive(code: string)
    ensures TotalFleetOf(BuiltInTotal, code) > 0
  {
  }

  /** ASCII upper-casing of one character. */
  function UpperChar(c: char): char {
    if 'a' <= c <= 'z' then (c as int - 32) as char else c
  }

  /** Python's `str.upper` restricted to ASCII letters. */
  function Upper(s: string): (u: string)
    ensures |u| == |s|
  {
    seq(|s|, i requires 0 <= i < |s| => UpperChar(s[i]))
  }

  /** The codes that `pairs` writes into a table. */
  function WrittenCodes(pairs: seq<Pair>): set<string> {
    set i | 0 <= i < |pairs| :: Upper(pairs[i].0)
  }

  /**
   * The table `m` after `m[code.upper()] = count` for each pair of `pairs`
   * in order; a later pair for the same upper-cased code overwrites an
   * earlier one.
   */
  function Overlay(m: map<string, nat>, pairs: seq<Pair>): map<string, nat>
    decreases |pairs|
  {
    if pairs == [] then m
    else
      var last := pairs[|pairs| - 1];
      Overlay(m, pairs[..|pairs| - 1])[Upper(last.0) := last.1]
  }

  /** The overlay keeps every key of `m` and adds exactly the written codes. */
  lemma {:induction false} OverlayKeys(m: map<string, nat>, pairs: seq<Pair>)
    ensures Overlay(m, pairs).Keys == m.Keys + WrittenCodes(pairs)
    decreases |pairs|
  {
    if pairs != [] {
      var init := pairs[..|pairs| - 1];
      OverlayKeys(m, init);
      assert WrittenCodes(pairs) == WrittenCodes(init) + {Upper(pairs[|pairs| - 1].0)} by {
        forall c | c in WrittenCodes(pairs) ensures c in WrittenCodes(init) + {Upper(pairs[|pairs| - 1].0)} {
          var i :| 0 <= i < |pairs| && c == Upper(pairs[i].0);
          if i < |pairs| - 1 {
            assert init[i] == pairs[i];
          }
        }
        forall c | c in WrittenCodes(init) ensures c in WrittenCodes(pairs) {
          var i :| 0 <= i < |init| && c == Upper(init[i].0);
          assert pairs[i] == init[i];
        }
      }
    }
  }

  /** The last pair written for a code decides that code's count. */
  lemma {:induction false} OverlayLastWins(m: map<string, nat>, pairs: seq<Pair>, i: nat)
    requires i < |pairs|
    requires forall j | i < j < |pairs| :: Upper(pairs[j].0) != Upper(pairs[i].0)
    ensures Upper(pairs[i].0) in Overlay(m, pairs)
    ensures Overlay(m, pairs)[Upper(pairs[i].0)] == pairs[i].1
    decreases |pairs|
  {
    if i < |pairs| - 1 {
      var init := pairs[..|pairs| - 1];
      assert init[i] == pairs[i];
      forall j | i < j < |init| ensures Upper(init[j].0) != Upper(init[i].0) {
        assert init[j] == pairs[j];
      }
      OverlayLastWins(m, init, i);
    }
  }

  /** A code no pair writes keeps its presence and its count from `m`. */
  lemma {:induction false} OverlayUntouched(m: map<string, nat>, pairs: seq<Pair>, code: string)
    requires forall j | 0 <= j < |pairs| :: Upper(pairs[j].0) != code
    ensures code in Overlay(m, pairs) <==> code in m
    ensures code in m ==> Overlay(m, pairs)[code] == m[code]
    decreases |pairs|
  {
    if pairs != [] {
      var init := pairs[..|pairs| - 1];
      forall j | 0 <= j < |init| ensures Upper(init[j].0) != code {
        assert init[j] == pairs[j];
      }
      OverlayUntouched(m, init, code);
    }
  }

  /** Positive counts everywhere stay positive after the overlay. */
  lemma {:induction false} OverlayPositive(m: map<string, nat>, pairs: seq<Pair>)
    requires forall c | c in m :: m[c] > 0
    requires forall j | 0 <= j < |pairs| :: pairs[j].1 > 0
    ensures forall c | c in Overlay(m, pairs) :: Overlay(m, pairs)[c] > 0
    decreases |pairs|
  {
    if pairs != [] {
      var init := pairs[..|pairs| - 1];
      forall j | 0 <= j < |init| ensures init[j].1 > 0 {
        assert init[j] == pairs[j];
      }
      OverlayPositive(m, init);
    }
  }

  /**
   * Applies the first ten parsed pairs to `defaults`, one assignment per
   * pair, in page order.
   */
  method ApplyLiveRanking(defaults: map<string, nat>, matches: seq<Pair>) returns (totals: map<string, nat>)
    ensures totals == Overlay(defaults, Prefix(matches, LiveEntryLimit))
  {
    var applied := Prefix(matches, LiveEntryLimit);
    totals := defaults;
    var i := 0;
    while i < |applied|
      invariant 0 <= i <= |applied|
      invariant totals == Overlay(defaults, applied[..i])
    {
      var (country, count) := applied[i];
      assert applied[..i + 1][..i] == applied[..i];
      totals := totals[Upper(country) := count];
      i := i + 1;
    }
    assert applied[..|applied|] == applied;
  }

  /** The total table the script ends up with for a given fetch outcome. */
  function TotalTable(live: LiveRanking): map<string, nat> {
    match live
    case Unavailable => BuiltInTotal
    case Parsed(matches) => Overlay(BuiltInTotal, Prefix(matches, LiveEntryLimit))
  }

  /**
   * The fleet provider: the built-in totals, overridden by the live pairs when
   * the fetch succeeded, and the built-in combat table, which is never changed.
   */
  method FetchRealtimeFleets(live: LiveRanking) returns (totals: map<string, nat>, combats: map<string, nat>)
    ensures totals == TotalTable(live)
    ensures BuiltInTotal.Keys <= totals.Keys
    ensures "USA" in totals
    ensures combats == BuiltInCombat
  {
    combats := BuiltInCombat;
    match live
    case Unavailable =>
      totals := BuiltInTotal;
    case Parsed(matches) =>
      totals := ApplyLiveRanking(BuiltInTotal, matches);
      OverlayKeys(BuiltInTotal, Prefix(matches, LiveEntryLimit));
  }

  /**
   * What the live step does to the total table: defaults are never removed,
   * a default code no applied pair writes keeps its count, and the written
   * codes are exactly the upper-cased codes of the first ten pairs.
   */
  lemma TotalTableFacts(live: LiveRanking, code: string)
    ensures BuiltInTotal.Keys <= TotalTable(live).Keys
    ensures live.Parsed? ==>
      TotalTable(live).Keys == BuiltInTotal.Keys + WrittenCodes(Prefix(live.matches, LiveEntryLimit))
    ensures live.Parsed? && code in BuiltInTotal && code !in WrittenCodes(Prefix(live.matches, LiveEntryLimit)) ==>
      TotalTable(live)[code] == BuiltInTotal[code]
  {
    if live.Parsed? {
      var applied := Prefix(live.matches, LiveEntryLimit);
      OverlayKeys(BuiltInTotal, applied);
      if code !in WrittenCodes(applied) {
        forall j | 0 <= j < |applied| ensures Upper(applied[j].0) != code {
          assert Upper(applied[j].0) in WrittenCodes(applied);
        }
        OverlayUntouched(BuiltInTotal, applied, code);
      }
    }
  }

  /**
   * With positive counts among the applied (first ten) live pairs, or no live
   * data, every total lookup is positive; later pairs are never applied.
   */
  lemma TotalTablePositive(live: LiveRanking, code: string)
    requires live.Parsed? ==> forall j | 0 <= j < |live.matches| && j < LiveEntryLimit :: live.matches[j].1 > 0
    ensures TotalFleetOf(TotalTable(live), code) > 0
  {
    if live.Parsed? {
      var applied := Prefix(live.matches, LiveEntryLimit);
      forall j | 0 <= j < |applied| ensures applied[j].1 > 0 {
        assert applied[j] == live.matches[j];
      }
      OverlayPositive(BuiltInTotal, applied);
    }
  }
}
