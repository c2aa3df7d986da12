# Military-effort classification: a Dafny model

This project models the scoring, tiering and ranking pipeline of `mil.py`.
That script ranks nations by a fuel-normalised "military effort" metric. It
takes a route-fuel dataset of `(nation, ops, fuel)` tuples and looks up fleet
sizes in two tables: total aircraft, which a live ranking page may override,
and combat-ready aircraft. For each tuple it computes:

- an effort score, `fuel / (ops / total_fleet)`;
- a share of global operations, `ops / 15762 * 100`;
- a commitment tier on raw fuel, with strict thresholds 400, 250 and 100.

It then sorts the records by score, highest first, and reports the top
three. Finally it re-sorts all records by operations per aircraft and reports
the first five.

The model has five modules:

- `Fleets` (`fleets.dfy`): the built-in tables; lookup with the defaults 100
  (total) and 50 (combat); and the live override. The override is a loop
  (`ApplyLiveRanking`) proved against the pure overlay `Overlay`.
- `Effort` (`effort.dfy`): the score, the share and the tier. The
  classification loop `ClassifyAll` builds one record per tuple.
- `Ranking` (`ranking.dfy`): a reference stable descending sort by a real
  key. It is proved sorted, a permutation and stable. A stable descending
  order is also proved unique, so Python's `list.sort(key=…, reverse=True)`
  and `sorted(…)` give exactly this function's result.
- `Pipeline` (`pipeline.dfy`): `RunAssessment` takes the two fleet tables,
  classifies, sorts by score and takes the first three. It then re-sorts all
  records by operations per aircraft and reports the first five. `Script`
  is the whole script: it calls `Fleets.FetchRealtimeFleets` and runs
  `RunAssessment` on the tables it returns and the built-in dataset.
- `Slices` (`slices.dfy`) holds Python's `s[:n]`.

Facts about the code that the model keeps:

- The total table has 15 entries and the combat table 10. DEU and ESP are
  absent from the totals. GBR, ITA, DEU and ESP are absent from the combat
  table.
- The share divides by the hardcoded 15762, the total of the built-in
  dataset's operations.
- A zero total fleet is not guarded. It is a division by zero and ends the
  script, so it is a precondition here.
- A record with fuel 200 is MODERATE SUPPORT, since 200 > 100.
- A lone USA record has share 8112 / 15762 * 100.
- The script has no trend aggregation, no per-month summaries and no
  configurable reference nation.

## Model

| member | source | states |
|---|---|---|
| `Fleets.BuiltInTables` | mil.py:24-45 | DEU and ESP are absent from the total table; GBR and ITA are absent from the combat table; every combat key is also a total key |
| `Fleets.BuiltInLookups` | mil.py:68-69 | a listed code gives its table value (USA 13209, RUS 1538 combat); an absent code gives 100 total and 50 combat (DEU, ESP, GBR, ITA) |
| `Fleets.BuiltInTotalsPositive` | mil.py:68 | every total lookup in the built-in table is positive, listed code or not |
| `Fleets.OverlayKeys` | mil.py:35-36 | after the overlay, the keys are exactly the old keys plus the upper-cased codes written; no key is removed |
| `Fleets.OverlayLastWins` | mil.py:35-36 | the count of a written code is the count of the last pair for that upper-cased code (a later duplicate wins) |
| `Fleets.OverlayUntouched` | mil.py:35-36 | a code that no pair writes keeps both its presence and its count |
| `Fleets.OverlayPositive` | mil.py:35-36 | positive table counts and positive live counts give positive counts after the overlay |
| `Fleets.ApplyLiveRanking` | mil.py:35-36 | the override loop gives the overlay of the first min(10, n) parsed pairs, in page order |
| `Fleets.FetchRealtimeFleets` | mil.py:19-48 | on failure the totals are the built-in table, otherwise its overlay; the built-in keys (USA among them) remain; the combat table is the built-in one, unchanged |
| `Fleets.TotalTableFacts` | mil.py:24-36 | the final total table keeps every default key; its keys are the defaults plus the written codes; an unwritten default keeps its default count |
| `Fleets.TotalTablePositive` | mil.py:24-36 | with no live data, or positive counts among the first ten pairs, every total lookup is positive (later pairs are never applied) |
| `Effort.EffortScore` | mil.py:72 | score 0 when ops <= 0; otherwise score * ops == fuel * total_fleet; non-negative for non-negative fuel and fleet |
| `Effort.EffortScoreClosedForm` | mil.py:72 | for ops > 0 the score equals fuel * total_fleet / ops |
| `Effort.Tier` | mil.py:76-87 | HIGH COMMITMENT iff fuel > 400; MAJOR CONTRIBUTOR iff 250 < fuel <= 400; MODERATE SUPPORT iff 100 < fuel <= 250; MINIMAL iff fuel <= 100 |
| `Effort.TierMonotone` | mil.py:76-87 | more fuel never gives a lower tier |
| `Effort.TierBoundaries` | mil.py:76-87 | exactly 400 is MAJOR CONTRIBUTOR and 400.01 is HIGH COMMITMENT; 250 is MODERATE SUPPORT; 100 is MINIMAL |
| `Effort.EffortOf` | mil.py:67-99 | a record copies nation, ops and fuel; looks up both fleets with defaults; carries the share, the score (zero for no ops, non-negative for non-negative fuel), the tier and that tier's fixed priority |
| `Effort.ClassifyAll` | mil.py:66-99 | the loop emits exactly one record per input tuple, in input order, each the record built for that tuple |
| `Effort.RouteFuelOpsTotal` | mil.py:56-60 | the dataset's operations add up to the hardcoded denominator 15762 |
| `Effort.SharesSum` | mil.py:73 | the shares of the built records add up to (sum of ops) / 15762 * 100 |
| `Effort.SharesSum100` | mil.py:73 | when the operations add up to 15762 (as for the script's dataset), the shares add up to exactly 100 |
| `Effort.UsaRecord` | mil.py:67-87 | USA with 8112 ops and 473.3 fuel: fleets 13209 and 2803, score 473.3 * 13209 / 8112, HIGH COMMITMENT / STRATEGIC HUB |
| `Effort.MissingNationRecord` | mil.py:68-87 | an unlisted code with 500 ops and fuel 200: fleets 100 and 50, score 40, MODERATE SUPPORT / TACTICAL |
| `Ranking.SortDesc` | mil.py:102 | the sort result is a permutation of its input (same multiset, same length) |
| `Ranking.SortDescSorted` | mil.py:102 | keys are non-increasing along the sorted result |
| `Ranking.SortDescStable` | mil.py:102 | elements with equal keys keep their input order (every key class is unchanged) |
| `Ranking.SortedStableUnique` | mil.py:102 | two sequences that are both sorted descending and have the same key classes are equal |
| `Ranking.StableSortIsSortDesc` | mil.py:102 | any sorted and stable reordering of the input (Python's sort included) equals the reference sort |
| `Ranking.PrefixDominates` | mil.py:117 | in a sorted sequence, every key among the first n is at least every key after them |
| `Slices.Prefix` | mil.py:117 | the slice `s[:n]` is a prefix of `s` of length min(n, len(s)) |
| `Pipeline.SortPreservesShares` | mil.py:102 | sorting by score leaves the total of the shares unchanged |
| `Pipeline.RankedFacts` | mil.py:66-102 | the score-sorted records are sorted and stable; their scores are non-negative for non-negative fuel; their shares add up to 100 when the ops add up to 15762; every fleet is nonzero |
| `Pipeline.RunAssessment` | mil.py:66-126 | ranked is a stable non-increasing-score permutation of the built records; the leaders are its first min(3, n) and outrank every record after them; the efficiency list is the first min(5, n) of ranked re-sorted stably by non-increasing ops per aircraft |
| `Pipeline.FleetsNonZeroForLive` | mil.py:72-125 | with no live data, or positive counts among the first ten pairs, no lookup is zero, so the unguarded divisions cannot fail |
| `Pipeline.Script` | mil.py:50-126 | whenever no dataset nation has a zero total-fleet lookup (the script's own no-crash condition), the ranking is exactly the reference stable sort by score of the records built from the fetched tables; the shares add up to exactly 100; the leaders are its first three; the efficiency list is the first five of all records re-sorted by ops per aircraft |

## Left out

- The HTTP request, its timeout, the status check and the regular-expression
  parse (mil.py:30-39) are network I/O and a foreign library. The fetch
  outcome is a parameter: `Unavailable`, or the already-parsed pairs.
- `Fleets.Upper`: models `str.upper` on ASCII letters only. Python also
  maps non-ASCII letters, which the live page's codes are not expected to
  contain.
- All printing, column formatting, emoji and the fixed narrative lines
  (the print statements at mil.py:11-13, 104-115, 119-124, 127-139) are
  presentation. Tier and priority labels are
  datatype constructors; their texts are named in comments.
- `Effort.EffortOf`: the source stores and sorts on
  `round(effort_score, 2)` (mil.py:96, 102). The model keeps and sorts on
  exact real scores, so ties in the source, between rounded values, can
  differ from exact ties here. IEEE floating point in general is not
  modelled: fuel, scores, shares and ratios are exact reals.
- `Pipeline.RunAssessment`: a nation whose total-fleet lookup is zero makes
  the script stop with a division by zero (mil.py:72, 125). The model
  requires every lookup to be nonzero instead of modelling the crash;
  `Pipeline.Script` has the same requires. `Pipeline.FleetsNonZeroForLive`
  gives a sufficient condition on the live page.
- The unused `numpy` import is left out.
