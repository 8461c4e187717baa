# Weekly fantasy-football accolades, modelled in Dafny

This project models the awards engine of a fantasy-football league
dashboard (`app/main.py`). Given one week's box scores (matchups with both
teams, their scores and their full lineups), the engine hands out eleven
accolades, in this order:

- six team awards: Most Dominant Win, Closest Win, Toughest Loss,
  Luckiest Win, Highest Scorer, Lowest Scorer;
- two manager awards: Best Manager and Worst Manager, decided by the
  efficiency ratio of actual score to the score of a greedily computed
  optimal lineup;
- three player awards: Biggest Boom, Biggest Bust, Biggest Mistake.

The modules follow the program:

- `Roster`: the box-score data.
- `Sequences`: the list built-ins the engine relies on. These are list
  comprehensions with a condition (`Filter`), `list.remove`, the stable
  `sorted(..., key=...)` and `[-1]`.
- `Extremum`: the strict comparison every award uses to change hands, and
  the built-in `max`/`min` with a key (`FirstBest`, built on the running
  leader `Leader`). The team and player passes keep their own running
  records, `TeamAwards.TeamAward` and `PlayerAwards.Record`.
- `Records`: the mutable `Accolade` record.
- `Lineup`: `get_best_by_skill`, `get_optimal_lineup` and
  `get_roster_effeciency`.
- `TeamAwards`, `ManagerAwards`, `PlayerAwards`: the three passes.
- `Accolades`: `get_accolades`.

`Accolade` is a class with the record's fields; besides its constructor
it has only `Snapshot`, which reads the fields as an `Award` value. As in
the program, the award passes change an `Accolade`'s fields from outside.
These in-place updates are module-level methods that take an `Accolade`:
`TeamAwards.Contest`, `ManagerAwards.Fill`, `PlayerAwards.ConsiderStarter`
and `PlayerAwards.ConsiderBenched`. `Contest`, `ConsiderStarter` and
`ConsiderBenched` are called from loop methods that carry their
invariants (`TeamAwards.ScanMatchups` and the two passes of
`PlayerAwards`). `Fill` is called once per manager award, twice in
straight-line code in `ManagerAwards.GetLineupAwards`. Each method is
proved equal to a specification function of the old state. Examples:

- `TeamAward(box, c, n)` is the record after `n` matchups.
- `Record(k, a, candidates)` is a player record after the candidates
  offered to it.
- `TableOf(writes)` is the efficiency dictionary after its writes.

The awards' properties are proved as lemmas about those functions.

Points are modelled as mathematical reals. Python's `round(x, 2)` is a
parameter `round2: real -> real`, about which nothing is assumed.

## Model

| member | source | states |
|---|---|---|
| Roster.Starters | app/main.py:214 | the started players are exactly the lineup's players that are neither on the bench nor on injured reserve, and there are no more of them than players |
| Roster.Benched | app/main.py:215 | the benched players are exactly the lineup's players in slot "BE"; injured reserve is excluded |
| Roster.StartersAppend | app/main.py:214 | the started players keep lineup order and repetition: the comprehension over a concatenation is the concatenation of the comprehensions, and a single player is kept exactly when it started |
| Roster.BenchedAppend | app/main.py:215 | the benched players keep lineup order and repetition in the same way: a single player is kept exactly when it is in slot "BE" |
| Roster.TeamOf | app/main.py:223-226 | a player is credited to the home team when it occurs in the home lineup, otherwise to the away team |
| Sequences.Filter | app/main.py:63-68 | a comprehension with a condition keeps the elements that pass, in order; the result is no longer than the input |
| Sequences.FilterMembers | app/main.py:63-68 | an element is in the comprehension exactly when it is in the input and passes |
| Sequences.FilterAppend | app/main.py:63-68 | the comprehension over a concatenation is the concatenation of the comprehensions over its parts: order and repetition are kept |
| Sequences.FilterOne | app/main.py:63-68 | a single element is kept exactly when it passes |
| Sequences.RemoveFirst | app/main.py:75 | `list.remove(x)` on a list holding `x` loses exactly one element (the missing case raises in the source; see "## Left out") |
| Sequences.MoveLast | app/main.py:93-95 | moving "OP" keeps the number of labels, and when "OP" occurs it becomes the last label (which occurrence moves and what stays in order: `Lineup.SlotOrderSorted`) |
| Sequences.MoveLastMultiset | app/main.py:93-95 | moving "OP" last permutes the labels and keeps their number |
| Sequences.RemoveFirstAt | app/main.py:75 | `list.remove(x)` deletes exactly the first occurrence of `x` and keeps everything else in order |
| Sequences.RemoveFirstMultiset | app/main.py:75 | `list.remove(x)` takes away one copy of `x` and nothing else |
| Sequences.SortByMultiset | app/main.py:90 | `sorted` returns a permutation of its input |
| Sequences.SortBy | app/main.py:90 | `sorted(s, key)` as a stable insertion sort; its length is that of `s` |
| Sequences.SortByFacts | app/main.py:90 | `sorted` orders by key and is stable: the elements of each key value keep their input order |
| Sequences.LastOfSortBy | app/main.py:71 | `sorted(s, key)[-1]` is the last element of `s` with the largest key |
| Extremum.Leader | app/main.py:193-201 | a left-to-right scan from a sentinel that changes hands only on a strict improvement: None when no value beats the sentinel; otherwise a position whose value beats the sentinel, that no value beats, and that strictly beats every earlier value |
| Extremum.FirstBest | app/main.py:193-201 | `max`/`min` with a key picks the first element with the best key: no element beats it, and every earlier element is strictly worse |
| Records.Accolade.constructor | app/main.py:18-27 | a new accolade has the given title, team and points; every other field is at its default |
| Records.HoldsAppend | app/main.py:255-257 | concatenating two award lists concatenates the values they hold |
| Lineup.Eligibles | app/main.py:63-68 | the eligible players are exactly the pool's players listing the slot, with a fully played game and not on a bye |
| Lineup.EligiblesAppend | app/main.py:63-68 | the eligible players keep pool order and repetition: the comprehension distributes over concatenation, and a single player is kept exactly when it is eligible |
| Lineup.PlayerList.constructor | app/main.py:97 | `lineup.copy()`: the copy holds the lineup's players in order |
| Lineup.BestBySkill | app/main.py:60-77 | the pick of `get_best_by_skill`: None when no pool player is eligible, otherwise the last element of the eligible players sorted by points (its properties: `Lineup.BestBySkillFacts`) |
| Lineup.After | app/main.py:70-77 | the pool after a pick: unchanged when there is none, otherwise with the picked player's first occurrence removed |
| Lineup.PlayerList.Remove | app/main.py:75 | the roster copy loses the first occurrence of the player, in place |
| Lineup.EligiblePlayers | app/main.py:63-71 | the filtering loop yields the eligible players in order; when there are any, it also yields the position of the last one with the most points |
| Lineup.GetBestBySkill | app/main.py:60-77 | returns the pick of `BestBySkill` on the old roster copy, and leaves the copy with that pick removed |
| Lineup.BestBySkillFacts | app/main.py:60-77 | there is no pick exactly when no pool player is eligible, and then the pool is unchanged; otherwise the pick is an eligible pool player, the last one with the most points; the pool loses exactly its first occurrence |
| Lineup.BestBySkillNone | app/main.py:70-74 | there is no pick if and only if no player of the pool is eligible |
| Lineup.BestIsLastMax | app/main.py:71 | with an eligible player present, the pick is the last eligible player with the most points |
| Lineup.SlotsOf | app/main.py:83-85 | the collected slot labels, one per lineup player, in lineup order |
| Lineup.Starting | app/main.py:87 | the labels other than "BE" and "IR", in order, duplicates kept |
| Lineup.SlotOrder | app/main.py:84-95 | the fill order: the starting labels stably sorted by length, with the first "OP" moved last (its properties: `Lineup.SlotOrderPermutation`, `Lineup.SlotOrderSorted`) |
| Lineup.StartingSlots | app/main.py:84-87 | dropping "BE" and "IR" labels leaves one label per started player, duplicates kept |
| Lineup.SlotOrderPermutation | app/main.py:84-95 | the fill order is a permutation of the started players' labels, with as many labels as starters |
| Lineup.SlotOrderSorted | app/main.py:89-95 | the labels are sorted by length, stably; if "OP" occurs, its first occurrence is moved last and the rest stays sorted |
| Lineup.LineupSlots | app/main.py:83-95 | the label-collecting loop computes the fill order `SlotOrder` |
| Lineup.Picks | app/main.py:97-100 | the greedy pass: one pick per label, in order, each made by `get_best_by_skill` from what earlier picks left; as many picks as labels |
| Lineup.FillSlots | app/main.py:97-100 | the slot loop makes the greedy picks `Picks` from the old roster copy |
| Lineup.PicksEligible | app/main.py:99-100 | every pick is eligible for the slot it fills |
| Lineup.PicksDistinct | app/main.py:97-100 | the picked players form a sub-multiset of the roster: nobody is picked twice |
| Lineup.Chosen | app/main.py:102-107 | the players actually picked, in order, skipping unfilled slots; no more of them than slots |
| Lineup.TotalPoints | app/main.py:102-107 | the sum of the picked players' points |
| Lineup.OptimalScore | app/main.py:80-109 | the optimal score: the points of the greedy picks over the fill order, summed (its properties: `Lineup.OptimalScoreFacts`) |
| Lineup.PickedPoints | app/main.py:102-107 | the summing loop adds the points of the picks and skips unfilled slots |
| Lineup.OptimalLineup | app/main.py:80-109 | returns `OptimalScore` of the lineup |
| Lineup.OptimalScoreFacts | app/main.py:80-109 | the optimal score sums distinct roster players, at most one per starter, each eligible for its slot |
| Lineup.RosterEfficiency | app/main.py:262-269 | the triple is the score, the rounded optimal score, and the rounded ratio of the two; the ratio is 0 when the rounded optimal score is 0, whatever the actual score |
| Lineup.GetRosterEfficiency | app/main.py:262-269 | the optimizer pass, rounding and guarded division compute `RosterEfficiency` |
| TeamAwards.Decide | app/main.py:126-134 | the winner and loser of a matchup with their scores: the home team wins only with a strictly higher score |
| TeamAwards.DecideFacts | app/main.py:126-134 | the home team wins only with a strictly higher score; the winning score exceeds the losing one by the absolute score difference |
| TeamAwards.Metric | app/main.py:134-172 | what each award compares: the score difference for the two margin awards, the losing score for Toughest Loss and Lowest Scorer, the winning score for Luckiest Win and Highest Scorer |
| TeamAwards.Crown | app/main.py:136-172 | the fields a matchup writes when it takes an award: team, points, and for the first four awards also opponent and opponent score |
| TeamAwards.Offer | app/main.py:136-172 | one `if` block as a value: the matchup takes the record exactly when its metric strictly beats the tracked value |
| TeamAwards.TeamAward | app/main.py:120-172 | a record after the first `n` matchups: the constructed record, offered each matchup in order |
| TeamAwards.Contest | app/main.py:136-172 | one `if` block: the record passes to the matchup exactly when the matchup's metric strictly beats what the record tracks |
| TeamAwards.ScanMatchups | app/main.py:120-172 | after the loop each of the six records equals `TeamAward` over all matchups |
| TeamAwards.NewRecords | app/main.py:113-118 | six distinct fresh records, each titled, credited to the first home team and set to its sentinel (0 or 9999) |
| TeamAwards.GetTeamAwards | app/main.py:111-179 | returns six records holding the six team award values, in source order |
| TeamAwards.TeamAwardValues | app/main.py:174-179 | the six records after the scan, in the order the pass returns them |
| TeamAwards.TeamAwardUnbeaten | app/main.py:136-172 | no matchup's metric strictly beats the record's final tracked value: the record is the extremum |
| TeamAwards.TeamAwardHolder | app/main.py:136-172 | either no matchup beat the sentinel and the record is as constructed, or the record is crowned by the matchup whose metric beats the sentinel and strictly beats every earlier metric, so the earliest matchup keeps a tie |
| TeamAwards.LeaderAward | app/main.py:136-172 | the record the shared running record `Extremum.Leader` describes over the first `n` metrics: as constructed when no matchup beat the sentinel, otherwise crowned by the matchup it names |
| TeamAwards.TeamAwardLeader | app/main.py:120-172 | each team record after the first `n` matchups is the one `Extremum.Leader` describes over their metrics, and it tracks the value `Extremum.Held` gives |
| TeamAwards.TeamAwardTitle | app/main.py:113-118 | the scan never changes a record's title |
| TeamAwards.TeamAwardTitles | app/main.py:174-179 | the six team records carry their six titles in source order |
| ManagerAwards.Sides | app/main.py:187-191 | there are two team-weeks per matchup |
| ManagerAwards.SidesOfMatchup | app/main.py:187-191 | team-week `2i` is matchup `i`'s home side and `2i+1` its away side |
| ManagerAwards.WritesStep | app/main.py:187-191 | each matchup writes its home entry, then its away entry |
| ManagerAwards.Writes | app/main.py:186-191 | the dictionary writes of the pass: one per team-week, in order, each the team and its `get_roster_effeciency` triple |
| ManagerAwards.Put | app/main.py:188-191 | a dictionary write updates the entry; a new key goes last, and an existing key keeps its place |
| ManagerAwards.PutWellFormed | app/main.py:188-191 | a write keeps the keys distinct and equal to the dictionary's keys |
| ManagerAwards.TableOf | app/main.py:186-191 | the dictionary after a run of writes, starting empty |
| ManagerAwards.TableKeys | app/main.py:186-191 | the dictionary is well formed, and a team is a key exactly when some write named it |
| ManagerAwards.LastWriteWins | app/main.py:186-191 | a team's entry is the value of its last write |
| ManagerAwards.TableStep | app/main.py:188-191 | two writes appended to the dictionary are two successive updates |
| ManagerAwards.EfficiencyTable | app/main.py:186-191 | the dictionary-filling loop builds `TableOf(Writes(box))` |
| ManagerAwards.WeekTable | app/main.py:186-191 | the week's dictionary is non-empty and well formed |
| ManagerAwards.Ratios | app/main.py:193 | the ratios of the entries, in key order: the keys that `max`/`min` compare |
| ManagerAwards.Appoint | app/main.py:193-201 | the record after `max` or `min` over the dictionary by ratio: the first key in insertion order with the best ratio, with its score, optimal score and ratio copied |
| ManagerAwards.BestManager | app/main.py:183-196 | Best Manager: the constructed record appointed by `max` over the week's dictionary |
| ManagerAwards.WorstManager | app/main.py:184-201 | Worst Manager: the constructed record appointed by `min` over the week's dictionary |
| ManagerAwards.ManagerAwardValues | app/main.py:203 | the two manager records, Best then Worst |
| ManagerAwards.AppointFacts | app/main.py:193-201 | the appointed team is a key whose score, optimal score and ratio are copied into the record; no entry's ratio beats it; every earlier key is strictly worse |
| ManagerAwards.ManagerBounds | app/main.py:183-201 | Best and Worst Manager carry their titles and copy their team's entry; Worst ≤ every entry's ratio ≤ Best |
| ManagerAwards.ManagerBoundsByWrite | app/main.py:186-201 | for every team-week that is its team's last write, Worst ≤ its ratio ≤ Best |
| ManagerAwards.Fill | app/main.py:193-201 | the four assignments after `max`/`min` over the dictionary leave the record as `Appoint` describes |
| ManagerAwards.ManagerAwardTitles | app/main.py:183-184 | the two manager records carry their titles in source order |
| ManagerAwards.GetLineupAwards | app/main.py:181-203 | returns two records holding Best Manager and Worst Manager |
| PlayerAwards.Crown | app/main.py:220-248 | the fields a candidate writes when it takes a record: player, points and team, and for Mistake also the benched player |
| PlayerAwards.Offer | app/main.py:220-248 | one `if` block as a value: the candidate takes the record exactly when its value strictly beats the record's points |
| PlayerAwards.Record | app/main.py:211-248 | a record after a run of candidates: the starting record, offered each candidate in order |
| PlayerAwards.RecordAppend | app/main.py:211-248 | offering two runs of candidates is offering them one after the other |
| PlayerAwards.RecordUnbeaten | app/main.py:218-248 | neither the starting points nor any candidate's value strictly beats the record's final points |
| PlayerAwards.RecordHolder | app/main.py:218-248 | either the record is as it started, or it is crowned by the candidate whose value beats the start and strictly beats every earlier candidate |
| PlayerAwards.GatherSound | app/main.py:211-212 | every candidate of the week comes from the home or away lineup of some matchup |
| PlayerAwards.GatherComplete | app/main.py:211-212 | every candidate of every lineup is a candidate of the week |
| PlayerAwards.Gather | app/main.py:211-212 | the candidates of the week: each matchup's home lineup, then its away lineup, matchup by matchup |
| PlayerAwards.StartsOf | app/main.py:218-219 | one Boom/Bust candidate per started player, in order, valued at its performance |
| PlayerAwards.Starts | app/main.py:214-219 | a lineup's Boom/Bust candidates: one per started player, in lineup order |
| PlayerAwards.StartsExact | app/main.py:214-219 | a lineup's Boom/Bust candidates are exactly its started players, each valued at its performance |
| PlayerAwards.Mates | app/main.py:237 | the position mates are exactly the started players whose slot the benched player is eligible for |
| PlayerAwards.MatesAppend | app/main.py:237 | the position mates keep the started players' order and repetition: the comprehension distributes over concatenation, and a single started player is kept exactly when the benched player may fill its slot |
| PlayerAwards.LowestMate | app/main.py:239 | the lowest-scoring mate is the first mate with the fewest points: a mate, with no more points than any mate, and every mate before it has strictly more |
| PlayerAwards.Blunder | app/main.py:239-248 | a benched player's Mistake candidate: credited to its side, naming its lowest-scoring mate, valued at that mate's points less its own |
| PlayerAwards.BlundersAmong | app/main.py:236-240 | one Mistake candidate per benched player that has a position mate, in order |
| PlayerAwards.Blunders | app/main.py:214-240 | a lineup's Mistake candidates, drawn from its benched and started players |
| PlayerAwards.BlundersExact | app/main.py:236-240 | a lineup's Mistake candidates are exactly its benched players that have a position mate, each paired with the lowest-scoring mate |
| PlayerAwards.BlunderFacts | app/main.py:236-248 | a Mistake candidate names a benched player and a started mate of the same lineup; its value is the mate's points minus the benched player's; no eligible started mate has fewer points; it is credited to the benched player's side |
| PlayerAwards.PlayerAwardTitle | app/main.py:207-209 | the scan never changes a player record's title |
| PlayerAwards.PlayerAwardTitles | app/main.py:207-209 | the three player records carry their titles in source order |
| PlayerAwards.PlayerAward | app/main.py:207-248 | a player record after the pass: the constructed record offered the week's candidates in order |
| PlayerAwards.PlayerAwardValues | app/main.py:250 | the three player records, Boom, Bust and Mistake |
| PlayerAwards.BoomBustBounds | app/main.py:207-233 | Boom ≥ 0 and Bust ≤ 999; every started player of every lineup has performance ≤ Boom and ≥ Bust |
| PlayerAwards.BoomBustHolder | app/main.py:218-233 | Boom or Bust is either as constructed, or names a started player of some lineup, credited to its side, with its performance beating the sentinel |
| PlayerAwards.MistakeBound | app/main.py:236-248 | Mistake ≤ 999, and Mistake ≤ q.points − b.points for every benched b and eligible started mate q of the same lineup |
| PlayerAwards.MistakeCandidate | app/main.py:236-238 | every benched player with a position mate is offered to Mistake |
| PlayerAwards.MistakeHolder | app/main.py:236-248 | Mistake is either as constructed, or names a benched player and its lowest-scoring started mate, credited to the benched player's side, with a value below 999 |
| PlayerAwards.ConsiderStarter | app/main.py:218-233 | one started player is offered to Boom or Bust: it takes the record only on a strict improvement and is credited to its side |
| PlayerAwards.ConsiderBenched | app/main.py:240-248 | one benched player and its lowest mate are offered to Mistake: they take it only on a strict improvement, credited to the benched player's side |
| PlayerAwards.BoomBustPass | app/main.py:218-233 | the loop over started players offers Boom and Bust every starter, in order |
| PlayerAwards.MistakePass | app/main.py:236-248 | the loop over benched players offers Mistake each benched player that has a position mate, in order |
| PlayerAwards.ScanLineup | app/main.py:212-248 | one lineup's body offers its Boom/Bust and Mistake candidates |
| PlayerAwards.GatherStep | app/main.py:211-212 | each matchup contributes its home lineup's candidates, then its away lineup's |
| PlayerAwards.RecordStep | app/main.py:211-248 | offering the candidates up to a matchup and then its two lineups equals three successive runs |
| PlayerAwards.ScanPlayers | app/main.py:211-248 | after the loop the three records equal `PlayerAward` over the week |
| PlayerAwards.NewPlayerRecords | app/main.py:207-209 | three distinct fresh records, credited to the first home team, at 0, 999 and 999 |
| PlayerAwards.GetPlayerAwards | app/main.py:205-250 | returns three records holding Boom, Bust and Mistake |
| Accolades.WeekAwards | app/main.py:253-259 | the week's awards are eleven values: team, then manager, then player awards |
| Accolades.GetAccolades | app/main.py:253-259 | returns eleven records holding the week's award values, in order |
| Accolades.WeekTitles | app/main.py:253-259 | the eleven records carry the eleven titles in the fixed order, whatever the week |

## Left out

- The web route `index` and the card rendering `prepare_card` are not
  modelled. Neither is the league download through the provider library:
  a week is given as a sequence of `Matchup` values.
- The date and week code (`get_season_start`, `get_current_week`) is not
  modelled; it reads the clock.
- The session secret and `Accolade.__repr__` are not modelled.
- Python floating point is not modelled: points are reals.
- `round(x, 2)` is an uninterpreted parameter `round2`, and `/` is real
  division. Ratios are therefore exact up to `round2`.
- The source raises `IndexError` on an empty week: it reads
  `box_scores[0]`, and `max`/`min` fail over an empty dictionary. The
  award passes therefore require at least one matchup, and that failure
  is not modelled.
- Python object identity is modelled by value equality. Teams and
  players carry an `id`, so two players compare equal only when all their
  fields agree. The `player in matchup.home_lineup` tests are modelled
  by sequence membership.
- `get_best_by_skill` returns `[]` when no player is eligible.
  `get_optimal_lineup` then skips that slot through the `AttributeError`
  handler. Both are modelled as `None` and skipped.
- Sequences.RemoveFirst: the source's `list.remove(x)` raises
  `ValueError` when `x` is missing; the model returns the list unchanged
  instead. That case is unreachable in the engine: `PlayerList.Remove`
  requires `x` in the list, `After` removes a player `BestBySkill` took
  from that list (`Lineup.BestBySkillFacts`), and the "OP" move runs only
  after `"OP" in slots` (app/main.py:93-95).
- The `sorted(...)[-1]` in `get_best_by_skill` is modelled by a loop,
  `Lineup.EligiblePlayers`, that tracks the position of the last eligible
  player with the most points. `Lineup.BestIsLastMax` proves that the last
  element of the sorted list is such a player, and `Sequences.LastMaxUnique`
  that there is only one. With both, `Lineup.GetBestBySkill` proves that
  the loop picks the same player as the sorted list.
- The slot labels are not deduplicated: every started player contributes
  its label (app/main.py:84-87), so two starters in the same slot give two
  labels, and the optimizer fills one slot per label.
- `Accolade` has no `benched_player` attribute until the Mistake award
  sets one. The model gives every record a `benchedPlayer` field that
  starts as `None`.
- The loop `for lineup in [home_lineup, away_lineup]` is modelled as two
  calls of the same lineup body. The list comprehensions are the
  functions `Starters`, `Benched`, `Mates`, `Eligibles` and `Starting`,
  each an instance of `Sequences.Filter`.
