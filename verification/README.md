# FPL Smart Scout: the scoring pipeline in Dafny

This project models the one routine of the FPL Smart Scout that holds logic:
`process_data` in `src/processor.py`. It joins four tables from the Fantasy
Premier League API (events, fixtures, teams, players) and turns them into a
ranked list of recommended players. Its steps:

1. **Next gameweek.** Take the id of the first event flagged `is_next`, or
   gameweek 1 when none is flagged.
2. **Fixture window.** Keep the fixtures that belong to that gameweek or one
   of the two after it and are not finished.
3. **Fixture difficulty rating (FDR).** For every team id, collect the
   difficulty of each window fixture the team plays. That is the home rating
   when the team is the home side and the away rating otherwise. The team's
   FDR is the mean of these values, or 5.0 when it has no fixture in the
   window (a blank gameweek).
4. **Scoring.** Each player row gets its team name and FDR. Cost is divided
   by 10 (millions) and value is points per million. The smart score is
   `0.5 * form + 0.3 * (5 - fdr) + 0.2 * value`, and the position label comes
   from the element type.
5. **Filter.** Keep players with status `"a"` and more than 450 minutes.
6. **Rank.** Sort by smart score, highest first.

Layout:

- `records.dfy` (module `Records`) holds the rows as datatypes (`Event`,
  `Fixture`, `Team`, `Player`, and `ScoredPlayer` for a player row with the
  added columns), the constants, and `Option`. A missing value is `None`:
  this is the NaN that a dictionary lookup on a data-frame column gives for a
  key that is not in the dictionary.
- `seqs.dfy` (module `Seqs`) holds row selection by a boolean mask (`Filter`)
  and its properties.
- `fixtures.dfy` (module `Fixtures`) holds steps 1 to 3. The per-team loop,
  which fills the rating dictionary in place, is the method `ComputeTeamFdr`
  with its inner loop `CollectDifficulties`. `CollectDifficulties` is proved
  against the function `SideDifficulties`, and `ComputeTeamFdr` against the
  rating function `TeamFdr`. The lemmas state what that rating is.
- `scoring.dfy` (module `Scoring`) holds steps 4 to 6. Ranking is descending
  by score. A row without a score (its team has no rating) goes last, as
  `sort_values(ascending=False)` places NaN.
- `processor.dfy` (module `Processor`) holds the pipeline `ProcessData`. Its
  contract states the whole promise: the output is a permutation of the
  scores of exactly the eligible players, ranked.

Numbers are Dafny `real`, so means and weighted sums are exact.

Three choices follow the code exactly. Finished fixtures are filtered out.
A blank gameweek gets 5.0. A zero cost has no guard: the division at
`src/processor.py:63` is unguarded, so the model requires a positive cost
(see Left out).

## Model

| member | source | states |
|---|---|---|
| `Fixtures.NextGameweek` | src/processor.py:15-19 | the result is the id of the first event flagged next; when no event is flagged it is gameweek 1 |
| `Fixtures.UpcomingFixtures` | src/processor.py:23-27 | a fixture is kept exactly when it occurs in the input, is scheduled in gameweek gw, gw+1 or gw+2 and is not finished; a kept fixture keeps its multiplicity |
| `Fixtures.TeamsMap` | src/processor.py:31 | the keys are exactly the team ids of the rows |
| `Fixtures.TeamsMapLastRowWins` | src/processor.py:31 | a row whose id does not occur again later gives that id its name, so for a repeated id the last row wins |
| `Fixtures.RelevantMatches` | src/processor.py:36-39 | a window fixture is selected exactly when the team is its home or away side, and a selected fixture keeps its multiplicity |
| `Fixtures.SideDifficulties` | src/processor.py:41-47 | one difficulty per match, in match order: the home rating when the team is home, else the away rating |
| `Fixtures.CollectDifficulties` | src/processor.py:41-47 | the inner loop's list equals the side difficulties of the team's matches |
| `Fixtures.ComputeTeamFdr` | src/processor.py:32-51 | the dictionary has exactly one entry per team id, and each entry is that team's rating (`TeamFdr`) |
| `Fixtures.TeamDifficultiesAreSides` | src/processor.py:36-47 | every collected difficulty comes from a window fixture the team plays, and is the home rating when it is home, else the away rating |
| `Fixtures.ScheduledTeamFdr` | src/processor.py:51 | a team with at least one window fixture is rated by the arithmetic mean of its collected difficulties |
| `Fixtures.BlankGameweekFdr` | src/processor.py:49-51 | a team with no window fixture is rated exactly 5.0 |
| `Fixtures.TeamFdrOwnFixturesOnly` | src/processor.py:34-51 | placing fixture rows that the team does not play before or after the window's rows in the sequence leaves the team's rating unchanged |
| `Fixtures.TeamFdrOfRelevant` | src/processor.py:36-51 | rating a team over its own matches alone gives the same rating as over the whole window |
| `Fixtures.MeanWithinBounds` | src/processor.py:51 | a mean lies between any lower and upper bound of the values averaged |
| `Fixtures.TeamFdrInRange` | src/processor.py:34-51 | when all ratings are on the 1-5 scale, every team's FDR is in [1.0, 5.0] |
| `Fixtures.FdrTable` | src/processor.py:31-51 | the rating table has an entry for every team id of the teams table and for no other id, and each entry is that team's rating over the fixture window of the next gameweek |
| `Scoring.ScorePlayer` | src/processor.py:54-76 | cost times 10 is the raw cost; value times raw cost is 10 times the points; team name and FDR are present exactly when the team id is a key, and then equal the looked-up name and rating; the position is present exactly when the element type is 1 to 4, and is then GKP, DEF, MID or FWD respectively; the score is present exactly when the team has an FDR and then equals 0.5*form + 0.3*(5 - fdr) + 0.2*value |
| `Scoring.ScoreAll` | src/processor.py:54-76 | one scored row per player, in order: row i is the score of player i |
| `Scoring.AvailablePlayers` | src/processor.py:78-80 | a player row is kept exactly when it occurs in the input with status "a" and more than 450 minutes played, and a kept row keeps its multiplicity |
| `Scoring.ScoreAllMembers` | src/processor.py:54-72 | every scored row is the score of an input player, and every input player's score is a row |
| `Scoring.EasierFixturesScoreHigher` | src/processor.py:66-72 | with everything else equal, a lower FDR gives a strictly higher score |
| `Scoring.FilterAfterScoring` | src/processor.py:78-80 | filtering the scored rows by status and minutes equals scoring the filtered players |
| `Scoring.InsertKeepsRanking` | src/processor.py:82 | inserting a row into a ranked list keeps it ranked |
| `Scoring.SortByScore` | src/processor.py:82 | the result is a permutation of the input, ranked by descending score with unscored rows last |
| `Scoring.AdjacentRanking` | src/processor.py:82 | the list is ranked exactly when each row ranks at least as high as the next |
| `Processor.ProcessData` | src/processor.py:4-82 | the output is ranked and is a permutation of the scores of the players with status "a" and more than 450 minutes; every such player's score appears; every row is such a player's score over the teams' FDR table |
| `Processor.WorkedExample` | src/processor.py:34-72 | a team playing three window fixtures rated 2 (home), 3 (away) and 4 (home) is rated 3.0; a player of that team with form 5.0, cost 6.0 and 60 points then has value 10.0 and score 5.1 |

## Left out

- Fetching from the API (`src/fetcher.py`, `fetch_data.py`, and the two fetch calls at the top of `process_data`) is not modelled. The fetched tables are parameters of `ProcessData`.
- The dashboard in `src/app.py` is not modelled. This includes its price filter and styling. The `__main__` print block of `src/processor.py` is left out too.
- `pd.to_numeric` parsing of `form` and `total_points` is not modelled. These fields are numeric inputs, and a parse failure is library behaviour.
- Floating point is not modelled. The model uses exact reals, so no rounding appears in the mean or the score.
- Scoring.ScorePlayer: requires a positive `now_cost`. The source divides without a guard and would produce inf or NaN for a zero cost. This also applies to Scoring.ScoreAll, Scoring.FilterAfterScoring and Processor.ProcessData.
- Processor.ProcessData: an empty fixtures or players list makes pandas raise a missing-column error, because the frame has no columns. The model instead returns the natural result for empty tables (no fixtures: every team rated 5.0; no players: an empty list).
- Scoring.SortByScore: the order of equal scores is left open. The library's default sort is not stable, and the model's insertion sort is one admissible order.
- The source overwrites the `form`, `total_points` and `now_cost` columns in place (`src/processor.py:58-60`), so its output holds the cost in millions under `now_cost`. The model keeps the row as read in `ScoredPlayer.player`, with the cost still in tenths and `form` and `total_points` already numeric, and puts the overwritten cost column in `ScoredPlayer.cost`.
- Only the columns that the pipeline reads or adds are modelled. The other API fields, and the data-frame index labels, are not.
