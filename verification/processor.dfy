/** The whole scout pipeline over already fetched data: the events, fixtures,
    teams and players tables come in as parameters, the ranked recommendation
    list goes out. */
module Processor {
  import opened Records
  import opened Seqs
  import opened Fixtures
  import opened Scoring

  /** Pick the gameweek, rate every team over the next three gameweeks,
      score every player, keep the available regulars and rank them.
      The result is a permutation of the scores of exactly the available
      players with more than 450 minutes, ranked by descending score with
      unscored rows last. */
  method ProcessData(events: seq<Event>, fixtures: seq<Fixture>, teams: seq<Team>, players: seq<Player>)
    returns (ranked: seq<ScoredPlayer>)
    requires forall p :: p in players ==> p.nowCost > 0
    ensures SortedByScore(ranked)
    ensures forall p :: p in AvailablePlayers(players) ==> p.nowCost > 0
    ensures multiset(ranked) ==
            multiset(ScoreAll(AvailablePlayers(players), TeamsMap(teams), FdrTable(events, fixtures, teams)))
    ensures forall sp :: sp in ranked ==>
              sp.player in players && sp.player.status == "a" && sp.player.minutes > 450 &&
              sp == ScorePlayer(sp.player, TeamsMap(teams), FdrTable(events, fixtures, teams))
    ensures forall p :: p in players && p.status == "a" && p.minutes > 450 ==>
              ScorePlayer(p, TeamsMap(teams), FdrTable(events, fixtures, teams)) in ranked
  {
    var currentGw := NextGameweek(events);
    var upcoming := UpcomingFixtures(fixtures, currentGw);
    var teamsMap := TeamsMap(teams);
    var teamFdr := ComputeTeamFdr(teamsMap.Keys, upcoming);
    assert teamFdr == FdrTable(events, fixtures, teams);
    var scored := ScoreAll(players, teamsMap, teamFdr);
    var res := Filter(scored, (sp: ScoredPlayer) => IsAvailable(sp.player));
    ranked := SortByScore(res);

    FilterAfterScoring(players, teamsMap, teamFdr);
    var kept := AvailablePlayers(players);
    ScoreAllMembers(kept, teamsMap, teamFdr);
    SameMembers(ranked, ScoreAll(kept, teamsMap, teamFdr));
  }

  /** Two lists that are permutations of each other hold the same rows. */
  lemma SameMembers(s: seq<ScoredPlayer>, t: seq<ScoredPlayer>)
    requires multiset(s) == multiset(t)
    ensures forall x :: x in s <==> x in t
  {
    forall x
      ensures x in s <==> x in t
    {
      assert x in s <==> x in multiset(s);
      assert x in t <==> x in multiset(t);
    }
  }

  /** The window of the worked example: team 1 plays at home rated 2, away
      rated 3 and at home rated 4. */
  const EXAMPLE_WINDOW: seq<Fixture> :=
    [Fixture(Some(5), 1, 2, 2, 9, false), Fixture(Some(6), 3, 1, 9, 3, false), Fixture(Some(7), 1, 4, 4, 9, false)]

  /** Team 1 plays every fixture of the example window. */
  lemma ExampleMatches()
    ensures RelevantMatches(EXAMPLE_WINDOW, 1) == EXAMPLE_WINDOW
  {
    var u := EXAMPLE_WINDOW;
    var keep := f => Involves(f, 1);
    assert Filter(u[3..], keep) == [];
    assert Filter(u[2..], keep) == [u[2]];
    assert Filter(u[1..], keep) == [u[1], u[2]];
  }

  /** Home, away, home: the collected difficulties are 2, 3 and 4. */
  lemma ExampleDifficulties()
    ensures TeamDifficulties(EXAMPLE_WINDOW, 1) == [2, 3, 4]
  {
    ExampleMatches();
  }

  /** 2, 3 and 4 average to 3.0. */
  lemma ExampleMean()
    ensures Mean([2, 3, 4]) == 3.0
  {
    var ds := [2, 3, 4];
    assert ds[..2] == [2, 3] && [2, 3][..1] == [2] && [2][..0] == [];
    assert Sum(ds) == 9;
  }

  /** Team 1's rating over the example window is 3.0. */
  lemma ExampleFdr()
    ensures TeamFdr(EXAMPLE_WINDOW, 1) == 3.0
  {
    ExampleDifficulties();
    ExampleMean();
  }

  /** The worked example of the rating and the scoring rule: team 1's three
      window difficulties 2, 3 and 4 give it the rating 3.0; a player of that
      team with form 5.0, cost 6.0 and 60 points then has value 10.0 and
      smart score 5.1. */
  lemma WorkedExample()
    ensures var fdr := TeamFdr(EXAMPLE_WINDOW, 1);
            var p := Player(7, "Example", 1, 3, 60, 5.0, 60, 900, "a");
            var sp := ScorePlayer(p, map[1 := "Team"], map[1 := fdr]);
            fdr == 3.0 && sp.cost == 6.0 && sp.value == 10.0 && sp.smartScore == Some(5.1)
  {
    ExampleFdr();
  }
}
