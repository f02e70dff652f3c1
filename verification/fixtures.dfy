/** Steps 1 to 3 of the scout: pick the next gameweek, keep the unfinished
    fixtures of that gameweek and the two after it, and give every team the
    mean difficulty of its fixtures in that window. */
module Fixtures {
  import opened Records
  import opened Seqs

  /** The id of the first event flagged as next, or the default gameweek
      when no event is flagged. */
  function NextGameweek(events: seq<Event>): (gw: int)
    ensures (forall i :: 0 <= i < |events| ==> !events[i].isNext) ==> gw == DEFAULT_GAMEWEEK
    ensures forall i :: 0 <= i < |events| && events[i].isNext && (forall j :: 0 <= j < i ==> !events[j].isNext) ==>
                          gw == events[i].id
  {
    if events == [] then DEFAULT_GAMEWEEK
    else if events[0].isNext then events[0].id
    else
      assert forall i :: 1 <= i < |events| ==> events[i] == events[1..][i - 1];
      NextGameweek(events[1..])
  }

  /** The window test: scheduled in gameweek gw, gw + 1 or gw + 2 and not finished. */
  predicate InWindow(f: Fixture, gw: int)
  {
    f.event.Some? && f.event.value in {gw, gw + 1, gw + 2} && !f.finished
  }

  /** The fixtures that decide the difficulty: those in the window, each as
      often as it occurs in the input. */
  function UpcomingFixtures(fixtures: seq<Fixture>, gw: int): (upcoming: seq<Fixture>)
    ensures forall f :: f in upcoming <==>
                          f in fixtures && f.event.Some? && gw <= f.event.value <= gw + 2 && !f.finished
    ensures forall f :: multiset(upcoming)[f] == if InWindow(f, gw) then multiset(fixtures)[f] else 0
  {
    FilterProperties(fixtures, f => InWindow(f, gw));
    Filter(fixtures, f => InWindow(f, gw))
  }

  /** Team id to team name; for a repeated id the later row wins, as in a
      dictionary built by a comprehension. */
  function TeamsMap(teams: seq<Team>): (m: map<int, string>)
    ensures m.Keys == set t | t in teams :: t.id
  {
    if teams == [] then map[]
    else
      var init := teams[..|teams| - 1];
      var last := teams[|teams| - 1];
      assert teams == init + [last];
      assert forall i :: 0 <= i < |init| ==> init[i] == teams[i];
      TeamsMap(init)[last.id := last.name]
  }

  /** A row whose id does not occur again later gives that id its name. */
  lemma {:induction false} TeamsMapLastRowWins(teams: seq<Team>, i: int)
    requires 0 <= i < |teams|
    requires forall j :: i < j < |teams| ==> teams[j].id != teams[i].id
    ensures teams[i].id in TeamsMap(teams) && TeamsMap(teams)[teams[i].id] == teams[i].name
  {
    if i < |teams| - 1 {
      var init := teams[..|teams| - 1];
      assert init[i] == teams[i];
      TeamsMapLastRowWins(init, i);
    }
  }

  predicate Involves(f: Fixture, team: int)
  {
    f.teamH == team || f.teamA == team
  }

  /** The fixtures in which the team plays, at home or away. */
  function RelevantMatches(upcoming: seq<Fixture>, team: int): (relevant: seq<Fixture>)
    ensures forall f :: f in relevant <==> f in upcoming && (f.teamH == team || f.teamA == team)
    ensures forall f :: multiset(relevant)[f] == if Involves(f, team) then multiset(upcoming)[f] else 0
  {
    FilterProperties(upcoming, f => Involves(f, team));
    Filter(upcoming, f => Involves(f, team))
  }

  /** The difficulty of a fixture for the team: the home rating when the
      team is the home side, the away rating otherwise. */
  function SideDifficulty(f: Fixture, team: int): int
  {
    if f.teamH == team then f.teamHDifficulty else f.teamADifficulty
  }

  /** The difficulties the team collects from its matches, in match order. */
  function SideDifficulties(matches: seq<Fixture>, team: int): (ds: seq<int>)
    ensures |ds| == |matches|
    ensures forall k :: 0 <= k < |matches| ==>
                          ds[k] == (if matches[k].teamH == team then matches[k].teamHDifficulty
                                    else matches[k].teamADifficulty)
  {
    if matches == [] then []
    else SideDifficulties(matches[..|matches| - 1], team) + [SideDifficulty(matches[|matches| - 1], team)]
  }

  function TeamDifficulties(upcoming: seq<Fixture>, team: int): seq<int>
  {
    SideDifficulties(RelevantMatches(upcoming, team), team)
  }

  function Sum(ds: seq<int>): int
  {
    if ds == [] then 0 else Sum(ds[..|ds| - 1]) + ds[|ds| - 1]
  }

  /** Arithmetic mean, exact over the reals. */
  function Mean(ds: seq<int>): real
    requires |ds| > 0
  {
    Sum(ds) as real / |ds| as real
  }

  /** The fixture difficulty rating of a team over the window: the mean of
      its collected difficulties, or the blank-gameweek default. */
  function TeamFdr(upcoming: seq<Fixture>, team: int): real
  {
    var ds := TeamDifficulties(upcoming, team);
    if |ds| > 0 then Mean(ds) else BLANK_GAMEWEEK_FDR
  }

  /** The inner loop: walk the team's matches and append the difficulty of
      the side it plays on. */
  method CollectDifficulties(relevant: seq<Fixture>, teamId: int) returns (difficulties: seq<int>)
    ensures difficulties == SideDifficulties(relevant, teamId)
  {
    difficulties := [];
    var i := 0;
    while i < |relevant|
      invariant 0 <= i <= |relevant|
      invariant difficulties == SideDifficulties(relevant[..i], teamId)
    {
      assert relevant[..i + 1][..i] == relevant[..i];
      if relevant[i].teamH == teamId {
        difficulties := difficulties + [relevant[i].teamHDifficulty];
      } else {
        difficulties := difficulties + [relevant[i].teamADifficulty];
      }
      i := i + 1;
    }
    assert relevant[..i] == relevant;
  }

  /** The outer loop: rate every team id in turn and store the rating. */
  method ComputeTeamFdr(teamIds: set<int>, upcoming: seq<Fixture>) returns (teamFdr: map<int, real>)
    ensures teamFdr.Keys == teamIds
    ensures forall t :: t in teamIds ==> teamFdr[t] == TeamFdr(upcoming, t)
  {
    teamFdr := map[];
    var remaining := teamIds;
    while remaining != {}
      invariant remaining <= teamIds
      invariant teamFdr.Keys == teamIds - remaining
      invariant forall t :: t in teamFdr ==> teamFdr[t] == TeamFdr(upcoming, t)
      decreases |remaining|
    {
      // A ghost witness that `remaining` has a member, for the such-that below.
      ghost var member := MemberOf(remaining);
      var teamId :| teamId in remaining;
      var relevant := RelevantMatches(upcoming, teamId);
      var difficulties := CollectDifficulties(relevant, teamId);
      teamFdr := teamFdr[teamId := if |difficulties| > 0 then Mean(difficulties) else BLANK_GAMEWEEK_FDR];
      remaining := remaining - {teamId};
    }
  }

  /** The rating table the scout builds: every team of the teams table
      rated over the window of the next gameweek. */
  function FdrTable(events: seq<Event>, fixtures: seq<Fixture>, teams: seq<Team>): (table: map<int, real>)
    ensures forall t :: t in table <==> exists team :: team in teams && team.id == t
    ensures forall t :: t in table ==> table[t] == TeamFdr(UpcomingFixtures(fixtures, NextGameweek(events)), t)
  {
    var upcoming := UpcomingFixtures(fixtures, NextGameweek(events));
    map t | t in TeamsMap(teams).Keys :: TeamFdr(upcoming, t)
  }

  // Properties of the rating.

  /** Every collected difficulty is the correct side's rating of a match the team plays. */
  lemma TeamDifficultiesAreSides(upcoming: seq<Fixture>, team: int)
    ensures var relevant := RelevantMatches(upcoming, team);
            var ds := TeamDifficulties(upcoming, team);
            |ds| == |relevant| &&
            forall k :: 0 <= k < |ds| ==>
              relevant[k] in upcoming &&
              (relevant[k].teamH == team ==> ds[k] == relevant[k].teamHDifficulty) &&
              (relevant[k].teamH != team ==> relevant[k].teamA == team && ds[k] == relevant[k].teamADifficulty)
  {
  }

  /** A team with at least one fixture in the window is rated by the mean of its difficulties. */
  lemma ScheduledTeamFdr(upcoming: seq<Fixture>, team: int)
    requires exists f :: f in upcoming && Involves(f, team)
    ensures |TeamDifficulties(upcoming, team)| > 0
    ensures TeamFdr(upcoming, team) == Mean(TeamDifficulties(upcoming, team))
  {
  }

  /** A team with no fixture in the window gets the blank-gameweek default. */
  lemma BlankGameweekFdr(upcoming: seq<Fixture>, team: int)
    requires forall f :: f in upcoming ==> !(f.teamH == team || f.teamA == team)
    ensures TeamFdr(upcoming, team) == 5.0
  {
  }

  /** A team's rating depends on its own fixtures only: the fixtures of
      other teams, however many, do not change it. */
  lemma TeamFdrOwnFixturesOnly(upcoming: seq<Fixture>, others: seq<Fixture>, team: int)
    requires forall f :: f in others ==> !Involves(f, team)
    ensures TeamFdr(upcoming + others, team) == TeamFdr(upcoming, team)
    ensures TeamFdr(others + upcoming, team) == TeamFdr(upcoming, team)
  {
    FilterAppendRejected(upcoming, others, f => Involves(f, team));
    FilterPrependRejected(upcoming, others, f => Involves(f, team));
  }

  /** Filtering the window again to the team's own matches changes nothing. */
  lemma TeamFdrOfRelevant(upcoming: seq<Fixture>, team: int)
    ensures TeamFdr(RelevantMatches(upcoming, team), team) == TeamFdr(upcoming, team)
  {
    FilterIdempotent(upcoming, f => Involves(f, team));
  }

  lemma {:induction false} SumBounds(ds: seq<int>, lo: int, hi: int)
    requires forall k :: 0 <= k < |ds| ==> lo <= ds[k] <= hi
    ensures lo * |ds| <= Sum(ds) <= hi * |ds|
  {
    if ds != [] {
      SumBounds(ds[..|ds| - 1], lo, hi);
      assert lo * |ds| == lo * (|ds| - 1) + lo;
      assert hi * |ds| == hi * (|ds| - 1) + hi;
    }
  }

  lemma QuotientAtLeast(a: real, b: real, c: real)
    requires c > 0.0 && a * c <= b
    ensures a <= b / c
  {
  }

  lemma QuotientAtMost(a: real, b: real, c: real)
    requires c > 0.0 && b <= a * c
    ensures b / c <= a
  {
  }

  /** A mean lies between any lower and upper bound of the values averaged. */
  lemma MeanWithinBounds(ds: seq<int>, lo: int, hi: int)
    requires |ds| > 0
    requires forall k :: 0 <= k < |ds| ==> lo <= ds[k] <= hi
    ensures lo as real <= Mean(ds) <= hi as real
  {
    SumBounds(ds, lo, hi);
    var n := |ds|;
    assert (lo * n) as real == lo as real * n as real;
    assert (hi * n) as real == hi as real * n as real;
    QuotientAtLeast(lo as real, Sum(ds) as real, n as real);
    QuotientAtMost(hi as real, Sum(ds) as real, n as real);
  }

  /** When every rating in the window is on the 1-5 scale, so is every team's rating. */
  lemma TeamFdrInRange(upcoming: seq<Fixture>, team: int)
    requires forall f :: f in upcoming ==> 1 <= f.teamHDifficulty <= 5 && 1 <= f.teamADifficulty <= 5
    ensures 1.0 <= TeamFdr(upcoming, team) <= 5.0
  {
    var ds := TeamDifficulties(upcoming, team);
    if |ds| > 0 {
      TeamDifficultiesAreSides(upcoming, team);
      MeanWithinBounds(ds, 1, 5);
    }
  }
}
