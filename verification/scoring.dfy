/** Steps 4 to 6 of the scout: add the derived columns and the smart score
    to every player, keep the available regulars, and rank them. */
module Scoring {
  import opened Records
  import opened Seqs

  /** The columns the scout adds to one player row: team name, difficulty of
      the next three gameweeks, cost in millions, points per million, the
      smart score 0.5 * form + 0.3 * (5 - fdr) + 0.2 * value, and the
      position label. A team that has no rating gives no score. */
  function ScorePlayer(p: Player, teamsMap: map<int, string>, teamFdr: map<int, real>): (sp: ScoredPlayer)
    requires p.nowCost > 0
    ensures sp.player == p
    ensures sp.cost * 10.0 == p.nowCost as real
    ensures sp.value * p.nowCost as real == 10.0 * p.totalPoints as real
    ensures sp.teamName.Some? <==> p.team in teamsMap
    ensures sp.teamName.Some? ==> sp.teamName.value == teamsMap[p.team]
    ensures sp.nextFdr.Some? <==> p.team in teamFdr
    ensures sp.nextFdr.Some? ==> sp.nextFdr.value == teamFdr[p.team]
    ensures sp.position.Some? <==> 1 <= p.elementType <= 4
    ensures sp.position.Some? ==> sp.position.value == POSITION_MAP[p.elementType]
    ensures sp.smartScore.Some? <==> p.team in teamFdr
    ensures sp.smartScore.Some? ==>
              sp.smartScore.value == 0.5 * p.form + 0.3 * (5.0 - teamFdr[p.team]) + 0.2 * sp.value
  {
    var cost := p.nowCost as real / 10.0;
    var value := p.totalPoints as real / cost;
    assert value * cost == p.totalPoints as real;
    var fdr := Lookup(teamFdr, p.team);
    var score := if fdr.Some? then Some(p.form * 0.5 + (5.0 - fdr.value) * 0.3 + value * 0.2) else None;
    ScoredPlayer(p, Lookup(teamsMap, p.team), fdr, cost, value, score, Lookup(POSITION_MAP, p.elementType))
  }

  /** Every player row scored, in order. */
  function ScoreAll(players: seq<Player>, teamsMap: map<int, string>, teamFdr: map<int, real>): (scored: seq<ScoredPlayer>)
    requires forall p :: p in players ==> p.nowCost > 0
    ensures |scored| == |players|
    ensures forall i :: 0 <= i < |players| ==> scored[i] == ScorePlayer(players[i], teamsMap, teamFdr)
  {
    if players == [] then []
    else [ScorePlayer(players[0], teamsMap, teamFdr)] + ScoreAll(players[1..], teamsMap, teamFdr)
  }

  /** A scored row is the score of one of the players, and every player's score is a row. */
  lemma ScoreAllMembers(players: seq<Player>, teamsMap: map<int, string>, teamFdr: map<int, real>)
    requires forall p :: p in players ==> p.nowCost > 0
    ensures forall sp :: sp in ScoreAll(players, teamsMap, teamFdr) ==>
              sp.player in players && sp == ScorePlayer(sp.player, teamsMap, teamFdr)
    ensures forall p :: p in players ==> ScorePlayer(p, teamsMap, teamFdr) in ScoreAll(players, teamsMap, teamFdr)
  {
  }

  /** The mask of the final filter: available status and more than 450 minutes played. */
  predicate IsAvailable(p: Player)
  {
    p.status == AVAILABLE_STATUS && p.minutes > MIN_MINUTES
  }

  /** The rows the final filter keeps: exactly the available players with
      more than 450 minutes, each as often as it occurs, in input order. */
  function AvailablePlayers(players: seq<Player>): (kept: seq<Player>)
    ensures forall p :: p in kept <==> p in players && p.status == "a" && p.minutes > 450
    ensures forall p :: multiset(kept)[p] == if p.status == "a" && p.minutes > 450 then multiset(players)[p] else 0
  {
    FilterProperties(players, IsAvailable);
    Filter(players, IsAvailable)
  }

  /** The filter reads only raw player fields, so filtering the scored rows
      is scoring the filtered players. */
  lemma {:induction false} FilterAfterScoring(players: seq<Player>, teamsMap: map<int, string>, teamFdr: map<int, real>)
    requires forall p :: p in players ==> p.nowCost > 0
    ensures forall p :: p in AvailablePlayers(players) ==> p.nowCost > 0
    ensures Filter(ScoreAll(players, teamsMap, teamFdr), (sp: ScoredPlayer) => IsAvailable(sp.player))
            == ScoreAll(AvailablePlayers(players), teamsMap, teamFdr)
  {
    FilterProperties(players, IsAvailable);
    if players != [] {
      FilterAfterScoring(players[1..], teamsMap, teamFdr);
      var scored := ScoreAll(players, teamsMap, teamFdr);
      assert scored[0] == ScorePlayer(players[0], teamsMap, teamFdr);
      assert scored[1..] == ScoreAll(players[1..], teamsMap, teamFdr);
      if IsAvailable(players[0]) {
        var kept := Filter(players, IsAvailable);
        assert kept == [players[0]] + Filter(players[1..], IsAvailable);
        assert kept[0] == players[0] && kept[1..] == Filter(players[1..], IsAvailable);
      } else {
        assert Filter(players, IsAvailable) == [] + Filter(players[1..], IsAvailable);
      }
    }
  }

  // Ranking: descending by smart score, rows without a score last.

  /** `a` may be ranked before `b`. */
  predicate RanksAtLeast(a: Option<real>, b: Option<real>)
  {
    b.None? || (a.Some? && a.value >= b.value)
  }

  predicate SortedByScore(s: seq<ScoredPlayer>)
  {
    forall i, j :: 0 <= i < j < |s| ==> RanksAtLeast(s[i].smartScore, s[j].smartScore)
  }

  /** Insert a row into a ranked list, before the first row it ranks at least as high as. */
  function InsertByScore(x: ScoredPlayer, s: seq<ScoredPlayer>): (r: seq<ScoredPlayer>)
    ensures multiset(r) == multiset(s) + multiset{x}
  {
    if s == [] then [x]
    else if RanksAtLeast(x.smartScore, s[0].smartScore) then [x] + s
    else
      assert s == [s[0]] + s[1..];
      [s[0]] + InsertByScore(x, s[1..])
  }

  lemma {:induction false} InsertKeepsRanking(x: ScoredPlayer, s: seq<ScoredPlayer>)
    requires SortedByScore(s)
    ensures SortedByScore(InsertByScore(x, s))
  {
    if s != [] && !RanksAtLeast(x.smartScore, s[0].smartScore) {
      var tail := s[1..];
      assert SortedByScore(tail) by {
        forall i, j | 0 <= i < j < |tail|
          ensures RanksAtLeast(tail[i].smartScore, tail[j].smartScore)
        {
          assert tail[i] == s[i + 1] && tail[j] == s[j + 1];
        }
      }
      InsertKeepsRanking(x, tail);
      var rest := InsertByScore(x, tail);
      forall j | 0 <= j < |rest|
        ensures RanksAtLeast(s[0].smartScore, rest[j].smartScore)
      {
        var y := rest[j];
        assert y in multiset(rest);
        if y != x {
          assert y in multiset(tail);
          var k :| 0 <= k < |tail| && tail[k] == y;
          assert s[k + 1] == y;
        }
      }
      var r := InsertByScore(x, s);
      assert r == [s[0]] + rest;
      forall i, j | 0 <= i < j < |r|
        ensures RanksAtLeast(r[i].smartScore, r[j].smartScore)
      {
        assert r[j] == rest[j - 1];
        if i > 0 {
          assert r[i] == rest[i - 1];
        }
      }
    }
  }

  /** The rows ranked by descending smart score; the order of ties is left open. */
  function SortByScore(s: seq<ScoredPlayer>): (r: seq<ScoredPlayer>)
    ensures SortedByScore(r)
    ensures multiset(r) == multiset(s)
  {
    if s == [] then []
    else
      assert s == [s[0]] + s[1..];
      InsertKeepsRanking(s[0], SortByScore(s[1..]));
      InsertByScore(s[0], SortByScore(s[1..]))
  }

  /** Each row ranks at least as high as the next exactly when the whole list is ranked. */
  lemma {:induction false} AdjacentRanking(s: seq<ScoredPlayer>)
    ensures SortedByScore(s) <==>
            forall i :: 0 <= i < |s| - 1 ==> RanksAtLeast(s[i].smartScore, s[i + 1].smartScore)
  {
    if |s| > 1 && forall i :: 0 <= i < |s| - 1 ==> RanksAtLeast(s[i].smartScore, s[i + 1].smartScore) {
      AdjacentRanking(s[1..]);
      var tail := s[1..];
      forall i | 0 <= i < |tail| - 1
        ensures RanksAtLeast(tail[i].smartScore, tail[i + 1].smartScore)
      {
        assert tail[i] == s[i + 1] && tail[i + 1] == s[i + 2];
      }
      forall i, j | 0 <= i < j < |s|
        ensures RanksAtLeast(s[i].smartScore, s[j].smartScore)
      {
        if i > 0 {
          assert s[i] == s[1..][i - 1] && s[j] == s[1..][j - 1];
        } else if j > 1 {
          assert s[1] == s[1..][0] && s[j] == s[1..][j - 1];
        }
      }
    }
  }

  /** A lower difficulty rating gives a higher score: the rating enters the score inverted. */
  lemma EasierFixturesScoreHigher(p: Player, teamsMap: map<int, string>, easier: map<int, real>, harder: map<int, real>)
    requires p.nowCost > 0
    requires p.team in easier && p.team in harder && easier[p.team] < harder[p.team]
    ensures ScorePlayer(p, teamsMap, easier).smartScore.value > ScorePlayer(p, teamsMap, harder).smartScore.value
  {
  }
}
