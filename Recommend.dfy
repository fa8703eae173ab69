/** `find_best_odds` (predictor.py:813-988): a spread play on the side the
    confidence scores point to, and the single best totals play chosen from
    the teams' offensive and defensive efficiency. */
module Recommend {
  import opened Common
  import opened Dict
  import Odds

  datatype Recommendation = Recommendation(kind: string, bet: string, odds: real, confidence: int, explanation: string)

  /** What `find_best_odds` reads from the analysis: the confidence scores,
      the two team names, the advantage lists and, when present, the stats
      of each team. */
  datatype GameAnalysis = GameAnalysis(
    scores: Dict<int>,
    homeTeam: string,
    awayTeam: string,
    advantages: Dict<seq<string>>,
    teamStats: Option<seq<Dict<Scalar>>>)

  // ---------------------------------------------------------------------
  // The favourite and the side to back
  // ---------------------------------------------------------------------

  /** The position of `max(scores.items(), key=score)`: the first entry
      with the largest score. */
  function FavouriteIndex(scores: Dict<int>): (i: nat)
    requires |scores| > 0
    ensures i < |scores|
    ensures forall j :: 0 <= j < |scores| ==> scores[j].1 <= scores[i].1
    ensures forall j :: 0 <= j < i ==> scores[j].1 < scores[i].1
    decreases |scores|
  {
    if |scores| == 1 then 0
    else
      var i := FavouriteIndex(scores[..|scores| - 1]);
      if scores[|scores| - 1].1 > scores[i].1 then |scores| - 1 else i
  }

  /** The side label to look for and the team it backs: the favourite's
      side above 55, the underdog's otherwise. A favourite that is not the
      home team counts as the away team. */
  function Backed(home: string, away: string, favourite: string, favConf: int): (string, string)
  {
    var favIsHome := favourite == home;
    var underdog := if favIsHome then away else home;
    if favConf > 55 then (if favIsHome then "Home" else "Away", favourite)
    else (if favIsHome then "Away" else "Home", underdog)
  }

  /** For two distinct teams, one of which is the favourite, the label
      names the backed team's side, and the favourite is backed exactly
      when its confidence is above 55. */
  lemma BackedSide(home: string, away: string, favourite: string, favConf: int)
    requires home != away && (favourite == home || favourite == away)
    ensures var (side, team) := Backed(home, away, favourite, favConf);
      (side == "Home" && team == home) || (side == "Away" && team == away)
    ensures (Backed(home, away, favourite, favConf).1 == favourite) <==> favConf > 55
  {
  }

  // ---------------------------------------------------------------------
  // The best spread line
  // ---------------------------------------------------------------------

  /** The position of the line `find_best_odds` keeps: a line whose label
      contains the side replaces the best so far when there is none, when
      the best odd is 0.0 (falsy), or when its odd is higher. */
  function BestLine(lines: Dict<real>, side: string): (r: Option<nat>)
    ensures r.Some? ==> r.value < |lines| && Contains(lines[r.value].0, side)
    ensures r.None? <==> forall j :: 0 <= j < |lines| ==> !Contains(lines[j].0, side)
    decreases |lines|
  {
    if |lines| == 0 then None
    else
      var b := BestLine(lines[..|lines| - 1], side);
      var last := lines[|lines| - 1];
      if Contains(last.0, side) && (b.None? || lines[b.value].1 == 0.0 || last.1 > lines[b.value].1) then
        Some(|lines| - 1)
      else b
  }

  predicate Qualifies(lines: Dict<real>, side: string, j: int)
  {
    0 <= j < |lines| && Contains(lines[j].0, side)
  }

  /** With no zero odds on the side, the kept line has the highest odd of
      the side, and every earlier line of the side pays strictly less. */
  lemma {:induction false} BestLineHighest(lines: Dict<real>, side: string)
    requires forall j :: Qualifies(lines, side, j) ==> lines[j].1 != 0.0
    ensures BestLine(lines, side).Some? ==>
      var b := BestLine(lines, side).value;
      (forall j :: Qualifies(lines, side, j) ==> lines[j].1 <= lines[b].1) &&
      (forall j :: Qualifies(lines, side, j) && j < b ==> lines[j].1 < lines[b].1)
    decreases |lines|
  {
    if |lines| > 0 {
      var n := |lines| - 1;
      var init := lines[..n];
      forall j | Qualifies(init, side, j) ensures Qualifies(lines, side, j) && init[j] == lines[j] {
      }
      BestLineHighest(init, side);
      var b0 := BestLine(init, side);
      if BestLine(lines, side).Some? {
        var b := BestLine(lines, side).value;
        forall j | Qualifies(lines, side, j) && j < n
          ensures Qualifies(init, side, j) && b0.Some? && lines[j].1 <= lines[b0.value].1
        {
          assert init[j] == lines[j];
        }
        if b == n {
          forall j | Qualifies(lines, side, j) && j < n ensures lines[j].1 < lines[n].1 {
            assert lines[b0.value] == init[b0.value];
          }
        } else {
          assert b0 == Some(b) && init[b] == lines[b];
          forall j | Qualifies(lines, side, j) && j < b ensures lines[j].1 < lines[b].1 {
            assert init[j] == lines[j];
          }
        }
      }
    }
  }

  /** The best line for a side, one line at a time. */
  method FindBestLine(lines: Dict<real>, side: string) returns (best: Option<nat>)
    ensures best == BestLine(lines, side)
  {
    best := None;
    var bestOdd: real := 0.0;
    for i := 0 to |lines|
      invariant best == BestLine(lines[..i], side)
      invariant best.Some? ==> best.value < i && bestOdd == lines[best.value].1
    {
      assert lines[..i + 1][..i] == lines[..i];
      var (text, odd) := lines[i];
      if Contains(text, side) && (best.None? || bestOdd == 0.0 || odd > bestOdd) {
        best := Some(i);
        bestOdd := odd;
      }
    }
    assert lines[..|lines|] == lines;
  }

  // ---------------------------------------------------------------------
  // The spread recommendation
  // ---------------------------------------------------------------------

  /** What one advantage contributes to the explanation: the text before
      its first colon, in lower case. */
  function Cited(adv: string): string
  {
    Lower(Split(adv, ':')[0])
  }

  /** The cited parts of the first two advantages. */
  function CitedList(advs: seq<string>): (r: seq<string>)
    ensures |r| == Min(2, |advs|)
    ensures forall i :: 0 <= i < |r| ==> r[i] == Cited(advs[i])
  {
    var firstTwo := if |advs| <= 2 then advs else advs[..2];
    seq(|firstTwo|, i requires 0 <= i < |firstTwo| => Cited(firstTwo[i]))
  }

  /** The explanation of a spread play; "shows" drops its `s` after a team
      name ending in `S`. */
  function Explanation(team: string, advs: seq<string>): string
  {
    if |advs| == 0 then "Value found backing " + team + " at current line"
    else
      team + " show" + (if |team| > 0 && team[|team| - 1] == 'S' then "" else "s") +
      " significant advantages in " + Join(CitedList(advs), ", ")
  }

  /** The explanation cites the first two advantages, each without the
      colon and what follows it. */
  lemma ExplanationCites(team: string, advs: seq<string>)
    ensures forall i :: 0 <= i < Min(2, |advs|) ==> Contains(Explanation(team, advs), Cited(advs[i]))
    ensures forall i :: 0 <= i < Min(2, |advs|) ==> ':' !in Cited(advs[i])
  {
    if |advs| > 0 {
      var head := team + " show" + (if |team| > 0 && team[|team| - 1] == 'S' then "" else "s") +
        " significant advantages in ";
      var cs := CitedList(advs);
      assert Explanation(team, advs) == head + Join(cs, ", ");
      JoinCitesBoth(head, cs);
    }
    forall i | 0 <= i < Min(2, |advs|)
      ensures ':' !in Cited(advs[i])
    {
      CitedNoColon(advs[i]);
    }
  }

  /** A text ending in the join of one or two cited parts contains each. */
  lemma JoinCitesBoth(head: string, cs: seq<string>)
    requires 1 <= |cs| <= 2
    ensures forall i :: 0 <= i < |cs| ==> Contains(head + Join(cs, ", "), cs[i])
  {
    if |cs| == 1 {
      assert Join(cs, ", ") == cs[0];
      assert head + Join(cs, ", ") == head + cs[0] + "";
      ContainsInside(head, cs[0], "");
    } else {
      assert cs[1..] == [cs[1]];
      assert Join(cs, ", ") == cs[0] + ", " + cs[1];
      var t := head + Join(cs, ", ");
      assert t == head + cs[0] + (", " + cs[1]);
      ContainsInside(head, cs[0], ", " + cs[1]);
      assert t == (head + cs[0] + ", ") + cs[1] + "";
      ContainsInside(head + cs[0] + ", ", cs[1], "");
    }
  }

  lemma CitedNoColon(adv: string)
    ensures ':' !in Cited(adv)
  {
    var piece := Split(adv, ':')[0];
    assert ':' !in piece;
    assert forall k :: 0 <= k < |piece| ==> Cited(adv)[k] == LowerChar(piece[k]);
  }

  /** The play's confidence: `min(75, fav)` when the favourite is backed,
      `min(65, team_scores[team] + 5)` otherwise; `None` when that lookup
      raises `KeyError`. */
  function RecConfidence(team: string, favourite: string, favConf: int, scores: Dict<int>): Option<int>
  {
    if team == favourite then Some(Min(75, favConf))
    else
      match Get(scores, team)
      case None => None
      case Some(s) => Some(Min(65, s + 5))
  }

  /** A backed favourite's play is capped at 75 and keeps a confidence
      above 55; an underdog's play is capped at 65 and sits five points
      above the underdog's score when below the cap; the lookup fails
      exactly for an underdog without a score. */
  lemma RecConfidenceCaps(team: string, favourite: string, favConf: int, scores: Dict<int>)
    ensures RecConfidence(team, favourite, favConf, scores).None? <==> team != favourite && team !in Keys(scores)
    ensures team == favourite && favConf > 55 ==>
      55 < RecConfidence(team, favourite, favConf, scores).value <= 75
    ensures team != favourite && team in Keys(scores) ==>
      var c := RecConfidence(team, favourite, favConf, scores).value;
      c <= 65 && (c < 65 ==> c == Get(scores, team).value + 5)
  {
  }

  /** The spread part of `find_best_odds` for a non-empty score table:
      `Some([])` when there is no spread market, no favourite name or no
      line on the side, `None` when the score lookup raises. */
  function SpreadPlay(a: GameAnalysis, odds: Dict<Dict<real>>): Option<seq<Recommendation>>
    requires |a.scores| > 0
  {
    var (favourite, favConf) := a.scores[FavouriteIndex(a.scores)];
    match Get(odds, "spread")
    case None => Some([])
    case Some(lines) =>
      if |lines| == 0 || |favourite| == 0 then Some([])
      else
        var (side, team) := Backed(Upper(a.homeTeam), Upper(a.awayTeam), favourite, favConf);
        match BestLine(lines, side)
        case None => Some([])
        case Some(b) =>
          var advs := match Get(a.advantages, team) case None => [] case Some(v) => v;
          match RecConfidence(team, favourite, favConf, a.scores)
          case None => None
          case Some(c) => Some([Recommendation("Spread", lines[b].0, lines[b].1, c, Explanation(team, advs))])
  }

  // ---------------------------------------------------------------------
  // Efficiency ratings
  // ---------------------------------------------------------------------

  /** A metric's normaliser: `x / divisor`, or `(100 - x) / divisor`. */
  datatype Norm = Norm(metric: string, complement: bool, divisor: real)

  const OffensiveNorms: seq<Norm> := [
    Norm("yards_per_play", false, 10.0),
    Norm("third_down_pct", false, 100.0),
    Norm("redzone_pct", false, 100.0),
    Norm("yards_per_pass", false, 15.0)]

  const DefensiveNorms: seq<Norm> := [
    Norm("points_against", true, 100.0),
    Norm("turnovers", false, 4.0),
    Norm("sacks", false, 5.0)]

  function Normalized(n: Norm, x: real): real
    requires n.divisor != 0.0
  {
    (if n.complement then 100.0 - x else x) / n.divisor
  }

  /** One normaliser applied to one team's stats: nothing when the metric
      is absent or `float()` rejects its value. */
  function Contribution(stats: Dict<Scalar>, n: Norm): Option<real>
    requires n.divisor != 0.0
  {
    match Get(stats, n.metric)
    case None => None
    case Some(v) =>
      match Float(v)
      case None => None
      case Some(x) => Some(Normalized(n, x))
  }

  predicate NonZeroDivisors(norms: seq<Norm>)
  {
    forall k :: 0 <= k < |norms| ==> norms[k].divisor != 0.0
  }

  /** The values one team contributes, metric by metric. */
  function TeamRatings(stats: Dict<Scalar>, norms: seq<Norm>): seq<real>
    requires NonZeroDivisors(norms)
    decreases |norms|
  {
    if |norms| == 0 then []
    else
      var c := Contribution(stats, norms[|norms| - 1]);
      TeamRatings(stats, norms[..|norms| - 1]) + (if c.Some? then [c.value] else [])
  }

  /** The values all teams contribute, team by team. */
  function Ratings(teams: seq<Dict<Scalar>>, norms: seq<Norm>): seq<real>
    requires NonZeroDivisors(norms)
    decreases |teams|
  {
    if |teams| == 0 then []
    else Ratings(teams[..|teams| - 1], norms) + TeamRatings(teams[|teams| - 1], norms)
  }

  /** `rating / count if count > 0 else 0.5`. */
  function Average(xs: seq<real>): real
  {
    if |xs| > 0 then Mean(xs) else 0.5
  }

  /** Every contribution is one normaliser applied to a value of a team
      that carries that metric. */
  lemma {:induction false} TeamRatingsFrom(stats: Dict<Scalar>, norms: seq<Norm>)
    requires NonZeroDivisors(norms)
    ensures |TeamRatings(stats, norms)| <= |norms|
    ensures forall x :: x in TeamRatings(stats, norms) ==>
      exists k :: 0 <= k < |norms| && Contribution(stats, norms[k]) == Some(x)
    decreases |norms|
  {
    if |norms| > 0 {
      TeamRatingsFrom(stats, norms[..|norms| - 1]);
    }
  }

  /** A team without any of the metrics contributes nothing, and with no
      contribution at all the rating is 0.5. */
  lemma NoMetricsHalf(teams: seq<Dict<Scalar>>, norms: seq<Norm>)
    requires NonZeroDivisors(norms)
    requires forall t, k :: 0 <= t < |teams| && 0 <= k < |norms| ==> norms[k].metric !in Keys(teams[t])
    ensures Average(Ratings(teams, norms)) == 0.5
  {
    NoMetricsEmpty(teams, norms);
  }

  lemma {:induction false} NoMetricsEmpty(teams: seq<Dict<Scalar>>, norms: seq<Norm>)
    requires NonZeroDivisors(norms)
    requires forall t, k :: 0 <= t < |teams| && 0 <= k < |norms| ==> norms[k].metric !in Keys(teams[t])
    ensures Ratings(teams, norms) == []
    decreases |teams|
  {
    if |teams| > 0 {
      NoMetricsEmpty(teams[..|teams| - 1], norms);
      NoMetricsTeam(teams[|teams| - 1], norms);
    }
  }

  lemma {:induction false} NoMetricsTeam(stats: Dict<Scalar>, norms: seq<Norm>)
    requires NonZeroDivisors(norms)
    requires forall k :: 0 <= k < |norms| ==> norms[k].metric !in Keys(stats)
    ensures TeamRatings(stats, norms) == []
    decreases |norms|
  {
    if |norms| > 0 {
      NoMetricsTeam(stats, norms[..|norms| - 1]);
      assert Get(stats, norms[|norms| - 1].metric).None?;
    }
  }

  /** A rating lies between the smallest and the largest contribution. */
  lemma AverageBounds(xs: seq<real>, lo: real, hi: real)
    requires lo <= 0.5 <= hi
    requires forall i :: 0 <= i < |xs| ==> lo <= xs[i] <= hi
    ensures lo <= Average(xs) <= hi
  {
    if |xs| > 0 {
      MeanBounds(xs, lo, hi);
    }
  }

  /** Adds one team's contributions to a running total and count. */
  method AddTeamRatings(stats: Dict<Scalar>, norms: seq<Norm>, ghost before: seq<real>, total: real, count: nat)
    returns (total': real, count': nat)
    requires NonZeroDivisors(norms)
    requires total == Sum(before) && count == |before|
    ensures total' == Sum(before + TeamRatings(stats, norms)) && count' == |before + TeamRatings(stats, norms)|
  {
    total', count' := total, count;
    assert norms[..0] == [] && before + [] == before;
    for k := 0 to |norms|
      invariant total' == Sum(before + TeamRatings(stats, norms[..k]))
      invariant count' == |before + TeamRatings(stats, norms[..k])|
    {
      assert norms[..k + 1][..k] == norms[..k];
      var c := Contribution(stats, norms[k]);
      ghost var xs := before + TeamRatings(stats, norms[..k]);
      if c.Some? {
        assert (xs + [c.value])[..|xs|] == xs;
        assert before + TeamRatings(stats, norms[..k + 1]) == xs + [c.value];
        total' := total' + c.value;
        count' := count' + 1;
      } else {
        assert TeamRatings(stats, norms[..k + 1]) == TeamRatings(stats, norms[..k]) + [];
        assert before + TeamRatings(stats, norms[..k + 1]) == xs;
      }
    }
    assert norms[..|norms|] == norms;
  }

  /** The offensive and defensive ratings: the mean contribution over all
      teams, 0.5 when nothing contributed. */
  method EfficiencyRatings(teams: seq<Dict<Scalar>>) returns (offence: real, defence: real)
    ensures offence == Average(Ratings(teams, OffensiveNorms))
    ensures defence == Average(Ratings(teams, DefensiveNorms))
  {
    offence, defence := RateTeams(teams, OffensiveNorms, DefensiveNorms);
  }

  /** The rating loop, over any two lists of normalisers. */
  method RateTeams(teams: seq<Dict<Scalar>>, offNorms: seq<Norm>, defNorms: seq<Norm>)
    returns (offence: real, defence: real)
    requires NonZeroDivisors(offNorms) && NonZeroDivisors(defNorms)
    ensures offence == Average(Ratings(teams, offNorms))
    ensures defence == Average(Ratings(teams, defNorms))
  {
    var totalRating, metricsCount := 0.0, 0;
    var defenseRating, defenseCount := 0.0, 0;
    for t := 0 to |teams|
      invariant totalRating == Sum(Ratings(teams[..t], offNorms)) && metricsCount == |Ratings(teams[..t], offNorms)|
      invariant defenseRating == Sum(Ratings(teams[..t], defNorms)) && defenseCount == |Ratings(teams[..t], defNorms)|
    {
      RatingsSnoc(teams, t, offNorms);
      RatingsSnoc(teams, t, defNorms);
      totalRating, metricsCount := AddTeamRatings(teams[t], offNorms, Ratings(teams[..t], offNorms), totalRating, metricsCount);
      defenseRating, defenseCount := AddTeamRatings(teams[t], defNorms, Ratings(teams[..t], defNorms), defenseRating, defenseCount);
    }
    assert teams[..|teams|] == teams;
    offence := if metricsCount > 0 then totalRating / metricsCount as real else 0.5;
    defence := if defenseCount > 0 then defenseRating / defenseCount as real else 0.5;
  }

  lemma RatingsSnoc(teams: seq<Dict<Scalar>>, t: nat, norms: seq<Norm>)
    requires t < |teams| && NonZeroDivisors(norms)
    ensures Ratings(teams[..t + 1], norms) == Ratings(teams[..t], norms) + TeamRatings(teams[t], norms)
  {
    assert teams[..t + 1][..t] == teams[..t];
  }

  // ---------------------------------------------------------------------
  // The totals recommendation
  // ---------------------------------------------------------------------

  /** A totals market: its key in the odds, its accepted points range, its
      title (`market.replace("_", " ").title()`) and the period the
      explanation names. */
  datatype TotalsMarket = TotalsMarket(key: string, minPoints: real, maxPoints: real, title: string, period: string)

  const TotalsMarkets: seq<TotalsMarket> := [
    TotalsMarket("total", 35.0, 55.0, "Total", "full game"),
    TotalsMarket("first_half_total", 17.0, 28.0, "First Half Total", "first half"),
    TotalsMarket("second_half_total", 17.0, 28.0, "Second Half Total", "second half")]

  const MinConfidence := 45
  const MaxConfidence := 75

  function Clamp(c: int): (r: int)
    ensures MinConfidence <= r <= MaxConfidence
    ensures MinConfidence <= c <= MaxConfidence ==> r == c
  {
    Min(MaxConfidence, Max(MinConfidence, c))
  }

  /** The play one totals line offers, or none when it is skipped: the
      text must say Over or Under, carry a parsable number inside the
      market's range, and lean the way the ratings do. The explanation
      reads the confidence before it is clamped. */
  function Play(m: TotalsMarket, text: string, odd: real, offence: real, defence: real): Option<Recommendation>
  {
    if !Contains(text, "Over") && !Contains(text, "Under") then None
    else
      match Odds.LineValue(text)
      case None => None
      case Some(points) =>
        var isOver := Contains(text, "Over");
        if points < m.minPoints || points > m.maxPoints then None
        else if isOver && offence > defence then
          var c := TruncInt(offence * 70.0 + defence * 30.0);
          var why := if c > 60 then "Strong offensive efficiency metrics suggest high-scoring " + m.period
            else "Teams showing enough offensive efficiency to justify the " + m.period + " over";
          Some(Recommendation("Total (" + m.title + ")", text, odd, Clamp(c), why))
        else if !isOver && defence > offence then
          var c := TruncInt(defence * 70.0 + (1.0 - offence) * 30.0);
          var why := if c > 60 then "Strong defensive metrics suggest low-scoring " + m.period
            else "Teams showing defensive strength, suggesting the " + m.period + " under";
          Some(Recommendation("Total (" + m.title + ")", text, odd, Clamp(c), why))
        else None
  }

  /** A play backs the Over only when offence leads, the Under only when
      defence leads, stays within its market's range and has a clamped
      confidence. */
  lemma PlayFacts(m: TotalsMarket, text: string, odd: real, offence: real, defence: real)
    ensures var p := Play(m, text, odd, offence, defence);
      p.Some? ==>
        p.value.bet == text && p.value.odds == odd && p.value.kind != "Spread" &&
        MinConfidence <= p.value.confidence <= MaxConfidence &&
        Odds.LineValue(text).Some? && m.minPoints <= Odds.LineValue(text).value <= m.maxPoints &&
        ((Contains(text, "Over") && offence > defence) ||
         (!Contains(text, "Over") && Contains(text, "Under") && defence > offence))
  {
  }

  /** The plays of one market's lines, in the market's order. */
  function LinePlays(m: TotalsMarket, lines: Dict<real>, offence: real, defence: real): (r: seq<Option<Recommendation>>)
    ensures |r| == |lines|
    decreases |lines|
  {
    if |lines| == 0 then []
    else
      var last := lines[|lines| - 1];
      LinePlays(m, lines[..|lines| - 1], offence, defence) + [Play(m, last.0, last.1, offence, defence)]
  }

  /** The plays the totals loop meets: market by market, those present in
      the odds. */
  function TotalsPlays(markets: seq<TotalsMarket>, odds: Dict<Dict<real>>, offence: real, defence: real): seq<Option<Recommendation>>
    decreases |markets|
  {
    if |markets| == 0 then []
    else
      var m := markets[|markets| - 1];
      TotalsPlays(markets[..|markets| - 1], odds, offence, defence) +
        (match Get(odds, m.key) case None => [] case Some(lines) => LinePlays(m, lines, offence, defence))
  }

  /** The confidence a play has to beat: 45 before any play is kept. */
  function Threshold(best: Option<Recommendation>): int
  {
    if best.None? then MinConfidence else best.value.confidence
  }

  /** The totals loop: a play replaces the best so far only when strictly
      more confident. */
  function BestFrom(best: Option<Recommendation>, plays: seq<Option<Recommendation>>): Option<Recommendation>
    decreases |plays|
  {
    if |plays| == 0 then best
    else
      var b := BestFrom(best, plays[..|plays| - 1]);
      var p := plays[|plays| - 1];
      if p.Some? && p.value.confidence > Threshold(b) then p else b
  }

  predicate Offered(plays: seq<Option<Recommendation>>, k: int)
  {
    0 <= k < |plays| && plays[k].Some?
  }

  /** The kept play is at least as confident as every play offered, and
      more confident than 45 and than every play offered before it. */
  lemma {:induction false} BestFromFacts(plays: seq<Option<Recommendation>>)
    ensures var r := BestFrom(None, plays);
      (forall k :: Offered(plays, k) ==> plays[k].value.confidence <= Threshold(r)) &&
      (r.Some? ==> MinConfidence < r.value.confidence && r in plays) &&
      (r.Some? ==> exists k :: 0 <= k < |plays| && plays[k] == r && EarlierLess(plays, k))
    decreases |plays|
  {
    if |plays| > 0 {
      var init := plays[..|plays| - 1];
      BestFromFacts(init);
      var b := BestFrom(None, init);
      var p := plays[|plays| - 1];
      assert forall k :: 0 <= k < |init| ==> init[k] == plays[k];
      if p.Some? && p.value.confidence > Threshold(b) {
        assert EarlierLess(plays, |plays| - 1);
      } else if b.Some? {
        var k :| 0 <= k < |init| && init[k] == b && EarlierLess(init, k);
        assert EarlierLess(plays, k);
      }
    }
  }

  /** Every play offered before position `k` is less confident than it. */
  predicate EarlierLess(plays: seq<Option<Recommendation>>, k: int)
    requires 0 <= k < |plays| && plays[k].Some?
  {
    forall j :: 0 <= j < k && plays[j].Some? ==> plays[j].value.confidence < plays[k].value.confidence
  }

  /** What every totals play is: not a spread play, clamped to [45, 75]. */
  predicate TotalsShaped(p: Option<Recommendation>)
  {
    p.Some? ==> p.value.kind != "Spread" && MinConfidence <= p.value.confidence <= MaxConfidence
  }

  lemma {:induction false} LinePlaysShaped(m: TotalsMarket, lines: Dict<real>, offence: real, defence: real)
    ensures forall p :: p in LinePlays(m, lines, offence, defence) ==> TotalsShaped(p)
    decreases |lines|
  {
    if |lines| > 0 {
      var last := lines[|lines| - 1];
      LinePlaysShaped(m, lines[..|lines| - 1], offence, defence);
      PlayFacts(m, last.0, last.1, offence, defence);
    }
  }

  lemma {:induction false} TotalsPlaysShaped(markets: seq<TotalsMarket>, odds: Dict<Dict<real>>, offence: real, defence: real)
    ensures forall p :: p in TotalsPlays(markets, odds, offence, defence) ==> TotalsShaped(p)
    decreases |markets|
  {
    if |markets| > 0 {
      var m := markets[|markets| - 1];
      TotalsPlaysShaped(markets[..|markets| - 1], odds, offence, defence);
      match Get(odds, m.key)
      case None =>
      case Some(lines) => LinePlaysShaped(m, lines, offence, defence);
    }
  }

  /** The totals part of `find_best_odds`: nothing without team stats,
      otherwise the single best play, if any. */
  function TotalsPlay(a: GameAnalysis, odds: Dict<Dict<real>>): seq<Recommendation>
  {
    if a.teamStats.None? then []
    else
      var offence := Average(Ratings(a.teamStats.value, OffensiveNorms));
      var defence := Average(Ratings(a.teamStats.value, DefensiveNorms));
      var best := BestFrom(None, TotalsPlays(TotalsMarkets, odds, offence, defence));
      if best.None? then [] else [best.value]
  }

  /** The totals loop over every market present in the odds. */
  method BestTotalPlay(odds: Dict<Dict<real>>, offence: real, defence: real) returns (best: Option<Recommendation>)
    ensures best == BestFrom(None, TotalsPlays(TotalsMarkets, odds, offence, defence))
  {
    best := None;
    var bestConfidence := MinConfidence;
    var markets := TotalsMarkets;
    for i := 0 to |markets|
      invariant best == BestFrom(None, TotalsPlays(markets[..i], odds, offence, defence))
      invariant bestConfidence == Threshold(best)
    {
      var m := markets[i];
      assert markets[..i + 1][..i] == markets[..i];
      ghost var done := TotalsPlays(markets[..i], odds, offence, defence);
      var market := Get(odds, m.key);
      if market.Some? {
        best, bestConfidence := BestOfLines(best, bestConfidence, m, market.value, offence, defence);
        BestFromAppend(None, done, LinePlays(m, market.value, offence, defence));
      } else {
        assert done + [] == done;
      }
    }
    assert markets[..|markets|] == markets;
  }

  /** The inner loop of the totals search, over one market's lines. */
  method BestOfLines(best0: Option<Recommendation>, confidence0: int, m: TotalsMarket, lines: Dict<real>,
                     offence: real, defence: real)
    returns (best: Option<Recommendation>, bestConfidence: int)
    requires confidence0 == Threshold(best0)
    ensures best == BestFrom(best0, LinePlays(m, lines, offence, defence))
    ensures bestConfidence == Threshold(best)
  {
    best, bestConfidence := best0, confidence0;
    for j := 0 to |lines|
      invariant best == BestFrom(best0, LinePlays(m, lines[..j], offence, defence))
      invariant bestConfidence == Threshold(best)
    {
      var play := Play(m, lines[j].0, lines[j].1, offence, defence);
      assert lines[..j + 1][..j] == lines[..j];
      if play.Some? && play.value.confidence > bestConfidence {
        best := play;
        bestConfidence := play.value.confidence;
      }
    }
    assert lines[..|lines|] == lines;
  }

  lemma {:induction false} BestFromAppend(b: Option<Recommendation>, xs: seq<Option<Recommendation>>, ys: seq<Option<Recommendation>>)
    ensures BestFrom(b, xs + ys) == BestFrom(BestFrom(b, xs), ys)
    decreases |ys|
  {
    if |ys| == 0 {
      assert xs + ys == xs;
    } else {
      var init := ys[..|ys| - 1];
      BestFromAppend(b, xs, init);
      assert (xs + ys)[..|xs + ys| - 1] == xs + init;
    }
  }

  // ---------------------------------------------------------------------
  // find_best_odds
  // ---------------------------------------------------------------------

  /** `find_best_odds(analysis, odds)`: nothing without scores or team
      names; nothing at all when the spread's score lookup raises, since
      the exception abandons the totals too. */
  function FindBestOdds(a: GameAnalysis, odds: Dict<Dict<real>>): seq<Recommendation>
  {
    if |a.scores| == 0 || |a.homeTeam| == 0 || |a.awayTeam| == 0 then []
    else
      match SpreadPlay(a, odds)
      case None => []
      case Some(spread) => spread + TotalsPlay(a, odds)
  }

  /** At most a spread play followed by at most one totals play; the spread
      play is capped at 75, the totals play is more confident than 45 and
      capped at 75. */
  lemma FindBestOddsShape(a: GameAnalysis, odds: Dict<Dict<real>>)
    ensures |a.scores| == 0 || |a.homeTeam| == 0 || |a.awayTeam| == 0 ==> FindBestOdds(a, odds) == []
    ensures var r := FindBestOdds(a, odds);
      |r| <= 2 &&
      (forall i :: 0 <= i < |r| ==> r[i].confidence <= MaxConfidence) &&
      (forall i :: 0 <= i < |r| && r[i].kind != "Spread" ==> i == |r| - 1 && MinConfidence < r[i].confidence) &&
      (forall i :: 0 <= i < |r| && r[i].kind == "Spread" ==> i == 0)
  {
    if |a.scores| > 0 && |a.homeTeam| > 0 && |a.awayTeam| > 0 && SpreadPlay(a, odds).Some? {
      SpreadPlayShape(a, odds);
      TotalsPlayShape(a, odds);
      ConcatShaped(SpreadPlay(a, odds).value, TotalsPlay(a, odds));
    }
  }

  /** A spread part followed by a totals part has the shape of the result. */
  lemma ConcatShaped(s: seq<Recommendation>, t: seq<Recommendation>)
    requires |s| <= 1 && forall i :: 0 <= i < |s| ==> s[i].kind == "Spread" && s[i].confidence <= MaxConfidence
    requires |t| <= 1 && forall i :: 0 <= i < |t| ==> t[i].kind != "Spread" && MinConfidence < t[i].confidence <= MaxConfidence
    ensures var r := s + t;
      |r| <= 2 &&
      (forall i :: 0 <= i < |r| ==> r[i].confidence <= MaxConfidence) &&
      (forall i :: 0 <= i < |r| && r[i].kind != "Spread" ==> i == |r| - 1 && MinConfidence < r[i].confidence) &&
      (forall i :: 0 <= i < |r| && r[i].kind == "Spread" ==> i == 0)
  {
  }

  /** The spread part yields at most one play, a spread play capped at 75. */
  lemma SpreadPlayShape(a: GameAnalysis, odds: Dict<Dict<real>>)
    requires |a.scores| > 0
    ensures SpreadPlay(a, odds).Some? ==>
      var s := SpreadPlay(a, odds).value;
      |s| <= 1 && forall i :: 0 <= i < |s| ==> s[i].kind == "Spread" && s[i].confidence <= MaxConfidence
  {
    var (favourite, favConf) := a.scores[FavouriteIndex(a.scores)];
    var team := Backed(Upper(a.homeTeam), Upper(a.awayTeam), favourite, favConf).1;
    var c := RecConfidence(team, favourite, favConf, a.scores);
    assert c.Some? ==> c.value <= MaxConfidence;
  }

  /** The totals part yields at most one play, not a spread play, more
      confident than 45 and capped at 75. */
  lemma TotalsPlayShape(a: GameAnalysis, odds: Dict<Dict<real>>)
    ensures var t := TotalsPlay(a, odds);
      |t| <= 1 && forall i :: 0 <= i < |t| ==> t[i].kind != "Spread" && MinConfidence < t[i].confidence <= MaxConfidence
  {
    if a.teamStats.Some? {
      var offence := Average(Ratings(a.teamStats.value, OffensiveNorms));
      var defence := Average(Ratings(a.teamStats.value, DefensiveNorms));
      var plays := TotalsPlays(TotalsMarkets, odds, offence, defence);
      BestFromFacts(plays);
      TotalsPlaysShaped(TotalsMarkets, odds, offence, defence);
      var best := BestFrom(None, plays);
      assert best.Some? ==> TotalsShaped(best);
    }
  }

  /** `find_best_odds`, with its loops. */
  method FindBestOddsMethod(a: GameAnalysis, odds: Dict<Dict<real>>) returns (recommendations: seq<Recommendation>)
    ensures recommendations == FindBestOdds(a, odds)
  {
    var homeTeam := Upper(a.homeTeam);
    var awayTeam := Upper(a.awayTeam);
    if |a.scores| == 0 || |homeTeam| == 0 || |awayTeam| == 0 {
      return [];
    }
    var spread := SpreadPart(a, odds);
    if spread.None? {
      return [];
    }
    var totals := TotalsPart(a, odds);
    recommendations := spread.value + totals;
  }

  /** The spread half of `find_best_odds`: `None` when the score lookup
      raises. */
  method SpreadPart(a: GameAnalysis, odds: Dict<Dict<real>>) returns (r: Option<seq<Recommendation>>)
    requires |a.scores| > 0
    ensures r == SpreadPlay(a, odds)
  {
    r := Some([]);
    var f := Favourite(a.scores);
    var (favourite, favConf) := a.scores[f];
    var spreadLines := Get(odds, "spread");
    if spreadLines.Some? && |spreadLines.value| > 0 && |favourite| > 0 {
      var lines := spreadLines.value;
      var (side, team) := Backed(Upper(a.homeTeam), Upper(a.awayTeam), favourite, favConf);
      var b := FindBestLine(lines, side);
      if b.Some? {
        var advs := match Get(a.advantages, team) case None => [] case Some(v) => v;
        var explanation := Explanation(team, advs);
        var c := RecConfidence(team, favourite, favConf, a.scores);
        if c.None? {
          return None;
        }
        r := Some([Recommendation("Spread", lines[b.value].0, lines[b.value].1, c.value, explanation)]);
      }
    }
  }

  /** The totals half of `find_best_odds`. */
  method TotalsPart(a: GameAnalysis, odds: Dict<Dict<real>>) returns (r: seq<Recommendation>)
    ensures r == TotalsPlay(a, odds)
  {
    r := [];
    if a.teamStats.Some? {
      var offence, defence := EfficiencyRatings(a.teamStats.value);
      var best := BestTotalPlay(odds, offence, defence);
      if best.Some? {
        r := [best.value];
      }
    }
  }

  /** The first entry with the largest score, one entry at a time. */
  method Favourite(scores: Dict<int>) returns (i: nat)
    requires |scores| > 0
    ensures i == FavouriteIndex(scores)
  {
    i := 0;
    for k := 1 to |scores|
      invariant i == FavouriteIndex(scores[..k])
    {
      assert scores[..k + 1][..k] == scores[..k];
      if scores[k].1 > scores[i].1 {
        i := k;
      }
    }
    assert scores[..|scores|] == scores;
  }
}
