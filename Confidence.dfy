/** The confidence scorer (predictor.py:615-640): each advantage line is
    weighted by the words it contains, and a team's score is its weight
    over one and a half times the number of lines of both teams, as a
    rounded percentage capped at 85. The two scores need not sum to 100. */
module Confidence {
  import opened Common
  import opened Dict
  import opened Analyzer
  import opened StatsCache

  /** 1.5 for a line mentioning `QB` (checked first), 1.2 for `Defense`, 1.0 otherwise. */
  function Weight(adv: string): (w: real)
    ensures w == 1.0 || w == 1.2 || w == 1.5
  {
    if Contains(adv, "QB") then 1.5 else if Contains(adv, "Defense") then 1.2 else 1.0
  }

  /** A team's weighted score: the sum of its lines' weights. */
  function Weighted(advs: seq<string>): (w: real)
    ensures |advs| as real <= w <= 1.5 * |advs| as real
    decreases |advs|
  {
    if |advs| == 0 then 0.0 else Weighted(advs[..|advs| - 1]) + Weight(advs[|advs| - 1])
  }

  /** The number of lines over all teams. */
  function Total(d: Dict<seq<string>>): nat
    decreases |d|
  {
    if |d| == 0 then 0 else Total(d[..|d| - 1]) + |d[|d| - 1].1|
  }

  lemma {:induction false} TotalCovers(d: Dict<seq<string>>, i: nat)
    requires i < |d|
    ensures |d[i].1| <= Total(d)
    decreases |d|
  {
    if i < |d| - 1 {
      TotalCovers(d[..|d| - 1], i);
    }
  }

  /** `min(85, round(weighted / (total + 0.5 * total) * 100))`. */
  function Score(weighted: real, total: nat): int
    requires total > 0
  {
    Min(85, RoundHalfEven(weighted / (total as real + 0.5 * total as real) * 100.0))
  }

  /** The scores dict: same teams in the same order; 50 each when no team has a line. */
  function ConfidenceScores(d: Dict<seq<string>>): (r: Dict<int>)
    ensures Keys(r) == Keys(d)
  {
    var total := Total(d);
    seq(|d|, i requires 0 <= i < |d| => (d[i].0, if total > 0 then Score(Weighted(d[i].1), total) else 50))
  }

  /** The inner loop: the weights of one team's lines, added up. */
  method WeightedScore(teamAdvantages: seq<string>) returns (weighted: real)
    ensures weighted == Weighted(teamAdvantages)
  {
    weighted := 0.0;
    var j := 0;
    while j < |teamAdvantages|
      invariant 0 <= j <= |teamAdvantages|
      invariant weighted == Weighted(teamAdvantages[..j])
    {
      assert teamAdvantages[..j + 1][..j] == teamAdvantages[..j];
      var advantage := teamAdvantages[j];
      if Contains(advantage, "QB") {
        weighted := weighted + 1.5;
      } else if Contains(advantage, "Defense") {
        weighted := weighted + 1.2;
      } else {
        weighted := weighted + 1.0;
      }
      j := j + 1;
    }
    assert teamAdvantages[..j] == teamAdvantages;
  }

  /** `sum(len(adv) for adv in advantages.values())`. */
  method TotalAdvantages(advantages: Dict<seq<string>>) returns (total: nat)
    ensures total == Total(advantages)
  {
    total := 0;
    var i := 0;
    while i < |advantages|
      invariant 0 <= i <= |advantages|
      invariant total == Total(advantages[..i])
    {
      assert advantages[..i + 1][..i] == advantages[..i];
      total := total + |advantages[i].1|;
      i := i + 1;
    }
    assert advantages[..i] == advantages;
  }

  method CalculateConfidenceScores(advantages: Dict<seq<string>>) returns (scores: Dict<int>)
    requires DistinctKeys(advantages)
    ensures scores == ConfidenceScores(advantages)
  {
    var total := TotalAdvantages(advantages);
    var i := 0;
    scores := [];
    while i < |advantages|
      invariant 0 <= i <= |advantages|
      invariant scores == ConfidenceScores(advantages)[..i] && total == Total(advantages)
    {
      scores := PutTeamScore(advantages, total, i, scores);
      i := i + 1;
    }
    assert ConfidenceScores(advantages)[..i] == ConfidenceScores(advantages);
  }

  /** One step of the loop: the next team's score put into the scores. */
  method PutTeamScore(advantages: Dict<seq<string>>, total: nat, i: nat, scores0: Dict<int>)
    returns (scores: Dict<int>)
    requires DistinctKeys(advantages) && i < |advantages| && total == Total(advantages)
    requires scores0 == ConfidenceScores(advantages)[..i]
    ensures scores == ConfidenceScores(advantages)[..i + 1]
  {
    var team := advantages[i].0;
    var score := TeamScore(advantages[i].1, total);
    ScoresPrefix(advantages, i);
    scores := Put(scores0, team, score);
  }

  /** One team's score: its weighted lines over the lines of all teams, or 50 when there are none. */
  method TeamScore(teamAdvantages: seq<string>, total: nat) returns (score: int)
    ensures score == if total > 0 then Score(Weighted(teamAdvantages), total) else 50
  {
    score := 50;
    if total > 0 {
      var weighted := WeightedScore(teamAdvantages);
      score := Score(weighted, total);
    }
  }

  /** The score of the team at `i`. */
  lemma ScoreAt(d: Dict<seq<string>>, i: nat)
    requires i < |d|
    ensures ConfidenceScores(d)[i]
            == (d[i].0, if Total(d) > 0 then Score(Weighted(d[i].1), Total(d)) else 50)
  {
  }

  /** A team without lines scores 0 once there are lines at all. */
  lemma ScoreOfNothing(total: nat)
    requires total > 0
    ensures Score(0.0, total) == 0
  {
    var t := total as real + 0.5 * total as real;
    assert 0.0 / t * 100.0 == 0.0;
  }

  /** A team whose weight is one and a half times every line reaches the cap. */
  lemma ScoreOfEverything(total: nat)
    requires total > 0
    ensures Score(1.5 * total as real, total) == 85
  {
    var n := total as real;
    assert n + 0.5 * n == 1.5 * n;
    var m := 1.5 * n;
    assert m > 0.0;
    assert m / m == 1.0;
    assert RoundHalfEven(100.0) == 100;
  }

  /** Putting the next team's score extends the scores written so far. */
  lemma ScoresPrefix(d: Dict<seq<string>>, i: nat)
    requires DistinctKeys(d) && i < |d|
    ensures ConfidenceScores(d)[i]
            == (d[i].0, if Total(d) > 0 then Score(Weighted(d[i].1), Total(d)) else 50)
    ensures Put(ConfidenceScores(d)[..i], d[i].0, ConfidenceScores(d)[i].1) == ConfidenceScores(d)[..i + 1]
  {
    var spec := ConfidenceScores(d);
    ScoreAt(d, i);
    assert DistinctKeys(spec) by {
      forall a, b | 0 <= a < b < |spec| ensures spec[a].0 != spec[b].0 {
        assert spec[a].0 == d[a].0 && spec[b].0 == d[b].0;
      }
    }
    PutNext(spec, i);
  }

  /** Every score lies in [0, 85]. */
  lemma ScoresInRange(d: Dict<seq<string>>)
    ensures forall i :: 0 <= i < |d| ==> 0 <= ConfidenceScores(d)[i].1 <= 85
  {
    forall i | 0 <= i < |d| ensures 0 <= ConfidenceScores(d)[i].1 <= 85 {
      ScoreAt(d, i);
      if Total(d) > 0 {
        ScoreNonNegative(Weighted(d[i].1), Total(d));
      }
    }
  }

  lemma ScoreNonNegative(weighted: real, total: nat)
    requires weighted >= 0.0 && total > 0
    ensures 0 <= Score(weighted, total) <= 85
  {
    var t := total as real + 0.5 * total as real;
    assert weighted / t * 100.0 >= 0.0;
  }

  /** With no lines at all, every team gets 50. */
  lemma NoAdvantagesEvenSplit(d: Dict<seq<string>>)
    requires Total(d) == 0
    ensures forall i :: 0 <= i < |d| ==> ConfidenceScores(d)[i].1 == 50
  {
  }

  /** When some team has a line, a team without one gets 0. */
  lemma NoLinesScoresZero(d: Dict<seq<string>>, i: nat)
    requires i < |d| && Total(d) > 0 && |d[i].1| == 0
    ensures ConfidenceScores(d)[i].1 == 0
  {
    ScoreAt(d, i);
    ScoreOfNothing(Total(d));
  }

  /** A team holding every line, all of them QB lines, reaches the cap. */
  lemma AllQbLinesCapped(d: Dict<seq<string>>, i: nat)
    requires i < |d| && |d[i].1| == Total(d) > 0
    requires forall k :: 0 <= k < |d[i].1| ==> Contains(d[i].1[k], "QB")
    ensures ConfidenceScores(d)[i].1 == 85
  {
    ScoreAt(d, i);
    AllQbWeighted(d[i].1);
    ScoreOfEverything(Total(d));
  }

  lemma {:induction false} AllQbWeighted(advs: seq<string>)
    requires forall k :: 0 <= k < |advs| ==> Contains(advs[k], "QB")
    ensures Weighted(advs) == 1.5 * |advs| as real
    decreases |advs|
  {
    if |advs| > 0 {
      AllQbWeighted(advs[..|advs| - 1]);
    }
  }

  /** The scores need not sum to 100: one plain line for the first team and
      none for the second gives 67 and 0. */
  lemma OnePlainLineExample()
    ensures ConfidenceScores([("KC", [LineText(Advantage("Yards per Play", Plain, 6.0, 5.0))]), ("BUF", [])])
            == [("KC", 67), ("BUF", 0)]
  {
    var a := Advantage("Yards per Play", Plain, 6.0, 5.0);
    var d := [("KC", [LineText(a)]), ("BUF", [])];
    PlainClassifiable("Yards per Play", 'D');
    PlainTextWeight(a);
    assert [LineText(a)][..0] == [];
    assert Weighted([LineText(a)]) == 1.0;
    ExampleTotal(d);
    TwoThirdsRounds();
    ScoreAt(d, 0);
    ScoreAt(d, 1);
    ScoreOfNothing(1);
    var r := ConfidenceScores(d);
    assert |Keys(r)| == |Keys(d)| == 2;
    assert r[0] == ("KC", 67) && r[1] == ("BUF", 0);
  }

  lemma ExampleTotal(d: Dict<seq<string>>)
    requires |d| == 2 && |d[0].1| == 1 && |d[1].1| == 0
    ensures Total(d) == 1
  {
    assert d[..1][..0] == [];
    assert Total(d[..1]) == 1;
    assert d[..2 - 1] == d[..1];
  }

  lemma TwoThirdsRounds()
    ensures RoundHalfEven(1.0 / (1.0 + 0.5 * 1.0) * 100.0) == 67
  {
    var x := 1.0 / (1.0 + 0.5 * 1.0) * 100.0;
    assert x * 3.0 == 200.0;
  }

  // ---------------------------------------------------------------------
  // The weight of an analyser line follows its kind
  // ---------------------------------------------------------------------

  function KindWeight(k: Kind): real
  {
    match k
    case Qb => 1.5
    case Defense => 1.2
    case Plain => 1.0
  }

  /** A display name the scorer classifies by its kind: QB rows need
      nothing; defence names start with `Defense` and lack `Q`; other names
      lack `Q` and one of `D` or `f`, so the line cannot contain `Defense`. */
  predicate Classifiable(display: string, kind: Kind)
  {
    match kind
    case Qb => true
    case Defense => IsPrefix("Defense", display) && 'Q' !in display
    case Plain => 'Q' !in display && ('D' !in display || 'f' !in display)
  }

  lemma OneDecimalLacks(x: real, c: char)
    requires !IsDigit(c) && c != '-' && c != '.'
    ensures c !in OneDecimal(x)
  {
  }

  /** A character that none of the fixed parts of a line (`Better `, `: `,
      ` vs `, the digits, sign and point of the numbers) holds. */
  predicate NotFixedChar(c: char)
  {
    c != 'B' && c != 'e' && c != 't' && c != 'r' && c != ' ' && c != ':'
    && c != 'v' && c != 's' && c != '-' && c != '.' && !IsDigit(c)
  }

  lemma TextLacks(a: Advantage, c: char)
    requires a.kind != Qb && c !in a.display && NotFixedChar(c)
    ensures c !in LineText(a)
  {
    OneDecimalLacks(a.mine, c);
    OneDecimalLacks(a.theirs, c);
    assert LineText(a) == "Better " + a.display + ": " + OneDecimal(a.mine) + " vs " + OneDecimal(a.theirs);
  }

  lemma QbTextWeight(a: Advantage)
    requires a.kind == Qb
    ensures Weight(LineText(a)) == 1.5
  {
    var tail := " " + "Better " + a.display + ": " + OneDecimal(a.mine) + " vs " + OneDecimal(a.theirs);
    assert LineText(a) == "" + "QB" + tail;
    ContainsInside("", "QB", tail);
  }

  lemma NoQbInText(a: Advantage)
    requires a.kind != Qb && 'Q' !in a.display
    ensures !Contains(LineText(a), "QB")
  {
    TextLacks(a, 'Q');
    MissingCharNotContained(LineText(a), "QB", 'Q');
  }

  lemma DefenseInText(a: Advantage, rest: string)
    requires a.kind == Defense && a.display == "Defense" + rest
    ensures Contains(LineText(a), "Defense")
  {
    var tail := rest + ": " + OneDecimal(a.mine) + " vs " + OneDecimal(a.theirs);
    assert LineText(a) == "Better " + "Defense" + tail;
    ContainsInside("Better ", "Defense", tail);
  }

  lemma DefenseTextWeight(a: Advantage)
    requires a.kind == Defense && Classifiable(a.display, a.kind)
    ensures Weight(LineText(a)) == 1.2
  {
    NoQbInText(a);
    assert a.display == "Defense" + a.display[7..];
    DefenseInText(a, a.display[7..]);
  }

  lemma PlainTextWeight(a: Advantage)
    requires a.kind == Plain && Classifiable(a.display, a.kind)
    ensures Weight(LineText(a)) == 1.0
  {
    var t := LineText(a);
    NoQbInText(a);
    if 'D' !in a.display {
      TextLacks(a, 'D');
      MissingCharNotContained(t, "Defense", 'D');
    } else {
      TextLacks(a, 'f');
      MissingCharNotContained(t, "Defense", 'f');
    }
  }

  /** The scorer weighs an analyser line by its kind. */
  lemma TextWeight(a: Advantage)
    requires Classifiable(a.display, a.kind)
    ensures Weight(LineText(a)) == KindWeight(a.kind)
  {
    match a.kind
    case Qb => QbTextWeight(a);
    case Defense => DefenseTextWeight(a);
    case Plain => PlainTextWeight(a);
  }

  predicate TableClassifiable(ms: seq<Metric>)
  {
    forall j :: 0 <= j < |ms| ==> Classifiable(ms[j].display, ms[j].kind)
  }

  /** Every row of every analyser table is classified by its kind. */
  lemma TablesClassifiable()
    ensures TableClassifiable(MatchupMetrics) && TableClassifiable(MatchupQbMetrics)
    ensures TableClassifiable(FetcherMetrics) && TableClassifiable(FetcherQbMetrics)
    ensures TableClassifiable(CachedMetrics)
  {
    OffenceClassifiable();
    DefenceClassifiable();
    ClassifiableAppend(OffenceMetrics, MatchupDefence);
    ClassifiableAppend(OffenceMetrics, FetcherDefence);
    ClassifiableAppend(OffenceMetrics, CachedDefence);
  }

  lemma ClassifiableAppend(ms: seq<Metric>, ns: seq<Metric>)
    requires TableClassifiable(ms) && TableClassifiable(ns)
    ensures TableClassifiable(ms + ns)
  {
    forall j | 0 <= j < |ms + ns| ensures Classifiable((ms + ns)[j].display, (ms + ns)[j].kind) {
      if j >= |ms| { assert (ms + ns)[j] == ns[j - |ms|]; }
    }
  }

  lemma OffenceClassifiable()
    ensures TableClassifiable(OffenceMetrics)
  {
    PlainClassifiable("Yards per Play", 'D');
    PlainClassifiable("Third Down %", 'f');
    PlainClassifiable("Red Zone %", 'D');
    PlainClassifiable("Time of Possession", 'D');
    PlainClassifiable("Yards per Pass", 'D');
    PlainClassifiable("Yards per Rush", 'D');
  }

  lemma DefenceClassifiable()
    ensures TableClassifiable(MatchupDefence) && TableClassifiable(FetcherDefence) && TableClassifiable(CachedDefence)
  {
    var points := "Defense - Points Allowed";
    var sacks := "Defense - Sacks";
    var turnovers := "Defense - Turnovers Forced";
    DefenseClassifiable(points);
    DefenseClassifiable(sacks);
    DefenseClassifiable(turnovers);
    DefenseClassifiable("Defense - Interceptions");
    DefenseClassifiable("Defense - Fumbles Recovered");
  }

  lemma PlainClassifiable(display: string, c: char)
    requires c == 'D' || c == 'f'
    requires forall i :: 0 <= i < |display| ==> display[i] != 'Q' && display[i] != c
    ensures Classifiable(display, Plain)
  {
  }

  lemma DefenseClassifiable(display: string)
    requires |display| >= 7 && display[..7] == "Defense"
    requires forall i :: 0 <= i < |display| ==> display[i] != 'Q'
    ensures Classifiable(display, Defense)
  {
  }

  function Texts(advs: seq<Advantage>): (r: seq<string>)
    ensures |r| == |advs| && forall i :: 0 <= i < |advs| ==> r[i] == LineText(advs[i])
  {
    seq(|advs|, i requires 0 <= i < |advs| => LineText(advs[i]))
  }

  function KindSum(advs: seq<Advantage>): real
    decreases |advs|
  {
    if |advs| == 0 then 0.0 else KindSum(advs[..|advs| - 1]) + KindWeight(advs[|advs| - 1].kind)
  }

  /** A team's weighted score over the analyser's lines is the sum of their kinds' weights. */
  lemma {:induction false} WeightedByKind(advs: seq<Advantage>)
    requires forall i :: 0 <= i < |advs| ==> Classifiable(advs[i].display, advs[i].kind)
    ensures Weighted(Texts(advs)) == KindSum(advs)
    decreases |advs|
  {
    if |advs| > 0 {
      var init := advs[..|advs| - 1];
      WeightedByKind(init);
      assert Texts(advs)[..|advs| - 1] == Texts(init);
      TextWeight(advs[|advs| - 1]);
    }
  }

  /** Every line of a classifiable table is classifiable. */
  lemma LinesClassifiable(ms: seq<Metric>, avg1: map<string, real>, avg2: map<string, real>)
    requires TableClassifiable(ms)
    ensures forall e :: e in CompareAll(ms, avg1, avg2) ==> Classifiable(e.1.display, e.1.kind)
  {
    CompareAllIndexed(ms, avg1, avg2);
    var r := CompareAll(ms, avg1, avg2);
    forall e | e in r ensures Classifiable(e.1.display, e.1.kind) {
      var k :| 0 <= k < |r| && r[k] == e;
      var j := Hits(ms, avg1, avg2)[k];
      assert e == EntryOf(ms[j], avg1, avg2);
    }
  }

  /** The advantages dict as the scorer receives it: home first, then away. */
  function AdvantageTexts(an: Analysis): Dict<seq<string>>
    requires an.homeTeam in an.advantages && an.awayTeam in an.advantages
  {
    if an.homeTeam == an.awayTeam then [(an.homeTeam, Texts(an.advantages[an.homeTeam]))]
    else [(an.homeTeam, Texts(an.advantages[an.homeTeam])), (an.awayTeam, Texts(an.advantages[an.awayTeam]))]
  }

  lemma SidedClassifiable(es: seq<Entry>, s: Side)
    requires forall e :: e in es ==> Classifiable(e.1.display, e.1.kind)
    ensures forall i :: 0 <= i < |Sided(es, s)| ==> Classifiable(Sided(es, s)[i].display, Sided(es, s)[i].kind)
  {
    forall i | 0 <= i < |Sided(es, s)| ensures Classifiable(Sided(es, s)[i].display, Sided(es, s)[i].kind) {
      assert Sided(es, s)[i] in Sided(es, s);
      assert (s, Sided(es, s)[i]) in es;
    }
  }

  lemma TotalOfTwo(a: (string, seq<string>), b: (string, seq<string>))
    ensures Total([a, b]) == |a.1| + |b.1|
  {
    var d := [a, b];
    assert d[..|d| - 1] == [a];
    assert [a][..0] == [];
    assert Total([a]) == |a.1|;
  }

  /** Two teams with classifiable lines: each score is the kind-weight sum
      of its own lines over the number of lines of both. */
  lemma TwoTeamScores(home: string, away: string, h: seq<Advantage>, w: seq<Advantage>)
    requires forall i :: 0 <= i < |h| ==> Classifiable(h[i].display, h[i].kind)
    requires forall i :: 0 <= i < |w| ==> Classifiable(w[i].display, w[i].kind)
    requires |h| + |w| > 0
    ensures ConfidenceScores([(home, Texts(h)), (away, Texts(w))]) ==
              [(home, Score(KindSum(h), |h| + |w|)), (away, Score(KindSum(w), |h| + |w|))]
  {
    var d := [(home, Texts(h)), (away, Texts(w))];
    TotalOfTwo(d[0], d[1]);
    WeightedByKind(h);
    WeightedByKind(w);
    var r := ConfidenceScores(d);
    assert r[0] == (home, Score(KindSum(h), |h| + |w|));
    assert r[1] == (away, Score(KindSum(w), |h| + |w|));
  }

  /** Scoring a live analysis: each team's score is computed from the
      weights of its lines' kinds over the number of lines of both teams. */
  lemma MatchupScoresByKind(team1: string, team2: string, stats1: seq<Snapshot>, stats2: seq<Snapshot>,
                            qb1: seq<Snapshot>, qb2: seq<Snapshot>)
    requires Upper(team1) != Upper(team2)
    requires Matchup(team1, team2, stats1, stats2, qb1, qb2).Analyzed?
    ensures var an := Matchup(team1, team2, stats1, stats2, qb1, qb2).analysis;
            var home := an.advantages[an.homeTeam];
            var away := an.advantages[an.awayTeam];
            var total := |home| + |away|;
      total > 0 ==>
        ConfidenceScores(AdvantageTexts(an)) ==
          [(an.homeTeam, Score(KindSum(home), total)), (an.awayTeam, Score(KindSum(away), total))]
  {
    var a1 := FrameMean(stats1).value;
    var a2 := FrameMean(stats2).value;
    var teamLines := CompareAll(MatchupMetrics, a1, a2);
    var qbLines := QbEntries(MatchupQbMetrics, qb1, qb2);
    var es: seq<Entry> := teamLines + qbLines;
    assert Matchup(team1, team2, stats1, stats2, qb1, qb2).analysis == Report(team1, team2, a1, a2, es);
    TablesClassifiable();
    LinesClassifiable(MatchupMetrics, a1, a2);
    LinesClassifiable(MatchupQbMetrics, NumericMeans(qb1), NumericMeans(qb2));
    assert forall e: Entry :: e in es ==> Classifiable(e.1.display, e.1.kind);
    SidedClassifiable(es, First);
    SidedClassifiable(es, Second);
    var h := Sided(es, First);
    var w := Sided(es, Second);
    if |h| + |w| > 0 {
      TwoTeamScores(Upper(team1), Upper(team2), h, w);
    }
  }
}
