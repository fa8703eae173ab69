/** The stat normaliser of data_fetcher.py: ratio and clock parsing, the
    per-game team statistics record, and the quarterback statistics record. */
module StatNormalizer {
  import opened Common

  // ---------------------------------------------------------------------
  // Ratios "4-13", "19/24"
  // ---------------------------------------------------------------------

  /** The first two pieces as integers, or (0, 0) when either is not one. */
  function LeadingPair(pieces: seq<string>): (int, int)
  {
    if |pieces| < 2 then (0, 0)
    else
      match (ParseInt(pieces[0]), ParseInt(pieces[1]))
      case (Some(a), Some(b)) => (a, b)
      case _ => (0, 0)
  }

  /** `_clean_ratio_stat`: a dash-separated ratio if the text holds a dash,
      else a slash-separated one, else (0, 0). Neither component can be
      negative, since a minus sign would itself be a cut. */
  function CleanRatioStat(s: string): (r: (int, int))
    ensures s == "" ==> r == (0, 0)
    ensures '-' !in s && '/' !in s ==> r == (0, 0)
    ensures r.0 >= 0 && r.1 >= 0
  {
    if s == "" then (0, 0)
    else if '-' in s then
      var pieces := Split(s, '-');
      NonNegativePair(pieces);
      LeadingPair(pieces)
    else if '/' in s then
      var pieces := Split(s, '/');
      assert forall i :: 0 <= i < |pieces| ==> '-' !in pieces[i] by {
        JoinSplit(s, '/');
        forall i | 0 <= i < |pieces| ensures '-' !in pieces[i] {
          JoinHasPieceChars(pieces, "/", i);
        }
      }
      NonNegativePair(pieces);
      LeadingPair(pieces)
    else (0, 0)
  }

  lemma {:induction false} JoinHasPieceChars(parts: seq<string>, sep: string, i: nat)
    requires i < |parts|
    ensures forall c :: c in parts[i] ==> c in Join(parts, sep)
    decreases |parts|
  {
    if |parts| > 1 && i > 0 {
      JoinHasPieceChars(parts[1..], sep, i - 1);
    }
  }

  lemma ParseIntNoMinus(p: string)
    requires '-' !in p
    ensures ParseInt(p).Some? ==> ParseInt(p).value >= 0
  {
  }

  lemma NonNegativePair(pieces: seq<string>)
    requires forall i :: 0 <= i < |pieces| ==> '-' !in pieces[i]
    ensures LeadingPair(pieces).0 >= 0 && LeadingPair(pieces).1 >= 0
  {
    if |pieces| >= 2 {
      ParseIntNoMinus(pieces[0]);
      ParseIntNoMinus(pieces[1]);
    }
  }

  /** A ratio written with a dash parses to its two numbers. */
  lemma RatioDashRoundTrip(a: nat, b: nat)
    ensures CleanRatioStat(NatText(a) + "-" + NatText(b)) == (a, b)
  {
    ParseIntNatText(a);
    ParseIntNatText(b);
    RatioOfNumerals(NatText(a), NatText(b), '-', a, b);
  }

  /** A ratio written with a slash parses to its two numbers. */
  lemma RatioSlashRoundTrip(a: nat, b: nat)
    ensures CleanRatioStat(NatText(a) + "/" + NatText(b)) == (a, b)
  {
    ParseIntNatText(a);
    ParseIntNatText(b);
    RatioOfNumerals(NatText(a), NatText(b), '/', a, b);
  }

  lemma RatioOfNumerals(ta: string, tb: string, sep: char, a: int, b: int)
    requires sep == '-' || sep == '/'
    requires AllDigits(ta) && AllDigits(tb)
    requires ParseInt(ta) == Some(a) && ParseInt(tb) == Some(b)
    ensures CleanRatioStat(ta + [sep] + tb) == (a, b)
  {
    var s := ta + [sep] + tb;
    DigitsLack(ta, '-');
    DigitsLack(tb, '-');
    DigitsLack(ta, sep);
    DigitsLack(tb, sep);
    assert s[|ta|] == sep;
    assert sep == '/' ==> '-' !in s;
    SplitAfter(ta, sep, tb);
    SplitNoSep(tb, sep);
    assert Split(s, sep) == [ta, tb];
  }

  /** Only the first two pieces count: "1-2-3" reads as (1, 2). */
  lemma RatioExtraPiecesIgnored(a: nat, b: nat, rest: string)
    ensures CleanRatioStat(NatText(a) + "-" + NatText(b) + "-" + rest) == (a, b)
  {
    ParseIntNatText(a);
    ParseIntNatText(b);
    RatioOfLeadingNumerals(NatText(a), NatText(b), rest, a, b);
  }

  lemma RatioOfLeadingNumerals(ta: string, tb: string, rest: string, a: int, b: int)
    requires AllDigits(ta) && AllDigits(tb)
    requires ParseInt(ta) == Some(a) && ParseInt(tb) == Some(b)
    ensures CleanRatioStat(ta + "-" + tb + "-" + rest) == (a, b)
  {
    var s := ta + "-" + tb + "-" + rest;
    assert s[|ta|] == '-';
    CleanDash(s);
    SplitLeadingNumerals(ta, tb, rest);
    var pieces := Split(s, '-');
    assert pieces[0] == ta && pieces[1] == tb;
  }

  /** The cases of `_clean_ratio_stat` on a text with a separator: the
      text is cut at every dash when it holds one (a slash then stays
      inside a piece), else at every slash; the first two pieces give
      the pair when `int()` takes both, and (0, 0) otherwise. */
  lemma CleanRatioStatCases(s: string)
    requires '-' in s || '/' in s
    ensures var p := if '-' in s then Split(s, '-') else Split(s, '/');
      && (|p| < 2 ==> CleanRatioStat(s) == (0, 0))
      && (|p| >= 2 && (ParseInt(p[0]).None? || ParseInt(p[1]).None?) ==> CleanRatioStat(s) == (0, 0))
      && (|p| >= 2 && ParseInt(p[0]).Some? && ParseInt(p[1]).Some? ==>
            CleanRatioStat(s) == (ParseInt(p[0]).value, ParseInt(p[1]).value))
  {
  }

  /** The dash is looked for first: "4/13-2" is cut into "4/13" and "2",
      and `int("4/13")` fails, so the line reads as (0, 0) although its
      slash-separated reading would be a ratio. */
  lemma DashBeforeSlash(a: string, b: string)
    requires '/' in a && '-' !in a
    ensures CleanRatioStat(a + "-" + b) == (0, 0)
  {
    var s := a + "-" + b;
    assert s == a + ['-'] + b;
    assert s[|a|] == '-';
    SplitAfter(a, '-', b);
    IntRejects(a, '/');
  }

  lemma CleanDash(s: string)
    requires '-' in s
    ensures CleanRatioStat(s) == LeadingPair(Split(s, '-'))
  {
  }

  lemma SplitLeadingNumerals(ta: string, tb: string, rest: string)
    requires AllDigits(ta) && AllDigits(tb)
    ensures Split(ta + "-" + tb + "-" + rest, '-') == [ta, tb] + Split(rest, '-')
  {
    var tail := tb + ['-'] + rest;
    assert ta + "-" + tb + "-" + rest == ta + ['-'] + tail;
    DigitsLack(ta, '-');
    DigitsLack(tb, '-');
    SplitAfter(ta, '-', tail);
    SplitAfter(tb, '-', rest);
  }

  /** A leading minus sign leaves an empty first piece, hence (0, 0). */
  lemma RatioNegativeRejected(rest: string)
    ensures CleanRatioStat("-" + rest) == (0, 0)
  {
    var s := "-" + rest;
    assert s[0] == '-';
    assert s == "" + ['-'] + rest;
    SplitAfter("", '-', rest);
    assert ParseInt("") == None;
  }

  /** A numeral holds no separator or sign. */
  lemma DigitsLack(t: string, c: char)
    requires AllDigits(t) && !IsDigit(c)
    ensures c !in t
  {
  }

  /** A ratio field of the raw payload. JSON null, "" and 0 are falsy and read
      as (0, 0); a non-zero number makes the `in` test raise (no value). */
  function RatioField(v: Scalar): (r: Option<(int, int)>)
    ensures v.Text? ==> r == Some(CleanRatioStat(v.s))
    ensures v.Null? ==> r == Some((0, 0))
  {
    match v
    case Null => Some((0, 0))
    case Text(s) => Some(CleanRatioStat(s))
    case Num(n) => if n == 0.0 then Some((0, 0)) else None
  }

  // ---------------------------------------------------------------------
  // Clock "29:20"
  // ---------------------------------------------------------------------

  /** `_convert_time_to_decimal`: minutes plus seconds / 60 when the text
      splits on ':' into exactly two numerals, else 0.0; a value that is not
      text at all also reads as 0.0. */
  function ConvertTimeToDecimal(v: Scalar): real
  {
    match v
    case Text(s) => ClockParts(Split(s, ':'))
    case _ => 0.0
  }

  function ClockParts(parts: seq<string>): real
  {
    if |parts| != 2 then 0.0
    else
      match (ParseFloat(parts[0]), ParseFloat(parts[1]))
      case (Some(m), Some(sec)) => m + sec / 60.0
      case _ => 0.0
  }

  /** "MM:SS" reads as MM + SS/60. */
  lemma ClockRoundTrip(m: nat, s: nat)
    ensures ConvertTimeToDecimal(Text(NatText(m) + ":" + NatText(s))) == m as real + s as real / 60.0
  {
    var tm, ts := NatText(m), NatText(s);
    assert tm + ":" + ts == tm + [':'] + ts;
    DigitsLack(tm, ':');
    DigitsLack(ts, ':');
    SplitAfter(tm, ':', ts);
    SplitNoSep(ts, ':');
    assert Split(tm + ":" + ts, ':') == [tm, ts];
    ParseFloatNatText(m);
    ParseFloatNatText(s);
    assert ClockParts([tm, ts]) == m as real + s as real / 60.0;
  }

  /** Text without a colon, or with more than one, reads as 0.0. */
  lemma ClockMalformed(s: string)
    requires ':' !in s || (exists i, j :: 0 <= i < j < |s| && s[i] == ':' && s[j] == ':')
    ensures ConvertTimeToDecimal(Text(s)) == 0.0
  {
    if ':' !in s {
      SplitNoSep(s, ':');
    } else {
      var i, j :| 0 <= i < j < |s| && s[i] == ':' && s[j] == ':';
      SplitAtLeastThree(s, i, j);
    }
  }

  lemma {:induction false} SplitAtLeastThree(s: string, i: nat, j: nat)
    requires i < j < |s| && s[i] == ':' && s[j] == ':'
    ensures |Split(s, ':')| >= 3
    decreases |s|
  {
    if i > 0 {
      SplitAtLeastThree(s[1..], i - 1, j - 1);
    } else {
      SplitAtLeastTwo(s[1..], j - 1);
    }
  }

  lemma {:induction false} SplitAtLeastTwo(s: string, j: nat)
    requires j < |s| && s[j] == ':'
    ensures |Split(s, ':')| >= 2
    decreases |s|
  {
    if j > 0 {
      SplitAtLeastTwo(s[1..], j - 1);
    }
  }

  // ---------------------------------------------------------------------
  // Derived percentages
  // ---------------------------------------------------------------------

  /** `round(num / den * 100 if den else 0, 2)`: defined for a zero
      denominator, where it is 0. */
  function Percentage(num: int, den: int): (r: real)
    ensures den == 0 ==> r == 0.0
    ensures den != 0 ==> -0.005 <= r - num as real / den as real * 100.0 <= 0.005
  {
    if den == 0 then 0.0 else Round2(num as real / den as real * 100.0)
  }

  lemma ShareAtMostOne(n: real, m: real)
    requires 0.0 <= n <= m && m > 0.0
    ensures 0.0 <= n / m <= 1.0
  {
    var q := n / m;
    assert q * m == n;
    assert (1.0 - q) * m == m - n;
  }

  /** A share of at most the whole is a percentage between 0 and 100. */
  lemma PercentageBounds(num: int, den: int)
    requires 0 <= num <= den
    ensures 0.0 <= Percentage(num, den) <= 100.0
  {
    if den != 0 {
      ShareAtMostOne(num as real, den as real);
      var x := num as real / den as real * 100.0;
      var y := x * 100.0;
      assert 0.0 <= y <= 10000.0;
      var r := RoundHalfEven(y);
      assert -1 < r < 10001;
    }
  }

  // ---------------------------------------------------------------------
  // Team statistics of one game
  // ---------------------------------------------------------------------

  /** The statistics block the API returns for one team in one game,
      flattened from its nested groups. */
  datatype RawTeamStats = RawTeamStats(
    firstDownsTotal: Scalar, firstDownsPassing: Scalar, firstDownsRushing: Scalar,
    firstDownsFromPenalties: Scalar, thirdDownEfficiency: Scalar, fourthDownEfficiency: Scalar,
    playsTotal: Scalar, yardsTotal: Scalar, yardsPerPlay: Scalar,
    passingTotal: Scalar, compAtt: Scalar, yardsPerPass: Scalar, sacksYardsLost: Scalar,
    rushingsTotal: Scalar, rushingsAttempts: Scalar, yardsPerRush: Scalar,
    redZoneMadeAtt: Scalar, penaltiesTotal: Scalar, turnoversTotal: Scalar,
    possessionTotal: Scalar, pointsAgainstTotal: Scalar)

  /** The cleaned record of one team in one game, every value already put
      through the `float()` it meets on its way into the cache. */
  datatype TeamLine = TeamLine(
    firstDownsTotal: real, firstDownsPassing: real, firstDownsRushing: real, firstDownsPenalties: real,
    thirdDownAttempts: real, thirdDownConversions: real, thirdDownPct: real,
    fourthDownAttempts: real, fourthDownConversions: real, fourthDownPct: real,
    totalPlays: real, totalYards: real, yardsPerPlay: real,
    passingYards: real, passingAttempts: real, passingCompletions: real, completionPct: real,
    yardsPerPass: real, sacks: real, sacksYardsLost: real,
    rushingYards: real, rushingAttempts: real, yardsPerRush: real,
    redzoneAttempts: real, redzoneScores: real, redzonePct: real,
    penalties: real, penaltyYards: real, turnovers: real, possessionTime: real, pointsAgainst: real)

  /** The stat names of the record, in the order the cleaner writes them. */
  const TeamStatNames: seq<string> := [
    "first_downs_total", "first_downs_passing", "first_downs_rushing", "first_downs_penalties",
    "third_down_attempts", "third_down_conversions", "third_down_pct",
    "fourth_down_attempts", "fourth_down_conversions", "fourth_down_pct",
    "total_plays", "total_yards", "yards_per_play",
    "passing_yards", "passing_attempts", "passing_completions", "completion_pct", "yards_per_pass",
    "sacks", "sacks_yards_lost",
    "rushing_yards", "rushing_attempts", "yards_per_rush",
    "redzone_attempts", "redzone_scores", "redzone_pct",
    "penalties", "penalty_yards", "turnovers", "possession_time", "points_against"]

  /** The field of the cleaned record stored under the `i`-th stat name. */
  function StatField(l: TeamLine, i: int): real
    requires 0 <= i < |TeamStatNames|
  {
    if i == 0 then l.firstDownsTotal
    else if i == 1 then l.firstDownsPassing
    else if i == 2 then l.firstDownsRushing
    else if i == 3 then l.firstDownsPenalties
    else if i == 4 then l.thirdDownAttempts
    else if i == 5 then l.thirdDownConversions
    else if i == 6 then l.thirdDownPct
    else if i == 7 then l.fourthDownAttempts
    else if i == 8 then l.fourthDownConversions
    else if i == 9 then l.fourthDownPct
    else if i == 10 then l.totalPlays
    else if i == 11 then l.totalYards
    else if i == 12 then l.yardsPerPlay
    else if i == 13 then l.passingYards
    else if i == 14 then l.passingAttempts
    else if i == 15 then l.passingCompletions
    else if i == 16 then l.completionPct
    else if i == 17 then l.yardsPerPass
    else if i == 18 then l.sacks
    else if i == 19 then l.sacksYardsLost
    else if i == 20 then l.rushingYards
    else if i == 21 then l.rushingAttempts
    else if i == 22 then l.yardsPerRush
    else if i == 23 then l.redzoneAttempts
    else if i == 24 then l.redzoneScores
    else if i == 25 then l.redzonePct
    else if i == 26 then l.penalties
    else if i == 27 then l.penaltyYards
    else if i == 28 then l.turnovers
    else if i == 29 then l.possessionTime
    else l.pointsAgainst
  }

  /** The record as the (stat name, value) pairs the cache stores, in
      the order the cleaner writes them, each name with its own field. */
  function TeamLineEntries(l: TeamLine): (r: seq<(string, real)>)
    ensures |r| == |TeamStatNames|
    ensures forall i :: 0 <= i < |r| ==> r[i].0 == TeamStatNames[i] && r[i].1 == StatField(l, i)
  {
    seq(|TeamStatNames|, i requires 0 <= i < |TeamStatNames| => (TeamStatNames[i], StatField(l, i)))
  }

  /** The value `_clean_team_stats` returns under the `i`-th stat name:
      the counts it copies from the feed keep the feed's own values; the
      ratios, percentages, rates and the clock are numbers. */
  function RecordField(s: RawTeamStats, l: TeamLine, i: int): Scalar
    requires 0 <= i < |TeamStatNames|
  {
    if i == 0 then s.firstDownsTotal
    else if i == 1 then s.firstDownsPassing
    else if i == 2 then s.firstDownsRushing
    else if i == 3 then s.firstDownsFromPenalties
    else if i == 10 then s.playsTotal
    else if i == 11 then s.yardsTotal
    else if i == 13 then s.passingTotal
    else if i == 20 then s.rushingsTotal
    else if i == 21 then s.rushingsAttempts
    else if i == 28 then s.turnoversTotal
    else if i == 30 then s.pointsAgainstTotal
    else Num(StatField(l, i))
  }

  /** The record `_clean_team_stats` returns, which is what the backfill
      gathers for a fresh game. */
  function CleanedRecord(s: RawTeamStats, l: TeamLine): (r: seq<(string, Scalar)>)
    ensures |r| == |TeamStatNames|
    ensures forall i :: 0 <= i < |r| ==> r[i].0 == TeamStatNames[i] && r[i].1 == RecordField(s, l, i)
  {
    seq(|TeamStatNames|, i requires 0 <= i < |TeamStatNames| => (TeamStatNames[i], RecordField(s, l, i)))
  }

  /** The counts the cleaner copies from the feed are, in the cleaned
      record, what the conversion `conv` makes of them. */
  predicate CountsConvertedBy(s: RawTeamStats, l: TeamLine, conv: Scalar -> Option<real>)
  {
    conv(s.firstDownsTotal) == Some(l.firstDownsTotal)
    && conv(s.firstDownsPassing) == Some(l.firstDownsPassing)
    && conv(s.firstDownsRushing) == Some(l.firstDownsRushing)
    && conv(s.firstDownsFromPenalties) == Some(l.firstDownsPenalties)
    && conv(s.playsTotal) == Some(l.totalPlays)
    && conv(s.yardsTotal) == Some(l.totalYards)
    && conv(s.passingTotal) == Some(l.passingYards)
    && conv(s.rushingsTotal) == Some(l.rushingYards)
    && conv(s.rushingsAttempts) == Some(l.rushingAttempts)
    && conv(s.turnoversTotal) == Some(l.turnovers)
    && conv(s.pointsAgainstTotal) == Some(l.pointsAgainst)
  }

  lemma RawCountsStored(s: RawTeamStats, l: TeamLine)
    requires CleanTeamStats(s) == Some(l)
    ensures CountsConvertedBy(s, l, Float)
  {
  }

  /** What the cache stores under a name is the conversion of what the
      record returns under it, for any conversion that keeps a number and
      turns each copied count into its cleaned value. */
  lemma RecordFieldStored(s: RawTeamStats, l: TeamLine, i: int, conv: Scalar -> Option<real>)
    requires CountsConvertedBy(s, l, conv) && 0 <= i < |TeamStatNames|
    requires forall x :: conv(Num(x)) == Some(x)
    ensures conv(RecordField(s, l, i)) == Some(StatField(l, i))
  {
    if i == 0 {
    } else if i == 1 {
    } else if i == 2 {
    } else if i == 3 {
    } else if i == 10 {
    } else if i == 11 {
    } else if i == 13 {
    } else if i == 20 {
    } else if i == 21 {
    } else if i == 28 {
    } else if i == 30 {
    } else {
      assert RecordField(s, l, i) == Num(StatField(l, i));
    }
  }

  /** Row by row, the cache stores each stat of the returned record under
      its name, as `float()` of its value. */
  lemma CleanedRecordStored(s: RawTeamStats, l: TeamLine)
    requires CleanTeamStats(s) == Some(l)
    ensures forall i :: 0 <= i < |TeamStatNames| ==>
      CleanedRecord(s, l)[i].0 == TeamLineEntries(l)[i].0 &&
      Float(CleanedRecord(s, l)[i].1) == Some(TeamLineEntries(l)[i].1)
  {
    RawCountsStored(s, l);
    forall i | 0 <= i < |TeamStatNames|
      ensures Float(CleanedRecord(s, l)[i].1) == Some(TeamLineEntries(l)[i].1)
    {
      RecordFieldStored(s, l, i, Float);
    }
  }

  /** `_clean_team_stats` with the `float()` of the cache write folded in.
      No value means a conversion raised, which rolls the backfill back. */
  function CleanTeamStats(s: RawTeamStats): Option<TeamLine>
  {
    var td := RatioField(s.thirdDownEfficiency);
    var fd := RatioField(s.fourthDownEfficiency);
    var ca := RatioField(s.compAtt);
    var pen := RatioField(s.penaltiesTotal);
    var rz := RatioField(s.redZoneMadeAtt);
    var sk := RatioField(s.sacksYardsLost);
    var fdTotal := Float(s.firstDownsTotal);
    var fdPass := Float(s.firstDownsPassing);
    var fdRush := Float(s.firstDownsRushing);
    var fdPen := Float(s.firstDownsFromPenalties);
    var plays := Float(s.playsTotal);
    var yards := Float(s.yardsTotal);
    var ypp := Float(s.yardsPerPlay);
    var passYds := Float(s.passingTotal);
    var ypPass := Float(s.yardsPerPass);
    var rushYds := Float(s.rushingsTotal);
    var rushAtt := Float(s.rushingsAttempts);
    var ypRush := Float(s.yardsPerRush);
    var tov := Float(s.turnoversTotal);
    var pa := Float(s.pointsAgainstTotal);
    if td.None? || fd.None? || ca.None? || pen.None? || rz.None? || sk.None?
      || fdTotal.None? || fdPass.None? || fdRush.None? || fdPen.None? || plays.None?
      || yards.None? || ypp.None? || passYds.None? || ypPass.None? || rushYds.None?
      || rushAtt.None? || ypRush.None? || tov.None? || pa.None?
    then None
    else
      Some(TeamLine(
        fdTotal.value, fdPass.value, fdRush.value, fdPen.value,
        td.value.1 as real, td.value.0 as real, Percentage(td.value.0, td.value.1),
        fd.value.1 as real, fd.value.0 as real, Percentage(fd.value.0, fd.value.1),
        plays.value, yards.value, ypp.value,
        passYds.value, ca.value.1 as real, ca.value.0 as real, Percentage(ca.value.0, ca.value.1),
        ypPass.value, sk.value.0 as real, sk.value.1 as real,
        rushYds.value, rushAtt.value, ypRush.value,
        rz.value.1 as real, rz.value.0 as real, Percentage(rz.value.0, rz.value.1),
        pen.value.0 as real, pen.value.1 as real, tov.value,
        ConvertTimeToDecimal(s.possessionTotal), pa.value))
  }

  /** Each ratio lands as (made, attempted) in its pair of fields; its
      percentage is 0 for zero attempts and otherwise made / attempted * 100
      to within rounding, and it is never negative. */
  lemma CleanedRatioFields(s: RawTeamStats, td: string, ca: string)
    requires s.thirdDownEfficiency == Text(td) && s.compAtt == Text(ca)
    requires CleanTeamStats(s).Some?
    ensures var l := CleanTeamStats(s).value;
      var (c3, a3) := CleanRatioStat(td);
      var (cc, ac) := CleanRatioStat(ca);
      && l.thirdDownConversions == c3 as real && l.thirdDownAttempts == a3 as real
      && l.passingCompletions == cc as real && l.passingAttempts == ac as real
      && (a3 == 0 ==> l.thirdDownPct == 0.0)
      && (a3 != 0 ==> -0.005 <= l.thirdDownPct - c3 as real / a3 as real * 100.0 <= 0.005)
      && (ac == 0 ==> l.completionPct == 0.0)
      && (ac != 0 ==> -0.005 <= l.completionPct - cc as real / ac as real * 100.0 <= 0.005)
      && 0.0 <= l.thirdDownPct && 0.0 <= l.completionPct
  {
    var (c3, a3) := CleanRatioStat(td);
    var (cc, ac) := CleanRatioStat(ca);
    PercentageNonNegative(c3, a3);
    PercentageNonNegative(cc, ac);
  }

  /** The other four ratio lines of a cleaned record: fourth downs and red
      zone visits become attempts, successes and a rounded percentage;
      sacks and penalties become their two counts, first piece first. A
      missing line counts as "0-0". */
  lemma CleanedOtherRatios(s: RawTeamStats)
    requires CleanTeamStats(s).Some?
    ensures var l := CleanTeamStats(s).value;
      && RatioField(s.fourthDownEfficiency).Some? && RatioField(s.redZoneMadeAtt).Some?
      && RatioField(s.sacksYardsLost).Some? && RatioField(s.penaltiesTotal).Some?
      && var (c4, a4) := RatioField(s.fourthDownEfficiency).value;
      var (cz, az) := RatioField(s.redZoneMadeAtt).value;
      var (sn, sy) := RatioField(s.sacksYardsLost).value;
      var (pn, py) := RatioField(s.penaltiesTotal).value;
      && l.fourthDownConversions == c4 as real && l.fourthDownAttempts == a4 as real
      && (a4 == 0 ==> l.fourthDownPct == 0.0)
      && (a4 != 0 ==> -0.005 <= l.fourthDownPct - c4 as real / a4 as real * 100.0 <= 0.005)
      && l.redzoneScores == cz as real && l.redzoneAttempts == az as real
      && (az == 0 ==> l.redzonePct == 0.0)
      && (az != 0 ==> -0.005 <= l.redzonePct - cz as real / az as real * 100.0 <= 0.005)
      && l.sacks == sn as real && l.sacksYardsLost == sy as real
      && l.penalties == pn as real && l.penaltyYards == py as real
  {
  }

  lemma PercentageNonNegative(num: int, den: int)
    requires num >= 0 && den >= 0
    ensures Percentage(num, den) >= 0.0
  {
    if den != 0 {
      var x := num as real / den as real * 100.0;
      assert x >= 0.0;
      assert RoundHalfEven(x * 100.0) >= 0;
    }
  }

  /** A "0-0" third-down line gives a third-down percentage of 0, not an error. */
  lemma ZeroAttemptsZeroPercent(s: RawTeamStats)
    requires s.thirdDownEfficiency == Text("0-0")
    requires CleanTeamStats(s).Some?
    ensures CleanTeamStats(s).value.thirdDownPct == 0.0
    ensures CleanTeamStats(s).value.thirdDownAttempts == 0.0
  {
    ZeroRatio();
    ThirdDownOf(s);
  }

  lemma ZeroRatio()
    ensures CleanRatioStat("0-0") == (0, 0)
  {
    RatioDashRoundTrip(0, 0);
    assert NatText(0) == "0";
    assert NatText(0) + "-" + NatText(0) == "0-0";
  }

  lemma ThirdDownOf(s: RawTeamStats)
    requires CleanTeamStats(s).Some?
    ensures RatioField(s.thirdDownEfficiency).Some?
    ensures var (c, a) := RatioField(s.thirdDownEfficiency).value;
      && CleanTeamStats(s).value.thirdDownAttempts == a as real
      && CleanTeamStats(s).value.thirdDownPct == Percentage(c, a)
  {
  }

  /** A non-zero number where a ratio is expected makes the cleaner raise. */
  lemma NumericRatioRaises(s: RawTeamStats, n: real)
    requires s.compAtt == Num(n) && n != 0.0
    ensures CleanTeamStats(s).None?
  {
  }

  // ---------------------------------------------------------------------
  // Quarterback statistics
  // ---------------------------------------------------------------------

  /** One `{name, value}` entry of a player's passing statistics. */
  datatype QbEntry = QbEntry(name: string, value: Scalar)

  /** Python's `int(x)`: numbers truncate, text must be an integer numeral,
      None is a TypeError (no value). */
  function Int(v: Scalar): Option<int>
  {
    match v
    case Num(n) => Some(TruncInt(n))
    case Text(s) => ParseInt(s)
    case Null => None
  }

  /** `name.replace(' ', '_')`. */
  function Underscored(name: string): (r: string)
    ensures |r| == |name| && ' ' !in r
    ensures forall i :: 0 <= i < |name| ==> r[i] == (if name[i] == ' ' then '_' else name[i])
  {
    seq(|name|, i requires 0 <= i < |name| => if name[i] == ' ' then '_' else name[i])
  }

  const IntQbNames: set<string> := {"yards", "passing touch downs", "interceptions", "two pt"}

  /** Every key the normaliser can write. */
  const QbKeys: set<string> := {
    "completions", "attempts", "completion_pct", "sacks", "sack_yards",
    "yards", "passing_touch_downs", "interceptions", "two_pt",
    "yards_per_attempt", "average", "passer_rating", "rating"}

  /** The effect of one entry on the record being built; no value when the
      entry raises an error the loop does not catch. */
  function CleanQbEntry(acc: map<string, Scalar>, e: QbEntry): Option<map<string, Scalar>>
  {
    if e.name == "comp att" then
      match RatioField(e.value)
      case None => None
      case Some((comp, att)) =>
        Some(acc["completions" := Num(comp as real)]["attempts" := Num(att as real)]
                ["completion_pct" := Num(Percentage(comp, att))])
    else if e.name == "sacks" then
      match RatioField(e.value)
      case None => None
      case Some((sacks, yards)) =>
        Some(acc["sacks" := Num(sacks as real)]["sack_yards" := Num(yards as real)])
    else if e.name in IntQbNames then
      match Int(e.value)
      case Some(i) => Some(acc[Underscored(e.name) := Num(i as real)])
      case None => Some(acc[Underscored(e.name) := e.value])
    else if e.name == "average" then
      match Float(e.value)
      case Some(x) => Some(acc["yards_per_attempt" := Num(x)])
      case None => Some(acc["average" := e.value])
    else if e.name == "rating" then
      match Float(e.value)
      case Some(x) => Some(acc["passer_rating" := Num(x)])
      case None => Some(acc["rating" := e.value])
    else Some(acc)
  }

  /** The record after the first `|entries|` entries, entry by entry. */
  function QbRecord(entries: seq<QbEntry>): Option<map<string, Scalar>>
    decreases |entries|
  {
    if |entries| == 0 then Some(map[])
    else
      match QbRecord(entries[..|entries| - 1])
      case None => None
      case Some(acc) => CleanQbEntry(acc, entries[|entries| - 1])
  }

  /** `_clean_qb_stats`: the loop over the entries. No value means an entry
      raised (a non-zero number where a ratio was expected). */
  method CleanQbStats(entries: seq<QbEntry>) returns (r: Option<map<string, Scalar>>)
    ensures r == QbRecord(entries)
  {
    var cleaned: map<string, Scalar> := map[];
    var i := 0;
    while i < |entries|
      invariant 0 <= i <= |entries|
      invariant QbRecord(entries[..i]) == Some(cleaned)
    {
      assert entries[..i + 1][..i] == entries[..i];
      var next := CleanQbEntry(cleaned, entries[i]);
      if next.None? {
        NoneSticks(entries, i + 1);
        return None;
      }
      cleaned := next.value;
      i := i + 1;
    }
    assert entries[..i] == entries;
    r := Some(cleaned);
  }

  lemma {:induction false} NoneSticks(entries: seq<QbEntry>, k: nat)
    requires k <= |entries| && QbRecord(entries[..k]).None?
    ensures QbRecord(entries).None?
    decreases |entries| - k
  {
    if k < |entries| {
      assert entries[..k + 1][..k] == entries[..k];
      NoneSticks(entries, k + 1);
    } else {
      assert entries[..k] == entries;
    }
  }

  /** Every key written is one of the normaliser's fields. */
  lemma {:induction false} QbRecordKeys(entries: seq<QbEntry>)
    ensures QbRecord(entries).Some? ==> QbRecord(entries).value.Keys <= QbKeys
    decreases |entries|
  {
    if |entries| > 0 {
      QbRecordKeys(entries[..|entries| - 1]);
      var e := entries[|entries| - 1];
      if e.name in IntQbNames {
        assert Underscored("yards") == "yards";
        assert Underscored("passing touch downs") == "passing_touch_downs";
        assert Underscored("interceptions") == "interceptions";
        assert Underscored("two pt") == "two_pt";
      }
    }
  }

  /** An entry with any other name is dropped without a trace. */
  lemma UnknownEntryDropped(entries: seq<QbEntry>, e: QbEntry)
    requires e.name !in IntQbNames && e.name !in {"comp att", "sacks", "average", "rating"}
    ensures QbRecord(entries + [e]) == QbRecord(entries)
  {
    assert (entries + [e])[..|entries|] == entries;
  }

  /** "comp att" gives completions, attempts and their percentage, which is
      0 for zero attempts. */
  lemma CompAttEntry(entries: seq<QbEntry>, comp: nat, att: nat)
    requires QbRecord(entries).Some?
    ensures var r := QbRecord(entries + [QbEntry("comp att", Text(NatText(comp) + "/" + NatText(att)))]);
      && r.Some?
      && r.value["completions"] == Num(comp as real)
      && r.value["attempts"] == Num(att as real)
      && (att == 0 ==> r.value["completion_pct"] == Num(0.0))
      && (att != 0 ==>
            exists p :: (r.value["completion_pct"] == Num(p) && -0.005 <= p - comp as real / att as real * 100.0 <= 0.005))
  {
    var e := QbEntry("comp att", Text(NatText(comp) + "/" + NatText(att)));
    assert (entries + [e])[..|entries|] == entries;
    RatioSlashRoundTrip(comp, att);
  }

  /** A listed integer stat that does not convert keeps its raw value under
      the underscored name; "average" and "rating" are renamed on success. */
  lemma ConversionOutcomes(entries: seq<QbEntry>, raw: string, x: real)
    requires QbRecord(entries).Some?
    requires ParseInt(raw).None?
    ensures var r := QbRecord(entries + [QbEntry("passing touch downs", Text(raw))]);
      r.Some? && "passing_touch_downs" in r.value && r.value["passing_touch_downs"] == Text(raw)
    ensures var r := QbRecord(entries + [QbEntry("average", Num(x))]);
      r.Some? && "yards_per_attempt" in r.value && r.value["yards_per_attempt"] == Num(x)
    ensures var r := QbRecord(entries + [QbEntry("rating", Null)]);
      r.Some? && "rating" in r.value && r.value["rating"] == Null
  {
    var acc := QbRecord(entries).value;
    var e1 := QbEntry("passing touch downs", Text(raw));
    var e2 := QbEntry("average", Num(x));
    var e3 := QbEntry("rating", Null);
    QbRecordSnoc(entries, e1);
    QbRecordSnoc(entries, e2);
    QbRecordSnoc(entries, e3);
    TouchdownsKeptRaw(acc, raw);
    AverageRenamed(acc, x);
    RatingKeptRaw(acc);
  }

  lemma QbRecordSnoc(entries: seq<QbEntry>, e: QbEntry)
    requires QbRecord(entries).Some?
    ensures QbRecord(entries + [e]) == CleanQbEntry(QbRecord(entries).value, e)
  {
    assert (entries + [e])[..|entries|] == entries;
  }

  lemma TouchdownsKeptRaw(acc: map<string, Scalar>, raw: string)
    requires ParseInt(raw).None?
    ensures var r := CleanQbEntry(acc, QbEntry("passing touch downs", Text(raw)));
      r.Some? && "passing_touch_downs" in r.value && r.value["passing_touch_downs"] == Text(raw)
  {
    var e := QbEntry("passing touch downs", Text(raw));
    assert e.name in IntQbNames && e.name != "comp att" && e.name != "sacks";
    assert Int(e.value).None?;
    UnderscoredTouchdowns();
  }

  lemma UnderscoredTouchdowns()
    ensures Underscored("passing touch downs") == "passing_touch_downs"
  {
  }

  lemma AverageRenamed(acc: map<string, Scalar>, x: real)
    ensures var r := CleanQbEntry(acc, QbEntry("average", Num(x)));
      r.Some? && "yards_per_attempt" in r.value && r.value["yards_per_attempt"] == Num(x)
  {
  }

  lemma RatingKeptRaw(acc: map<string, Scalar>)
    ensures var r := CleanQbEntry(acc, QbEntry("rating", Null));
      r.Some? && "rating" in r.value && r.value["rating"] == Null
  {
  }

  // ---------------------------------------------------------------------
  // Primary quarterback per team (the payload handling of get_qb_stats)
  // ---------------------------------------------------------------------

  datatype QbPlayer = QbPlayer(name: string, id: int, statistics: seq<QbEntry>)

  /** One team of the players-statistics response: its name and its groups,
      each group a list of players. */
  datatype QbTeamBlock = QbTeamBlock(teamName: string, groups: seq<seq<QbPlayer>>)

  /** The primary quarterback of a block: the first player of the first group. */
  function Primary(b: QbTeamBlock): Option<QbPlayer>
  {
    if |b.groups| > 0 && |b.groups[0]| > 0 then Some(b.groups[0][0]) else None
  }

  /** The record kept for a player: name and id, then the cleaned statistics. */
  function PlayerRecord(p: QbPlayer, cleaned: map<string, Scalar>): (r: map<string, Scalar>)
    ensures "player_name" in r && r["player_name"] == Text(p.name)
  {
    cleaned["player_name" := Text(p.name)]["player_id" := Num(p.id as real)]
  }

  /** The team-keyed records after the given blocks, or no value if a
      player's statistics raised (then the whole response yields {}). */
  function PrimaryRecords(blocks: seq<QbTeamBlock>): Option<map<string, map<string, Scalar>>>
    decreases |blocks|
  {
    if |blocks| == 0 then Some(map[])
    else
      match PrimaryRecords(blocks[..|blocks| - 1])
      case None => None
      case Some(acc) =>
        var b := blocks[|blocks| - 1];
        match Primary(b)
        case None => Some(acc)
        case Some(p) =>
          match QbRecord(p.statistics)
          case None => None
          case Some(c) => Some(acc[b.teamName := PlayerRecord(p, c)])
  }

  /** The loop of get_qb_stats over the response's team blocks. */
  method PrimaryQbStats(blocks: seq<QbTeamBlock>) returns (r: map<string, map<string, Scalar>>)
    ensures r == match PrimaryRecords(blocks) case Some(m) => m case None => map[]
  {
    var acc: map<string, map<string, Scalar>> := map[];
    var i := 0;
    while i < |blocks|
      invariant 0 <= i <= |blocks|
      invariant PrimaryRecords(blocks[..i]) == Some(acc)
    {
      assert blocks[..i + 1][..i] == blocks[..i];
      var b := blocks[i];
      var p := Primary(b);
      if p.Some? {
        var cleaned := CleanQbStats(p.value.statistics);
        if cleaned.None? {
          PrimaryNoneSticks(blocks, i + 1);
          return map[];
        }
        acc := acc[b.teamName := PlayerRecord(p.value, cleaned.value)];
      }
      i := i + 1;
    }
    assert blocks[..i] == blocks;
    r := acc;
  }

  lemma {:induction false} PrimaryNoneSticks(blocks: seq<QbTeamBlock>, k: nat)
    requires k <= |blocks| && PrimaryRecords(blocks[..k]).None?
    ensures PrimaryRecords(blocks).None?
    decreases |blocks| - k
  {
    if k < |blocks| {
      assert blocks[..k + 1][..k] == blocks[..k];
      PrimaryNoneSticks(blocks, k + 1);
    } else {
      assert blocks[..k] == blocks;
    }
  }

  /** A team gets a record only from a block of its own that has a primary
      player, and the record names that player. */
  lemma {:induction false} PrimaryRecordsSound(blocks: seq<QbTeamBlock>, t: string)
    requires PrimaryRecords(blocks).Some? && t in PrimaryRecords(blocks).value
    ensures exists i, p, c :: (0 <= i < |blocks| && blocks[i].teamName == t && Primary(blocks[i]) == Some(p)
      && QbRecord(p.statistics) == Some(c) && PrimaryRecords(blocks).value[t] == PlayerRecord(p, c))
    decreases |blocks|
  {
    var init := blocks[..|blocks| - 1];
    var b := blocks[|blocks| - 1];
    var acc := PrimaryRecords(init).value;
    if Primary(b).Some? && b.teamName == t {
      var p := Primary(b).value;
      var c := QbRecord(p.statistics).value;
      assert PrimaryRecords(blocks).value[t] == PlayerRecord(p, c);
      assert blocks[|blocks| - 1] == b;
    } else {
      PrimaryRecordsSound(init, t);
      var i, p, c :| 0 <= i < |init| && init[i].teamName == t && Primary(init[i]) == Some(p)
        && QbRecord(p.statistics) == Some(c) && acc[t] == PlayerRecord(p, c);
      assert blocks[i] == init[i];
    }
  }
}
