/** The odds engine of predictor.py: the single-book odds of a game with
    its filters and label format (`get_game_odds`), the aggregation of many
    books' quotes per line (`_process_bookmaker_odds`), the consensus line
    (`_calculate_consensus`) and the key-number alerts
    (`_analyze_key_numbers`). */
module Odds {
  import opened Common
  import opened Dict
  import opened Table

  // ---------------------------------------------------------------------
  // The odds feed
  // ---------------------------------------------------------------------

  /** One `{value, odd}` entry of a bet: the line text (`"Home -3.5"`,
      `"Over 45.5"`) and the decimal price as the feed sends it. */
  datatype Quote = Quote(value: string, odd: Scalar)

  /** A bet of one bookmaker: its market name and its quotes. */
  datatype Bet = Bet(name: string, values: seq<Quote>)

  const Handicap := "Asian Handicap"
  const OverUnder := "Over/Under"

  /** The bookmaker whose odds `get_game_odds` serves (Dafabet). */
  const Dafabet := 18

  // ---------------------------------------------------------------------
  // str(float) for the non-negative numbers of a line
  // ---------------------------------------------------------------------

  /** The decimal digits of a fraction in [0, 1), at most `n` of them,
      stopping as soon as nothing is left. */
  function FracDigits(f: real, n: nat): (r: string)
    requires 0.0 <= f < 1.0
    ensures AllDigits(r) && |r| <= n
    decreases n
  {
    if n == 0 || f == 0.0 then ""
    else
      var d := (f * 10.0).Floor;
      [DigitChar(d)] + FracDigits(f * 10.0 - d as real, n - 1)
  }

  /** `str(x)` for a non-negative float: the whole part, a point and the
      fraction's digits, with `.0` for a whole number. */
  function FloatText(x: real): (r: string)
    requires x >= 0.0
    ensures |r| > 0 && NoSpace(r) && IsDigit(r[0])
  {
    var w: nat := x.Floor;
    var f := x - w as real;
    var digits := if f == 0.0 then "0" else FracDigits(f, 17);
    var r := NatText(w) + "." + digits;
    assert r[0] == NatText(w)[0];
    assert forall i :: 0 <= i < |r| ==> IsDigit(r[i]) || r[i] == '.';
    r
  }

  /** `str(x)` for any float: a minus sign before a negative number. */
  function SignedFloatText(x: real): (r: string)
    ensures |r| > 0 && NoSpace(r)
  {
    if x < 0.0 then
      var r := "-" + FloatText(-x);
      assert forall i :: 1 <= i < |r| ==> r[i] == FloatText(-x)[i - 1];
      r
    else FloatText(x)
  }

  lemma FloatTextExamples()
    ensures FloatText(3.5) == "3.5"
    ensures FloatText(7.0) == "7.0"
  {
    assert (3.5).Floor == 3;
    assert FracDigits(0.5, 17) == "5" by {
      assert (0.5 * 10.0).Floor == 5;
      assert FracDigits(0.0, 16) == "";
    }
    assert NatText(3) == "3";
    assert (7.0).Floor == 7;
    assert NatText(7) == "7";
  }

  // ---------------------------------------------------------------------
  // get_game_odds: the filters and the spread label
  // ---------------------------------------------------------------------

  /** `f"{side} {sign}{abs(points)}"`, the sign `+` exactly when points >= 0. */
  function SpreadLabel(side: string, p: real): string
  {
    side + " " + [if p >= 0.0 then '+' else '-'] + FloatText(Abs(p))
  }

  /** The label splits back into the side and the signed number. */
  lemma SpreadLabelWords(side: string, p: real)
    requires |side| > 0 && NoSpace(side)
    ensures Words(SpreadLabel(side, p)) == [side, [if p >= 0.0 then '+' else '-'] + FloatText(Abs(p))]
    ensures SpreadLabel(side, p)[|side| + 1] == '+' <==> p >= 0.0
  {
    var sign := if p >= 0.0 then '+' else '-';
    var num := [sign] + FloatText(Abs(p));
    SignedNoSpace(sign, FloatText(Abs(p)));
    assert SpreadLabel(side, p) == side + " " + num;
    WordsOfTwo(side, num);
  }

  lemma SpreadLabelExamples()
    ensures SpreadLabel("Home", -3.5) == "Home -3.5"
    ensures SpreadLabel("Away", 7.0) == "Away +7.0"
  {
    FloatTextExamples();
  }

  datatype Market = SpreadMarket | TotalMarket

  /** The line a quote contributes to `get_game_odds`, if any: the second
      word of its text must parse; a spread needs |points| <= 14 and is
      relabelled, a total needs 35 <= points <= 55 and keeps its text; the
      price must parse. Anything else contributes nothing; a null price
      moreover raises (`Raises`). */
  function Line(m: Market, q: Quote): Option<(string, real)>
  {
    var w := Words(q.value);
    if |w| < 2 then None
    else
      match ParseFloat(w[1])
      case None => None
      case Some(p) =>
        var kept := if m == SpreadMarket then Abs(p) <= 14.0 else 35.0 <= p <= 55.0;
        if !kept then None
        else
          match Float(q.odd)
          case None => None
          case Some(o) => Some((if m == SpreadMarket then SpreadLabel(w[0], p) else q.value, o))
  }

  /** What a kept line says: where its points came from, the filter they
      passed, and the label. */
  lemma LineFacts(m: Market, q: Quote)
    requires Line(m, q).Some?
    ensures var w := Words(q.value);
      |w| >= 2 && ParseFloat(w[1]).Some? && Float(q.odd) == Some(Line(m, q).value.1) &&
      var p := ParseFloat(w[1]).value;
      (m == SpreadMarket ==> Abs(p) <= 14.0 && Line(m, q).value.0 == SpreadLabel(w[0], p)) &&
      (m == TotalMarket ==> 35.0 <= p <= 55.0 && Line(m, q).value.0 == q.value)
  {
  }

  /** A quote is dropped exactly when its text, its points or its price
      fail, or its points are out of range. */
  lemma LineDropped(m: Market, q: Quote)
    ensures Line(m, q).None? <==>
      var w := Words(q.value);
      |w| < 2 || ParseFloat(w[1]).None? || Float(q.odd).None? ||
      (m == SpreadMarket && Abs(ParseFloat(w[1]).value) > 14.0) ||
      (m == TotalMarket && !(35.0 <= ParseFloat(w[1]).value <= 55.0))
  {
  }

  /** A quote on which `get_game_odds` raises: its points parse and pass
      the filter, but its price is JSON null. `float(None)` raises a
      TypeError, which the per-quote handler (ValueError, IndexError) lets
      through to the per-bet handler, so the rest of the bet is abandoned. */
  predicate Raises(m: Market, q: Quote)
  {
    var w := Words(q.value);
    |w| >= 2 && ParseFloat(w[1]).Some? &&
    (if m == SpreadMarket then Abs(ParseFloat(w[1]).value) <= 14.0 else 35.0 <= ParseFloat(w[1]).value <= 55.0) &&
    q.odd.Null?
  }

  /** The elements of `s` before the first one satisfying `stop`. */
  function Before<T>(s: seq<T>, stop: T -> bool): (r: seq<T>)
    ensures |r| <= |s|
    decreases |s|
  {
    if |s| == 0 || stop(s[0]) then [] else [s[0]] + Before(s[1..], stop)
  }

  /** `Before` gives a prefix none of whose elements stops, followed, if
      anything follows, by an element that stops. */
  lemma {:induction false} BeforeFacts<T>(s: seq<T>, stop: T -> bool)
    ensures var r := Before(s, stop);
      r == s[..|r|] && (forall i :: 0 <= i < |r| ==> !stop(s[i])) &&
      (|r| < |s| ==> stop(s[|r|]))
    decreases |s|
  {
    if |s| > 0 && !stop(s[0]) {
      var t := s[1..];
      BeforeFacts(t, stop);
      var rt := Before(t, stop);
      assert forall i :: 0 < i <= |rt| ==> s[i] == t[i - 1];
      assert [s[0]] + t[..|rt|] == s[..|rt| + 1];
    }
  }

  /** Those facts determine `Before`: it is the prefix up to the first
      element that stops. */
  lemma BeforeUpTo<T>(s: seq<T>, stop: T -> bool, i: nat)
    requires i <= |s| && forall j :: 0 <= j < i ==> !stop(s[j])
    requires i == |s| || stop(s[i])
    ensures Before(s, stop) == s[..i]
  {
    BeforeFacts(s, stop);
  }

  /** Nothing after an element that stops is taken. */
  lemma {:induction false} BeforeAppend<T>(s: seq<T>, rest: seq<T>, stop: T -> bool, i: nat)
    requires i < |s| && stop(s[i])
    ensures Before(s + rest, stop) == Before(s, stop)
    decreases |s|
  {
    if !stop(s[0]) {
      assert (s + rest)[1..] == s[1..] + rest;
      BeforeAppend(s[1..], rest, stop, i - 1);
    }
  }

  function Raising(m: Market): Quote -> bool
  {
    q => Raises(m, q)
  }

  /** The quotes of one bet that `get_game_odds` gets through: those
      before the first quote that raises. */
  function Reached(qs: seq<Quote>, m: Market): seq<Quote>
  {
    Before(qs, Raising(m))
  }

  /** The quotes reached are exactly those up to the first that raises. */
  lemma ReachedUpTo(qs: seq<Quote>, m: Market, i: nat)
    requires i <= |qs| && forall j :: 0 <= j < i ==> !Raises(m, qs[j])
    requires i == |qs| || Raises(m, qs[i])
    ensures Reached(qs, m) == qs[..i]
  {
    BeforeUpTo(qs, Raising(m), i);
  }

  /** One step of `Before`: an element that stops ends it; any other is
      taken and the rest follows. */
  lemma BeforeStep<T>(s: seq<T>, stop: T -> bool, i: nat)
    requires i < |s|
    ensures Before(s[i..], stop) == if stop(s[i]) then [] else [s[i]] + Before(s[i + 1..], stop)
  {
    assert s[i..][0] == s[i];
    assert s[i..][1..] == s[i + 1..];
  }

  /** `Before` stops at an element that stops, having taken those before it. */
  lemma BeforeStop<T>(s: seq<T>, stop: T -> bool, i: nat)
    requires i < |s| && stop(s[i])
    requires Before(s, stop) == s[..i] + Before(s[i..], stop)
    ensures Before(s, stop) == s[..i]
  {
    BeforeStep(s, stop, i);
    assert s[..i] + [] == s[..i];
  }

  /** `Before` goes past an element that does not stop. */
  lemma BeforeNext<T>(s: seq<T>, stop: T -> bool, i: nat)
    requires i < |s| && !stop(s[i])
    requires Before(s, stop) == s[..i] + Before(s[i..], stop)
    ensures Before(s, stop) == s[..i + 1] + Before(s[i + 1..], stop)
  {
    BeforeStep(s, stop, i);
    var t := Before(s[i + 1..], stop);
    SnocAssoc(s[..i], s[i], t);
    assert s[..i + 1] == s[..i] + [s[i]];
  }

  lemma SnocAssoc<T>(a: seq<T>, x: T, t: seq<T>)
    ensures a + ([x] + t) == (a + [x]) + t
  {
  }

  /** The quote loop stops at a quote that raises, having reached the
      quotes before it. */
  lemma ReachedStop(qs: seq<Quote>, m: Market, i: nat)
    requires i < |qs| && Raises(m, qs[i])
    requires Reached(qs, m) == qs[..i] + Reached(qs[i..], m)
    ensures Reached(qs, m) == qs[..i]
  {
    BeforeStop(qs, Raising(m), i);
  }

  /** The quote loop goes past a quote that does not raise. */
  lemma ReachedNext(qs: seq<Quote>, m: Market, i: nat)
    requires i < |qs| && !Raises(m, qs[i])
    requires Reached(qs, m) == qs[..i] + Reached(qs[i..], m)
    ensures Reached(qs, m) == qs[..i + 1] + Reached(qs[i + 1..], m)
  {
    BeforeNext(qs, Raising(m), i);
  }

  /** Nothing after a quote that raises is reached: whatever follows in
      the bet is abandoned. */
  lemma AfterRaiseUnreached(qs: seq<Quote>, rest: seq<Quote>, m: Market, i: nat)
    requires i < |qs| && Raises(m, qs[i])
    ensures Reached(qs + rest, m) == Reached(qs, m)
  {
    BeforeAppend(qs, rest, Raising(m), i);
  }

  /** The kept lines of a run of quotes, later lines overwriting earlier
      ones with the same label. */
  function AddLines(d: Dict<real>, qs: seq<Quote>, m: Market): (r: Dict<real>)
    decreases |qs|
  {
    if |qs| == 0 then d
    else
      var r := AddLines(d, qs[..|qs| - 1], m);
      var e := Line(m, qs[|qs| - 1]);
      if e.Some? then Put(r, e.value.0, e.value.1) else r
  }

  /** The price of the last quote that yields the line `k`, if any. */
  function LastLine(qs: seq<Quote>, m: Market, k: string): Option<real>
    decreases |qs|
  {
    if |qs| == 0 then None
    else
      var e := Line(m, qs[|qs| - 1]);
      if e.Some? && e.value.0 == k then Some(e.value.1) else LastLine(qs[..|qs| - 1], m, k)
  }

  /** The price `AddLines` keeps for a line is that of its last quote; lines
      no quote yields keep their old price. */
  lemma {:induction false} AddLinesGet(d: Dict<real>, qs: seq<Quote>, m: Market, k: string)
    ensures Get(AddLines(d, qs, m), k) == (match LastLine(qs, m, k) case Some(v) => Some(v) case None => Get(d, k))
    decreases |qs|
  {
    if |qs| > 0 {
      AddLinesGet(d, qs[..|qs| - 1], m, k);
    }
  }

  lemma {:induction false} AddLinesDistinct(d: Dict<real>, qs: seq<Quote>, m: Market)
    requires DistinctKeys(d)
    ensures DistinctKeys(AddLines(d, qs, m))
    decreases |qs|
  {
    if |qs| > 0 {
      AddLinesDistinct(d, qs[..|qs| - 1], m);
      var e := Line(m, qs[|qs| - 1]);
      if e.Some? {
        PutDistinct(AddLines(d, qs[..|qs| - 1], m), e.value.0, e.value.1);
      }
    }
  }

  /** The last quote yielding a line is one of the quotes. */
  lemma {:induction false} LastLineFrom(qs: seq<Quote>, m: Market, k: string)
    requires LastLine(qs, m, k).Some?
    ensures exists j :: 0 <= j < |qs| && Line(m, qs[j]) == Some((k, LastLine(qs, m, k).value))
    decreases |qs|
  {
    var e := Line(m, qs[|qs| - 1]);
    if !(e.Some? && e.value.0 == k) {
      LastLineFrom(qs[..|qs| - 1], m, k);
      var j :| 0 <= j < |qs| - 1 && Line(m, qs[..|qs| - 1][j]) == Some((k, LastLine(qs, m, k).value));
      assert qs[..|qs| - 1][j] == qs[j];
    }
  }

  /** Every quote that yields a line leaves that line with some price. */
  lemma {:induction false} LastLineFound(qs: seq<Quote>, m: Market, j: nat)
    requires j < |qs| && Line(m, qs[j]).Some?
    ensures LastLine(qs, m, Line(m, qs[j]).value.0).Some?
    decreases |qs|
  {
    if j < |qs| - 1 {
      var k := Line(m, qs[j]).value.0;
      var e := Line(m, qs[|qs| - 1]);
      if !(e.Some? && e.value.0 == k) {
        assert qs[..|qs| - 1][j] == qs[j];
        LastLineFound(qs[..|qs| - 1], m, j);
      }
    }
  }

  /** The quotes of every bet with the given market name, in feed order. */
  function Quotes(bets: seq<Bet>, name: string): seq<Quote>
    decreases |bets|
  {
    if |bets| == 0 then []
    else Quotes(bets[..|bets| - 1], name) + (if bets[|bets| - 1].name == name then bets[|bets| - 1].values else [])
  }

  /** The processed odds of `get_game_odds`: spread, total and moneyline
      lines by label, in insertion order. */
  datatype Odds = Odds(spread: Dict<real>, total: Dict<real>, moneyline: Dict<real>)

  const NoOdds := Odds([], [], [])

  predicate AnyLines(o: Odds)
  {
    |o.spread| > 0 || |o.total| > 0 || |o.moneyline| > 0
  }

  function AddBet(o: Odds, b: Bet): Odds
  {
    if b.name == Handicap then o.(spread := AddLines(o.spread, Reached(b.values, SpreadMarket), SpreadMarket))
    else if b.name == OverUnder then o.(total := AddLines(o.total, Reached(b.values, TotalMarket), TotalMarket))
    else o
  }

  /** A bet whose first kept-looking quote has a null price adds nothing. */
  lemma RaisedBetAddsNothing(o: Odds, b: Bet)
    requires |b.values| > 0
    requires b.name == Handicap ==> Raises(SpreadMarket, b.values[0])
    requires b.name == OverUnder ==> Raises(TotalMarket, b.values[0])
    ensures AddBet(o, b) == o
  {
  }

  /** The quotes `get_game_odds` reaches in the bets with the given market
      name, in feed order. */
  function ReachedQuotes(bets: seq<Bet>, name: string, m: Market): seq<Quote>
    decreases |bets|
  {
    if |bets| == 0 then []
    else
      ReachedQuotes(bets[..|bets| - 1], name, m) +
      (if bets[|bets| - 1].name == name then Reached(bets[|bets| - 1].values, m) else [])
  }

  /** The odds `get_game_odds` builds from the bets of the feed's first bookmaker. */
  function Filtered(bets: seq<Bet>): Odds
    decreases |bets|
  {
    if |bets| == 0 then NoOdds else AddBet(Filtered(bets[..|bets| - 1]), bets[|bets| - 1])
  }

  lemma {:induction false} AddLinesAppend(d: Dict<real>, a: seq<Quote>, b: seq<Quote>, m: Market)
    ensures AddLines(d, a + b, m) == AddLines(AddLines(d, a, m), b, m)
    decreases |b|
  {
    if |b| == 0 {
      assert a + b == a;
    } else {
      assert (a + b)[..|a + b| - 1] == a + b[..|b| - 1];
      AddLinesAppend(d, a, b[..|b| - 1], m);
    }
  }

  lemma AddLinesNext(d: Dict<real>, qs: seq<Quote>, m: Market, i: nat)
    requires i < |qs|
    ensures AddLines(d, qs[..i + 1], m) == AddLines(AddLines(d, qs[..i], m), [qs[i]], m)
  {
    assert qs[..i + 1] == qs[..i] + [qs[i]];
    AddLinesAppend(d, qs[..i], [qs[i]], m);
  }

  /** Bet by bet processing is one pass over each market's reached quotes. */
  lemma {:induction false} FilteredIsOnePass(bets: seq<Bet>)
    ensures Filtered(bets).spread == AddLines([], ReachedQuotes(bets, Handicap, SpreadMarket), SpreadMarket)
    ensures Filtered(bets).total == AddLines([], ReachedQuotes(bets, OverUnder, TotalMarket), TotalMarket)
    ensures Filtered(bets).moneyline == []
    decreases |bets|
  {
    if |bets| > 0 {
      var init := bets[..|bets| - 1];
      var b := bets[|bets| - 1];
      FilteredIsOnePass(init);
      AddLinesAppend([], ReachedQuotes(init, Handicap, SpreadMarket),
                     if b.name == Handicap then Reached(b.values, SpreadMarket) else [], SpreadMarket);
      AddLinesAppend([], ReachedQuotes(init, OverUnder, TotalMarket),
                     if b.name == OverUnder then Reached(b.values, TotalMarket) else [], TotalMarket);
    }
  }

  /** Every spread served is a relabelled handicap quote within 14 points,
      every total an over/under quote within [35, 55], each at the price of
      the last reached quote of that line (a null price abandons the rest
      of its bet); labels are distinct and no moneyline is produced. */
  lemma FilteredLines(bets: seq<Bet>)
    ensures var o := Filtered(bets);
      DistinctKeys(o.spread) && DistinctKeys(o.total) && o.moneyline == [] &&
      (forall k :: Get(o.spread, k) == LastLine(ReachedQuotes(bets, Handicap, SpreadMarket), SpreadMarket, k)) &&
      (forall k :: Get(o.total, k) == LastLine(ReachedQuotes(bets, OverUnder, TotalMarket), TotalMarket, k))
  {
    FilteredIsOnePass(bets);
    AddLinesDistinct([], ReachedQuotes(bets, Handicap, SpreadMarket), SpreadMarket);
    AddLinesDistinct([], ReachedQuotes(bets, OverUnder, TotalMarket), TotalMarket);
    forall k ensures Get(Filtered(bets).spread, k) == LastLine(ReachedQuotes(bets, Handicap, SpreadMarket), SpreadMarket, k) {
      AddLinesGet([], ReachedQuotes(bets, Handicap, SpreadMarket), SpreadMarket, k);
    }
    forall k ensures Get(Filtered(bets).total, k) == LastLine(ReachedQuotes(bets, OverUnder, TotalMarket), TotalMarket, k) {
      AddLinesGet([], ReachedQuotes(bets, OverUnder, TotalMarket), TotalMarket, k);
    }
  }

  /** `k` is the label of handicap quote `q`, whose points are within 14. */
  predicate HandicapOf(q: Quote, k: string)
  {
    var w := Words(q.value);
    |w| >= 2 && ParseFloat(w[1]).Some? && Abs(ParseFloat(w[1]).value) <= 14.0 &&
    k == SpreadLabel(w[0], ParseFloat(w[1]).value)
  }

  /** A served spread line is `"<side> <sign><abs(points)>"` for a handicap
      quote with |points| <= 14. */
  lemma SpreadServed(bets: seq<Bet>, k: string)
    requires Get(Filtered(bets).spread, k).Some?
    ensures exists q :: q in ReachedQuotes(bets, Handicap, SpreadMarket) && HandicapOf(q, k)
  {
    var qs := ReachedQuotes(bets, Handicap, SpreadMarket);
    FilteredIsOnePass(bets);
    AddLinesGet([], qs, SpreadMarket, k);
    LastLineFrom(qs, SpreadMarket, k);
    var j :| 0 <= j < |qs| && Line(SpreadMarket, qs[j]) == Some((k, LastLine(qs, SpreadMarket, k).value));
    SpreadLineHandicap(qs[j]);
    assert qs[j] in qs;
  }

  lemma SpreadLineHandicap(q: Quote)
    requires Line(SpreadMarket, q).Some?
    ensures HandicapOf(q, Line(SpreadMarket, q).value.0)
  {
  }

  /** A served total line is an over/under quote with 35 <= points <= 55. */
  lemma TotalServed(bets: seq<Bet>, k: string)
    requires Get(Filtered(bets).total, k).Some?
    ensures var w := Words(k); |w| >= 2 && ParseFloat(w[1]).Some? && 35.0 <= ParseFloat(w[1]).value <= 55.0
  {
    var qs := ReachedQuotes(bets, OverUnder, TotalMarket);
    FilteredIsOnePass(bets);
    AddLinesGet([], qs, TotalMarket, k);
    LastLineFrom(qs, TotalMarket, k);
    var j :| 0 <= j < |qs| && Line(TotalMarket, qs[j]) == Some((k, LastLine(qs, TotalMarket, k).value));
    LineFacts(TotalMarket, qs[j]);
  }

  /** Every handicap quote that is reached and passes the filters is served. */
  lemma SpreadKept(bets: seq<Bet>, j: nat)
    requires j < |ReachedQuotes(bets, Handicap, SpreadMarket)| && Line(SpreadMarket, ReachedQuotes(bets, Handicap, SpreadMarket)[j]).Some?
    ensures Get(Filtered(bets).spread, Line(SpreadMarket, ReachedQuotes(bets, Handicap, SpreadMarket)[j]).value.0).Some?
  {
    FilteredIsOnePass(bets);
    var qs := ReachedQuotes(bets, Handicap, SpreadMarket);
    AddLinesGet([], qs, SpreadMarket, Line(SpreadMarket, qs[j]).value.0);
    LastLineFound(qs, SpreadMarket, j);
  }

  // ---------------------------------------------------------------------
  // get_game_odds: the market_odds cache
  // ---------------------------------------------------------------------

  /** A `market_odds` row; its primary key is (game, bookmaker, bet type, bet value). */
  datatype OddsRow = OddsRow(gameId: int, bookmakerId: int, betType: string, betValue: string, odds: real)

  function OddsKey(r: OddsRow): (int, int, string, string)
  {
    (r.gameId, r.bookmakerId, r.betType, r.betValue)
  }

  const BetTypes := ["spread", "total", "moneyline"]

  function Field(o: Odds, betType: string): Dict<real>
  {
    if betType == "spread" then o.spread else if betType == "total" then o.total else o.moneyline
  }

  /** The rows `get_game_odds` reads back: the game's rows of Dafabet, in table order. */
  function CachedRows(t: seq<OddsRow>, gameId: int): seq<OddsRow>
  {
    Where(t, OfGame(gameId))
  }

  function OfGame(gameId: int): OddsRow -> bool
  {
    (r: OddsRow) => r.gameId == gameId && r.bookmakerId == Dafabet
  }

  /** `processed_odds[bet_type][bet_value] = odds` for one cached row; a bet
      type other than the three raises. */
  function ReadRow(o: Odds, r: OddsRow): Option<Odds>
  {
    if r.betType == "spread" then Some(o.(spread := Put(o.spread, r.betValue, r.odds)))
    else if r.betType == "total" then Some(o.(total := Put(o.total, r.betValue, r.odds)))
    else if r.betType == "moneyline" then Some(o.(moneyline := Put(o.moneyline, r.betValue, r.odds)))
    else None
  }

  function ReadRows(o: Odds, rows: seq<OddsRow>): Option<Odds>
    decreases |rows|
  {
    if |rows| == 0 then Some(o)
    else
      match ReadRows(o, rows[..|rows| - 1])
      case None => None
      case Some(o') => ReadRow(o', rows[|rows| - 1])
  }

  /** One `INSERT OR REPLACE` per line of one bet type, in line order. */
  function WriteLines(t: seq<OddsRow>, gameId: int, book: int, betType: string, d: Dict<real>): seq<OddsRow>
    decreases |d|
  {
    if |d| == 0 then t
    else Upsert(WriteLines(t, gameId, book, betType, d[..|d| - 1]),
                OddsRow(gameId, book, betType, d[|d| - 1].0, d[|d| - 1].1), OddsKey)
  }

  /** The cache write of `get_game_odds`: spread, then total, then moneyline lines. */
  function WriteOdds(t: seq<OddsRow>, gameId: int, book: int, o: Odds): seq<OddsRow>
  {
    WriteLines(WriteLines(WriteLines(t, gameId, book, "spread", o.spread), gameId, book, "total", o.total),
               gameId, book, "moneyline", o.moneyline)
  }

  /** `get_game_odds(game_id)`: the cached Dafabet rows when there are any;
      otherwise the filtered feed (`None` when the request fails or the
      feed has no bookmaker), written to the cache only when some line
      survived. Returns the odds and the new table. */
  function GameOdds(t: seq<OddsRow>, gameId: int, fetched: Option<seq<Bet>>): (Odds, seq<OddsRow>)
  {
    var rows := CachedRows(t, gameId);
    if |rows| > 0 then
      ((match ReadRows(NoOdds, rows) case Some(o) => o case None => NoOdds), t)
    else if fetched.None? then (NoOdds, t)
    else
      var o := Filtered(fetched.value);
      (o, if AnyLines(o) then WriteOdds(t, gameId, Dafabet, o) else t)
  }

  function RowsOf(gameId: int, book: int, betType: string, d: Dict<real>): (rows: seq<OddsRow>)
    ensures |rows| == |d|
  {
    seq(|d|, i requires 0 <= i < |d| => OddsRow(gameId, book, betType, d[i].0, d[i].1))
  }

  lemma {:induction false} WriteLinesFresh(t: seq<OddsRow>, gameId: int, book: int, betType: string, d: Dict<real>)
    requires forall r :: r in t ==> !(r.gameId == gameId && r.bookmakerId == book && r.betType == betType)
    requires DistinctKeys(d)
    ensures WriteLines(t, gameId, book, betType, d) == t + RowsOf(gameId, book, betType, d)
    decreases |d|
  {
    if |d| > 0 {
      var init := d[..|d| - 1];
      LastKeyNew(d);
      WriteLinesFresh(t, gameId, book, betType, init);
      WriteLinesFreshLast(t, gameId, book, betType, init, d[|d| - 1].0, d[|d| - 1].1);
      assert init + [(d[|d| - 1].0, d[|d| - 1].1)] == d;
    }
  }

  /** Writing a new line after the rows of the lines before it appends its row. */
  lemma WriteLinesFreshLast(t: seq<OddsRow>, gameId: int, book: int, betType: string, init: Dict<real>, k: string, v: real)
    requires forall r :: r in t ==> !(r.gameId == gameId && r.bookmakerId == book && r.betType == betType)
    requires k !in Keys(init)
    requires WriteLines(t, gameId, book, betType, init) == t + RowsOf(gameId, book, betType, init)
    ensures WriteLines(t, gameId, book, betType, init + [(k, v)]) == t + RowsOf(gameId, book, betType, init + [(k, v)])
  {
    var d := init + [(k, v)];
    var row := OddsRow(gameId, book, betType, k, v);
    var added := RowsOf(gameId, book, betType, init);
    assert d[..|d| - 1] == init;
    forall i | 0 <= i < |added| ensures OddsKey(added[i]) != OddsKey(row) {
      assert added[i].betValue == init[i].0 == Keys(init)[i];
    }
    var before := t + added;
    forall x | x in before ensures OddsKey(x) != OddsKey(row) {
      if x !in t {
        assert x in added;
      }
    }
    UpsertFresh(before, row, OddsKey);
    assert WriteLines(t, gameId, book, betType, d) == Upsert(before, row, OddsKey);
    RowsOfSnoc(gameId, book, betType, d);
  }

  lemma RowsOfSnoc(gameId: int, book: int, betType: string, d: Dict<real>)
    requires |d| > 0
    ensures RowsOf(gameId, book, betType, d) ==
      RowsOf(gameId, book, betType, d[..|d| - 1]) + [OddsRow(gameId, book, betType, d[|d| - 1].0, d[|d| - 1].1)]
  {
    var a := RowsOf(gameId, book, betType, d);
    var b := RowsOf(gameId, book, betType, d[..|d| - 1]) + [OddsRow(gameId, book, betType, d[|d| - 1].0, d[|d| - 1].1)];
    assert |a| == |b|;
    forall i | 0 <= i < |a| ensures a[i] == b[i] {
      if i < |d| - 1 {
        assert d[..|d| - 1][i] == d[i];
      }
    }
  }

  function SetField(o: Odds, betType: string, d: Dict<real>): Odds
  {
    if betType == "spread" then o.(spread := d) else if betType == "total" then o.(total := d) else o.(moneyline := d)
  }

  lemma ReadRowField(o: Odds, r: OddsRow)
    requires r.betType in BetTypes
    ensures ReadRow(o, r) == Some(SetField(o, r.betType, Put(Field(o, r.betType), r.betValue, r.odds)))
  {
  }

  lemma ReadRowsSnoc(o: Odds, rows: seq<OddsRow>, row: OddsRow)
    ensures ReadRows(o, rows + [row]) ==
      match ReadRows(o, rows) case None => None case Some(o') => ReadRow(o', row)
  {
    assert (rows + [row])[..|rows|] == rows;
  }

  /** Reading a row whose line is new to its field appends the line. */
  lemma ReadNewLine(o: Odds, init: Dict<real>, row: OddsRow)
    requires row.betType in BetTypes && row.betValue !in Keys(init)
    ensures ReadRow(SetField(o, row.betType, init), row) ==
            Some(SetField(o, row.betType, init + [(row.betValue, row.odds)]))
  {
    var o' := SetField(o, row.betType, init);
    ReadRowField(o', row);
    assert Field(o', row.betType) == init;
    PutNew(init, row.betValue, row.odds);
  }

  lemma SetFieldEmpty(o: Odds, betType: string)
    requires betType in BetTypes && Field(o, betType) == []
    ensures SetField(o, betType, []) == o
  {
  }

  /** One more row read after rows that filled its field with `init`. */
  lemma ReadOneMore(o: Odds, init: Dict<real>, rows0: seq<OddsRow>, row: OddsRow)
    requires row.betType in BetTypes && row.betValue !in Keys(init)
    requires ReadRows(o, rows0) == Some(SetField(o, row.betType, init))
    ensures ReadRows(o, rows0 + [row]) == Some(SetField(o, row.betType, init + [(row.betValue, row.odds)]))
  {
    ReadRowsSnoc(o, rows0, row);
    ReadNewLine(o, init, row);
  }

  /** Reading back one bet type's rows into an empty field restores the lines. */
  lemma {:induction false} ReadRowsOf(o: Odds, gameId: int, book: int, betType: string, d: Dict<real>)
    requires betType in BetTypes && Field(o, betType) == [] && DistinctKeys(d)
    ensures ReadRows(o, RowsOf(gameId, book, betType, d)) == Some(SetField(o, betType, d))
    decreases |d|
  {
    if |d| == 0 {
      SetFieldEmpty(o, betType);
    } else {
      var init := d[..|d| - 1];
      LastKeyNew(d);
      ReadRowsOf(o, gameId, book, betType, init);
      ReadRowsOfLast(o, gameId, book, betType, init, d[|d| - 1].0, d[|d| - 1].1);
      assert init + [(d[|d| - 1].0, d[|d| - 1].1)] == d;
    }
  }

  /** A new line's row, read after the rows of the lines before it. */
  lemma ReadRowsOfLast(o: Odds, gameId: int, book: int, betType: string, init: Dict<real>, k: string, v: real)
    requires betType in BetTypes && k !in Keys(init)
    requires ReadRows(o, RowsOf(gameId, book, betType, init)) == Some(SetField(o, betType, init))
    ensures ReadRows(o, RowsOf(gameId, book, betType, init + [(k, v)])) == Some(SetField(o, betType, init + [(k, v)]))
  {
    var d := init + [(k, v)];
    assert d[..|d| - 1] == init;
    RowsOfSnoc(gameId, book, betType, d);
    ReadOneMore(o, init, RowsOf(gameId, book, betType, init), OddsRow(gameId, book, betType, k, v));
  }

  lemma {:induction false} ReadRowsAppend(o: Odds, a: seq<OddsRow>, b: seq<OddsRow>)
    ensures ReadRows(o, a + b) == match ReadRows(o, a) case None => None case Some(o') => ReadRows(o', b)
    decreases |b|
  {
    if |b| == 0 {
      assert a + b == a;
    } else {
      assert (a + b)[..|a + b| - 1] == a + b[..|b| - 1];
      ReadRowsAppend(o, a, b[..|b| - 1]);
    }
  }

  /** The written lines of a game, as they sit in the table. */
  function OddsRows(gameId: int, book: int, o: Odds): seq<OddsRow>
  {
    RowsOf(gameId, book, "spread", o.spread) + RowsOf(gameId, book, "total", o.total) +
    RowsOf(gameId, book, "moneyline", o.moneyline)
  }

  lemma RowsOfBelong(gameId: int, book: int, betType: string, d: Dict<real>)
    ensures forall r :: r in RowsOf(gameId, book, betType, d) ==>
      r.gameId == gameId && r.bookmakerId == book && r.betType == betType
  {
    var rows := RowsOf(gameId, book, betType, d);
    forall r | r in rows ensures r.gameId == gameId && r.bookmakerId == book && r.betType == betType {
      var i :| 0 <= i < |rows| && rows[i] == r;
    }
  }

  lemma OddsRowsBelong(gameId: int, book: int, o: Odds)
    ensures forall r :: r in OddsRows(gameId, book, o) ==> r.gameId == gameId && r.bookmakerId == book
  {
    RowsOfBelong(gameId, book, "spread", o.spread);
    RowsOfBelong(gameId, book, "total", o.total);
    RowsOfBelong(gameId, book, "moneyline", o.moneyline);
  }

  /** Writing a game that had no rows of this bookmaker appends its lines. */
  lemma WriteOddsFresh(t: seq<OddsRow>, gameId: int, book: int, o: Odds)
    requires forall r :: r in t ==> !(r.gameId == gameId && r.bookmakerId == book)
    requires DistinctKeys(o.spread) && DistinctKeys(o.total) && DistinctKeys(o.moneyline)
    ensures WriteOdds(t, gameId, book, o) == t + OddsRows(gameId, book, o)
  {
    var s := RowsOf(gameId, book, "spread", o.spread);
    var u := RowsOf(gameId, book, "total", o.total);
    var m := RowsOf(gameId, book, "moneyline", o.moneyline);
    RowsOfBelong(gameId, book, "spread", o.spread);
    RowsOfBelong(gameId, book, "total", o.total);
    WriteLinesFresh(t, gameId, book, "spread", o.spread);
    var w1 := WriteLines(t, gameId, book, "spread", o.spread);
    forall r | r in w1 ensures !(r.gameId == gameId && r.bookmakerId == book && r.betType == "total") {
      assert r in t || r in s;
    }
    WriteLinesFresh(w1, gameId, book, "total", o.total);
    var w2 := WriteLines(w1, gameId, book, "total", o.total);
    forall r | r in w2 ensures !(r.gameId == gameId && r.bookmakerId == book && r.betType == "moneyline") {
      assert r in w1 || r in u;
      if r in w1 {
        assert r in t || r in s;
      }
    }
    WriteLinesFresh(w2, gameId, book, "moneyline", o.moneyline);
    assert WriteOdds(t, gameId, book, o) == t + s + u + m;
    ConcatAssoc(t, s, u, m);
  }

  lemma ConcatAssoc(t: seq<OddsRow>, s: seq<OddsRow>, u: seq<OddsRow>, m: seq<OddsRow>)
    ensures t + s + u + m == t + (s + u + m)
  {
  }

  /** The written lines read back as the odds that were written. */
  lemma ReadOddsRows(gameId: int, book: int, o: Odds)
    requires DistinctKeys(o.spread) && DistinctKeys(o.total) && DistinctKeys(o.moneyline)
    ensures ReadRows(NoOdds, OddsRows(gameId, book, o)) == Some(o)
  {
    var s := RowsOf(gameId, book, "spread", o.spread);
    var u := RowsOf(gameId, book, "total", o.total);
    var m := RowsOf(gameId, book, "moneyline", o.moneyline);
    ReadRowsAppend(NoOdds, s + u, m);
    ReadRowsAppend(NoOdds, s, u);
    ReadRowsOf(NoOdds, gameId, book, "spread", o.spread);
    assert SetField(NoOdds, "spread", o.spread) == Odds(o.spread, [], []);
    ReadRowsOf(Odds(o.spread, [], []), gameId, book, "total", o.total);
    assert SetField(Odds(o.spread, [], []), "total", o.total) == Odds(o.spread, o.total, []);
    ReadRowsOf(Odds(o.spread, o.total, []), gameId, book, "moneyline", o.moneyline);
    assert SetField(Odds(o.spread, o.total, []), "moneyline", o.moneyline) == o;
  }

  /** Odds fetched and cached by one call are served unchanged from the
      cache by every later call, which leaves the table alone. */
  lemma GameOddsCached(t: seq<OddsRow>, gameId: int, fetched: Option<seq<Bet>>, later: Option<seq<Bet>>)
    requires |CachedRows(t, gameId)| == 0 && fetched.Some? && AnyLines(Filtered(fetched.value))
    ensures GameOdds(GameOdds(t, gameId, fetched).1, gameId, later) == GameOdds(t, gameId, fetched)
  {
    var o := Filtered(fetched.value);
    var keep := OfGame(gameId);
    assert forall r :: r in t ==> !keep(r);
    FilteredLines(fetched.value);
    WriteOddsFresh(t, gameId, Dafabet, o);
    var rows := OddsRows(gameId, Dafabet, o);
    var t' := t + rows;
    assert GameOdds(t, gameId, fetched) == (o, t');
    CachedAfterWrite(t, rows, gameId, o);
    ReadOddsRows(gameId, Dafabet, o);
  }

  lemma CachedAfterWrite(t: seq<OddsRow>, rows: seq<OddsRow>, gameId: int, o: Odds)
    requires |CachedRows(t, gameId)| == 0 && rows == OddsRows(gameId, Dafabet, o)
    ensures CachedRows(t + rows, gameId) == rows
  {
    var keep := OfGame(gameId);
    WhereAppend(t, rows, keep);
    OddsRowsBelong(gameId, Dafabet, o);
    WhereAll(rows, keep);
  }

  /** The cache is written only when some line survived, and a write
      touches no row of another game or bookmaker. */
  lemma GameOddsWrites(t: seq<OddsRow>, gameId: int, fetched: Option<seq<Bet>>)
    ensures var (o, t') := GameOdds(t, gameId, fetched);
      (t' != t ==> |CachedRows(t, gameId)| == 0 && AnyLines(o)) &&
      forall r: OddsRow :: r.gameId != gameId || r.bookmakerId != Dafabet ==> (r in t' <==> r in t)
  {
    forall r: OddsRow | fetched.Some? && (r.gameId != gameId || r.bookmakerId != Dafabet)
      ensures r in WriteOdds(t, gameId, Dafabet, Filtered(fetched.value)) <==> r in t
    {
      var o := Filtered(fetched.value);
      WriteLinesOthers(t, gameId, Dafabet, "spread", o.spread, r);
      WriteLinesOthers(WriteLines(t, gameId, Dafabet, "spread", o.spread), gameId, Dafabet, "total", o.total, r);
      WriteLinesOthers(WriteLines(WriteLines(t, gameId, Dafabet, "spread", o.spread), gameId, Dafabet, "total", o.total),
                       gameId, Dafabet, "moneyline", o.moneyline, r);
    }
  }

  lemma {:induction false} WriteLinesOthers(t: seq<OddsRow>, gameId: int, book: int, betType: string, d: Dict<real>, r: OddsRow)
    requires r.gameId != gameId || r.bookmakerId != book
    ensures r in WriteLines(t, gameId, book, betType, d) <==> r in t
    decreases |d|
  {
    if |d| > 0 {
      WriteLinesOthers(t, gameId, book, betType, d[..|d| - 1], r);
    }
  }

  lemma {:induction false} WriteLinesUnique(t: seq<OddsRow>, gameId: int, book: int, betType: string, d: Dict<real>)
    requires UniqueBy(t, OddsKey)
    ensures UniqueBy(WriteLines(t, gameId, book, betType, d), OddsKey)
    decreases |d|
  {
    if |d| > 0 {
      WriteLinesUnique(t, gameId, book, betType, d[..|d| - 1]);
      UpsertUnique(WriteLines(t, gameId, book, betType, d[..|d| - 1]),
                   OddsRow(gameId, book, betType, d[|d| - 1].0, d[|d| - 1].1), OddsKey);
    }
  }

  // ---------------------------------------------------------------------
  // The loops of get_game_odds
  // ---------------------------------------------------------------------

  /** The inner loop over one bet's quotes. */
  method AddQuotes(d: Dict<real>, qs: seq<Quote>, m: Market) returns (r: Dict<real>)
    ensures r == AddLines(d, Reached(qs, m), m)
  {
    r := d;
    assert qs[0..] == qs;
    for i := 0 to |qs|
      invariant Reached(qs, m) == qs[..i] + Reached(qs[i..], m)
      invariant r == AddLines(d, qs[..i], m)
    {
      var raised, next := AddQuote(r, qs[i], m);
      if raised {
        ReachedStop(qs, m, i);
        return;
      }
      ReachedNext(qs, m, i);
      AddLinesNext(d, qs, m, i);
      r := next;
    }
    assert Reached(qs[|qs|..], m) == [] by {
      assert qs[|qs|..] == [];
    }
    assert qs[..|qs|] == qs;
    assert qs[..|qs|] + [] == qs;
  }

  /** The body of the quote loop: whether the quote raises, and otherwise
      the lines with the quote's line added. */
  method AddQuote(d: Dict<real>, q: Quote, m: Market) returns (raised: bool, r: Dict<real>)
    ensures raised == Raises(m, q)
    ensures !raised ==> r == AddLines(d, [q], m)
  {
    if Raises(m, q) {
      return true, d;
    }
    assert [q][..0] == [];
    var e := Line(m, q);
    r := if e.Some? then Put(d, e.value.0, e.value.1) else d;
    return false, r;
  }

  /** The loop over the bets of the feed's first bookmaker. */
  method FilterOdds(bets: seq<Bet>) returns (o: Odds)
    ensures o == Filtered(bets)
  {
    o := NoOdds;
    for i := 0 to |bets|
      invariant o == Filtered(bets[..i])
    {
      assert bets[..i + 1][..i] == bets[..i];
      var b := bets[i];
      if b.name == Handicap {
        var spread := AddQuotes(o.spread, b.values, SpreadMarket);
        o := o.(spread := spread);
      } else if b.name == OverUnder {
        var total := AddQuotes(o.total, b.values, TotalMarket);
        o := o.(total := total);
      }
    }
    assert bets[..|bets|] == bets;
  }

  /** The loop over the cached rows. */
  method ReadCached(rows: seq<OddsRow>) returns (r: Option<Odds>)
    ensures r == ReadRows(NoOdds, rows)
  {
    var o := NoOdds;
    for i := 0 to |rows|
      invariant ReadRows(NoOdds, rows[..i]) == Some(o)
    {
      assert rows[..i + 1][..i] == rows[..i];
      var next := ReadRow(o, rows[i]);
      if next.None? {
        ReadRowsSticks(rows, i + 1);
        return None;
      }
      o := next.value;
    }
    assert rows[..|rows|] == rows;
    r := Some(o);
  }

  /** Once a row raises, the whole read raises. */
  lemma {:induction false} ReadRowsSticks(rows: seq<OddsRow>, n: nat)
    requires n <= |rows| && ReadRows(NoOdds, rows[..n]).None?
    ensures ReadRows(NoOdds, rows).None?
    decreases |rows| - n
  {
    if n < |rows| {
      assert rows[..n + 1][..n] == rows[..n];
      ReadRowsSticks(rows, n + 1);
    } else {
      assert rows[..n] == rows;
    }
  }

  /** The `market_odds` table behind `get_game_odds`. */
  class OddsStore {
    var marketOdds: seq<OddsRow>

    predicate Valid()
      reads this
    {
      UniqueBy(marketOdds, OddsKey)
    }

    constructor ()
      ensures Valid() && marketOdds == []
    {
      marketOdds := [];
    }

    /** The inserts of one bet type's lines. */
    method WriteBetType(gameId: int, betType: string, d: Dict<real>)
      requires Valid()
      modifies this
      ensures Valid()
      ensures marketOdds == WriteLines(old(marketOdds), gameId, Dafabet, betType, d)
    {
      ghost var t0 := marketOdds;
      for i := 0 to |d|
        invariant marketOdds == WriteLines(t0, gameId, Dafabet, betType, d[..i])
        invariant Valid()
      {
        assert d[..i + 1][..i] == d[..i];
        UpsertUnique(marketOdds, OddsRow(gameId, Dafabet, betType, d[i].0, d[i].1), OddsKey);
        marketOdds := Upsert(marketOdds, OddsRow(gameId, Dafabet, betType, d[i].0, d[i].1), OddsKey);
      }
      assert d[..|d|] == d;
    }

    /** `get_game_odds(game_id)`; `fetched` stands for the bets of the feed's
        first bookmaker, `None` when the request fails or names no bookmaker. */
    method GetGameOdds(gameId: int, fetched: Option<seq<Bet>>) returns (o: Odds)
      requires Valid()
      modifies this
      ensures Valid()
      ensures (o, marketOdds) == GameOdds(old(marketOdds), gameId, fetched)
    {
      var rows := CachedRows(marketOdds, gameId);
      if |rows| > 0 {
        var cached := ReadCached(rows);
        o := if cached.Some? then cached.value else NoOdds;
        return;
      }
      if fetched.None? {
        return NoOdds;
      }
      o := FilterOdds(fetched.value);
      if AnyLines(o) {
        WriteBetType(gameId, "spread", o.spread);
        WriteBetType(gameId, "total", o.total);
        WriteBetType(gameId, "moneyline", o.moneyline);
      }
    }
  }

  // ---------------------------------------------------------------------
  // _process_bookmaker_odds: quotes of many books, per line
  // ---------------------------------------------------------------------

  /** One bookmaker's payload: its name and its bets. */
  datatype BookOdds = BookOdds(name: string, bets: seq<Bet>)

  /** One `{bookmaker, odd}` record under a line. */
  datatype BookQuote = BookQuote(bookmaker: string, odd: real)

  /** The quotes gathered so far under each line label. */
  type Lines = Dict<seq<BookQuote>>

  /** The quotes gathered under `line`, none for an unseen line. */
  function Quoted(d: Lines, line: string): seq<BookQuote>
  {
    match Get(d, line) case Some(bs) => bs case None => []
  }

  predicate NonEmptyLines(d: Lines)
  {
    forall i :: 0 <= i < |d| ==> |d[i].1| > 0
  }

  /** The inner loop over one bet's quotes: each quote is appended under its
      raw line text; an unparsable price raises and stops the book, the
      quotes already appended staying in place. */
  function AppendQuotes(d: Lines, name: string, qs: seq<Quote>): (Lines, bool)
    decreases |qs|
  {
    if |qs| == 0 then (d, false)
    else
      var (d', raised) := AppendQuotes(d, name, qs[..|qs| - 1]);
      var q := qs[|qs| - 1];
      if raised then (d', true)
      else
        match Float(q.odd)
        case None => (d', true)
        case Some(o) => (Append(d', q.value, BookQuote(name, o)), false)
  }

  /** The spread and total lines of the market data. */
  datatype MarketData = MarketData(spread: Lines, total: Lines)

  /** One bet of a book: handicap quotes go to the spread lines, over/under
      quotes to the total lines, other markets are ignored. */
  function ProcessBet(md: MarketData, name: string, b: Bet): (MarketData, bool)
  {
    if b.name == Handicap then
      var (d, r) := AppendQuotes(md.spread, name, b.values);
      (md.(spread := d), r)
    else if b.name == OverUnder then
      var (d, r) := AppendQuotes(md.total, name, b.values);
      (md.(total := d), r)
    else (md, false)
  }

  /** `_process_bookmaker_odds(odds_data, market_data)` bet by bet. */
  function ProcessBets(md: MarketData, name: string, bets: seq<Bet>): (MarketData, bool)
    decreases |bets|
  {
    if |bets| == 0 then (md, false)
    else
      var (md', raised) := ProcessBets(md, name, bets[..|bets| - 1]);
      if raised then (md', true) else ProcessBet(md', name, bets[|bets| - 1])
  }

  predicate AllPriced(qs: seq<Quote>)
  {
    forall i :: 0 <= i < |qs| ==> Float(qs[i].odd).Some?
  }

  /** The quotes of `name` whose text is `line`, in order, as records. */
  function QuotesAt(name: string, qs: seq<Quote>, line: string): seq<BookQuote>
    requires AllPriced(qs)
    decreases |qs|
  {
    if |qs| == 0 then []
    else
      var q := qs[|qs| - 1];
      QuotesAt(name, qs[..|qs| - 1], line) + (if q.value == line then [BookQuote(name, Float(q.odd).value)] else [])
  }

  /** With every price parsable nothing raises, and each line ends up with
      its earlier quotes followed by this book's quotes of that line, in feed
      order. */
  lemma {:induction false} AppendQuotesPriced(d: Lines, name: string, qs: seq<Quote>, line: string)
    requires AllPriced(qs)
    ensures !AppendQuotes(d, name, qs).1
    ensures Quoted(AppendQuotes(d, name, qs).0, line) == Quoted(d, line) + QuotesAt(name, qs, line)
    decreases |qs|
  {
    if |qs| > 0 {
      var init := qs[..|qs| - 1];
      assert AllPriced(init) by {
        forall i | 0 <= i < |init| ensures Float(init[i].odd).Some? {
          assert init[i] == qs[i];
        }
      }
      AppendQuotesPriced(d, name, init, line);
      AppendQuotesPricedLast(d, name, qs, line);
    }
  }

  /** The last quote, priced, is appended after the quotes before it. */
  lemma AppendQuotesPricedLast(d: Lines, name: string, qs: seq<Quote>, line: string)
    requires |qs| > 0 && AllPriced(qs) && AllPriced(qs[..|qs| - 1])
    requires !AppendQuotes(d, name, qs[..|qs| - 1]).1
    requires Quoted(AppendQuotes(d, name, qs[..|qs| - 1]).0, line) == Quoted(d, line) + QuotesAt(name, qs[..|qs| - 1], line)
    ensures !AppendQuotes(d, name, qs).1
    ensures Quoted(AppendQuotes(d, name, qs).0, line) == Quoted(d, line) + QuotesAt(name, qs, line)
  {
    var init := qs[..|qs| - 1];
    var d' := AppendQuotes(d, name, init).0;
    var q := qs[|qs| - 1];
    var b := BookQuote(name, Float(q.odd).value);
    var ext := if q.value == line then [b] else [];
    AppendQuotesSnoc(d, name, qs);
    calc {
      Quoted(AppendQuotes(d, name, qs).0, line);
      Quoted(Append(d', q.value, b), line);
      { QuotedAppend(d', q.value, b, line); }
      Quoted(d', line) + ext;
      (Quoted(d, line) + QuotesAt(name, init, line)) + ext;
      Quoted(d, line) + (QuotesAt(name, init, line) + ext);
      { QuotesAtSnoc(name, qs, line); }
      Quoted(d, line) + QuotesAt(name, qs, line);
    }
  }

  lemma AppendQuotesSnoc(d: Lines, name: string, qs: seq<Quote>)
    requires |qs| > 0 && Float(qs[|qs| - 1].odd).Some? && !AppendQuotes(d, name, qs[..|qs| - 1]).1
    ensures AppendQuotes(d, name, qs) ==
      (Append(AppendQuotes(d, name, qs[..|qs| - 1]).0, qs[|qs| - 1].value,
              BookQuote(name, Float(qs[|qs| - 1].odd).value)), false)
  {
  }

  lemma QuotesAtSnoc(name: string, qs: seq<Quote>, line: string)
    requires |qs| > 0 && AllPriced(qs) && AllPriced(qs[..|qs| - 1])
    ensures QuotesAt(name, qs, line) == QuotesAt(name, qs[..|qs| - 1], line) +
      (if qs[|qs| - 1].value == line then [BookQuote(name, Float(qs[|qs| - 1].odd).value)] else [])
  {
  }

  lemma QuotedAppend(d: Lines, key: string, b: BookQuote, line: string)
    ensures Quoted(Append(d, key, b), line) == Quoted(d, line) + (if key == line then [b] else [])
  {
  }

  /** The first unparsable price stops the book: everything before it is
      appended and nothing after it. */
  lemma {:induction false} AppendQuotesStops(d: Lines, name: string, qs: seq<Quote>, k: nat)
    requires k < |qs| && AllPriced(qs[..k]) && Float(qs[k].odd).None?
    ensures AppendQuotes(d, name, qs) == (AppendQuotes(d, name, qs[..k]).0, true)
    decreases |qs|
  {
    if k < |qs| - 1 {
      var init := qs[..|qs| - 1];
      assert init[..k] == qs[..k];
      AppendQuotesStops(d, name, init, k);
    } else {
      assert qs[..|qs| - 1] == qs[..k];
      AppendQuotesPriced(d, name, qs[..k], "");
    }
  }

  /** Appending keeps every line non-empty and the labels distinct. */
  lemma {:induction false} AppendQuotesValid(d: Lines, name: string, qs: seq<Quote>)
    requires NonEmptyLines(d) && DistinctKeys(d)
    ensures NonEmptyLines(AppendQuotes(d, name, qs).0) && DistinctKeys(AppendQuotes(d, name, qs).0)
    decreases |qs|
  {
    if |qs| > 0 {
      AppendQuotesValid(d, name, qs[..|qs| - 1]);
      var d' := AppendQuotes(d, name, qs[..|qs| - 1]).0;
      var q := qs[|qs| - 1];
      match Float(q.odd)
      case None =>
      case Some(o) =>
        AppendValid(d', q.value, BookQuote(name, o));
    }
  }

  lemma AppendValid(d: Lines, line: string, b: BookQuote)
    requires NonEmptyLines(d) && DistinctKeys(d)
    ensures NonEmptyLines(Append(d, line, b)) && DistinctKeys(Append(d, line, b))
  {
    var v := match Get(d, line) case Some(xs) => xs + [b] case None => [b];
    PutDistinct(d, line, v);
    var r := Append(d, line, b);
    PutKeys(d, line, v);
    forall i | 0 <= i < |r| ensures |r[i].1| > 0 {
      if r[i].0 == line {
        GetDistinct(r, i);
      } else {
        GetDistinct(r, i);
        var j :| 0 <= j < |d| && d[j] == (r[i].0, Get(d, r[i].0).value);
      }
    }
  }

  /** In a dict with distinct keys, `Get` finds each entry. */
  lemma {:induction false} GetDistinct<V>(d: Dict<V>, i: nat)
    requires DistinctKeys(d) && i < |d|
    ensures Get(d, d[i].0) == Some(d[i].1)
    decreases |d|
  {
    if i > 0 {
      GetDistinct(d[1..], i - 1);
    }
  }

  lemma {:induction false} ProcessBetsValid(md: MarketData, name: string, bets: seq<Bet>)
    requires NonEmptyLines(md.spread) && DistinctKeys(md.spread)
    requires NonEmptyLines(md.total) && DistinctKeys(md.total)
    ensures var md' := ProcessBets(md, name, bets).0;
      NonEmptyLines(md'.spread) && DistinctKeys(md'.spread) &&
      NonEmptyLines(md'.total) && DistinctKeys(md'.total)
    decreases |bets|
  {
    if |bets| > 0 {
      ProcessBetsValid(md, name, bets[..|bets| - 1]);
      var md' := ProcessBets(md, name, bets[..|bets| - 1]).0;
      AppendQuotesValid(md'.spread, name, bets[|bets| - 1].values);
      AppendQuotesValid(md'.total, name, bets[|bets| - 1].values);
    }
  }

  /** With every price parsable, a book appends to each spread line its own
      handicap quotes of that line and to each total line its over/under
      quotes, in feed order. */
  lemma {:induction false} ProcessBetsPriced(md: MarketData, name: string, bets: seq<Bet>, line: string)
    requires AllPriced(Quotes(bets, Handicap)) && AllPriced(Quotes(bets, OverUnder))
    ensures !ProcessBets(md, name, bets).1
    ensures Quoted(ProcessBets(md, name, bets).0.spread, line) == Quoted(md.spread, line) + QuotesAt(name, Quotes(bets, Handicap), line)
    ensures Quoted(ProcessBets(md, name, bets).0.total, line) == Quoted(md.total, line) + QuotesAt(name, Quotes(bets, OverUnder), line)
    decreases |bets|
  {
    if |bets| > 0 {
      var init := bets[..|bets| - 1];
      var b := bets[|bets| - 1];
      var h := Quotes(init, Handicap);
      var u := Quotes(init, OverUnder);
      var hb := if b.name == Handicap then b.values else [];
      var ub := if b.name == OverUnder then b.values else [];
      assert Quotes(bets, Handicap) == h + hb;
      assert Quotes(bets, OverUnder) == u + ub;
      PricedParts(h, hb);
      PricedParts(u, ub);
      ProcessBetsPriced(md, name, init, line);
      QuotesAtAppend(name, h, hb, line);
      QuotesAtAppend(name, u, ub, line);
      var md' := ProcessBets(md, name, init).0;
      assert ProcessBets(md, name, bets) == ProcessBet(md', name, b);
      BetPriced(md', name, b, line);
      QuotesAssoc(Quoted(md.spread, line), QuotesAt(name, h, line), QuotesAt(name, hb, line));
      QuotesAssoc(Quoted(md.total, line), QuotesAt(name, u, line), QuotesAt(name, ub, line));
    }
  }

  lemma QuotesAssoc(a: seq<BookQuote>, b: seq<BookQuote>, c: seq<BookQuote>)
    ensures a + b + c == a + (b + c)
  {
  }

  /** One bet of a book whose prices all parse. */
  lemma BetPriced(md: MarketData, name: string, b: Bet, line: string)
    requires b.name == Handicap || b.name == OverUnder ==> AllPriced(b.values)
    ensures !ProcessBet(md, name, b).1
    ensures Quoted(ProcessBet(md, name, b).0.spread, line) ==
      Quoted(md.spread, line) + QuotesAt(name, if b.name == Handicap then b.values else [], line)
    ensures Quoted(ProcessBet(md, name, b).0.total, line) ==
      Quoted(md.total, line) + QuotesAt(name, if b.name == OverUnder then b.values else [], line)
  {
    if b.name == Handicap {
      AppendQuotesPriced(md.spread, name, b.values, line);
    } else if b.name == OverUnder {
      AppendQuotesPriced(md.total, name, b.values, line);
    }
  }

  lemma PricedParts(a: seq<Quote>, b: seq<Quote>)
    requires AllPriced(a + b)
    ensures AllPriced(a) && AllPriced(b)
  {
    forall i | 0 <= i < |a| ensures Float(a[i].odd).Some? {
      assert (a + b)[i] == a[i];
    }
    forall i | 0 <= i < |b| ensures Float(b[i].odd).Some? {
      assert (a + b)[|a| + i] == b[i];
    }
  }

  lemma {:induction false} QuotesAtAppend(name: string, a: seq<Quote>, b: seq<Quote>, line: string)
    requires AllPriced(a) && AllPriced(b) && AllPriced(a + b)
    ensures QuotesAt(name, a + b, line) == QuotesAt(name, a, line) + QuotesAt(name, b, line)
    decreases |b|
  {
    if |b| == 0 {
      assert a + b == a;
    } else {
      var init := b[..|b| - 1];
      assert (a + b)[..|a + b| - 1] == a + init;
      PricedParts(a, init);
      PricedParts(init, [b[|b| - 1]]) by {
        assert init + [b[|b| - 1]] == b;
      }
      QuotesAtAppend(name, a, init, line);
    }
  }

  /** The loop over one bet's quotes. */
  method AppendRun(d: Lines, name: string, qs: seq<Quote>) returns (r: Lines, raised: bool)
    ensures (r, raised) == AppendQuotes(d, name, qs)
  {
    r := d;
    for i := 0 to |qs|
      invariant (r, false) == AppendQuotes(d, name, qs[..i])
    {
      assert qs[..i + 1][..i] == qs[..i];
      var odd := Float(qs[i].odd);
      if odd.None? {
        AppendQuotesRaised(d, name, qs[..i]);
        AppendQuotesStops(d, name, qs, i);
        return r, true;
      }
      r := Append(r, qs[i].value, BookQuote(name, odd.value));
    }
    assert qs[..|qs|] == qs;
    raised := false;
  }

  /** The market data `get_market_data` fills, book after book. */
  class MarketBook {
    var spread: Lines
    var total: Lines

    predicate Valid()
      reads this
    {
      NonEmptyLines(spread) && DistinctKeys(spread) && NonEmptyLines(total) && DistinctKeys(total)
    }

    constructor ()
      ensures Valid() && spread == [] && total == []
    {
      spread := [];
      total := [];
    }

    /** One bet's quotes appended to the spread or total lines. */
    method AppendBet(m: Market, name: string, qs: seq<Quote>) returns (raised: bool)
      requires Valid()
      modifies this
      ensures Valid()
      ensures m == SpreadMarket ==> (spread, raised) == AppendQuotes(old(spread), name, qs) && total == old(total)
      ensures m == TotalMarket ==> (total, raised) == AppendQuotes(old(total), name, qs) && spread == old(spread)
    {
      var d := if m == SpreadMarket then spread else total;
      AppendQuotesValid(d, name, qs);
      d, raised := AppendRun(d, name, qs);
      if m == SpreadMarket {
        spread := d;
      } else {
        total := d;
      }
    }

    /** `_process_bookmaker_odds(odds_data, market_data)`: `raised` tells
        that a price failed to parse and the book was abandoned there. */
    method ProcessBookmakerOdds(book: BookOdds) returns (raised: bool)
      requires Valid()
      modifies this
      ensures Valid()
      ensures (MarketData(spread, total), raised) == ProcessBets(MarketData(old(spread), old(total)), book.name, book.bets)
    {
      ghost var md0 := MarketData(spread, total);
      raised := false;
      for i := 0 to |book.bets|
        invariant Valid()
        invariant (MarketData(spread, total), false) == ProcessBets(md0, book.name, book.bets[..i])
      {
        assert book.bets[..i + 1][..i] == book.bets[..i];
        var b := book.bets[i];
        if b.name == Handicap {
          raised := AppendBet(SpreadMarket, book.name, b.values);
        } else if b.name == OverUnder {
          raised := AppendBet(TotalMarket, book.name, b.values);
        }
        if raised {
          ProcessBetsSticks(md0, book.name, book.bets, i + 1);
          return;
        }
      }
      assert book.bets[..|book.bets|] == book.bets;
    }
  }

  /** A run that has not raised had every price parsable. */
  lemma {:induction false} AppendQuotesRaised(d: Lines, name: string, qs: seq<Quote>)
    requires !AppendQuotes(d, name, qs).1
    ensures AllPriced(qs)
    decreases |qs|
  {
    if |qs| > 0 {
      AppendQuotesRaised(d, name, qs[..|qs| - 1]);
      forall i | 0 <= i < |qs| ensures Float(qs[i].odd).Some? {
        if i < |qs| - 1 {
          assert qs[..|qs| - 1][i] == qs[i];
        }
      }
    }
  }

  /** Once a book has raised, its later bets change nothing. */
  lemma {:induction false} ProcessBetsSticks(md: MarketData, name: string, bets: seq<Bet>, n: nat)
    requires n <= |bets| && ProcessBets(md, name, bets[..n]).1
    ensures ProcessBets(md, name, bets) == ProcessBets(md, name, bets[..n])
    decreases |bets| - n
  {
    if n < |bets| {
      assert bets[..n + 1][..n] == bets[..n];
      ProcessBetsSticks(md, name, bets, n + 1);
    } else {
      assert bets[..n] == bets;
    }
  }

  // ---------------------------------------------------------------------
  // _calculate_consensus
  // ---------------------------------------------------------------------

  /** A line's number of quotes and mean price. */
  datatype LineOdds = LineOdds(count: nat, avgOdd: real)

  function Prices(bs: seq<BookQuote>): (r: seq<real>)
    ensures |r| == |bs| && forall i :: 0 <= i < |bs| ==> r[i] == bs[i].odd
  {
    seq(|bs|, i requires 0 <= i < |bs| => bs[i].odd)
  }

  function Stats(bs: seq<BookQuote>): LineOdds
    requires |bs| > 0
  {
    LineOdds(|bs|, Mean(Prices(bs)))
  }

  /** The largest number of quotes of any line. */
  function MaxCount(d: Lines): (c: nat)
    ensures forall i :: 0 <= i < |d| ==> |d[i].1| <= c
    ensures |d| > 0 ==> exists i :: 0 <= i < |d| && |d[i].1| == c
    decreases |d|
  {
    if |d| == 0 then 0
    else
      var c := MaxCount(d[..|d| - 1]);
      assert forall i :: 0 <= i < |d| - 1 ==> d[..|d| - 1][i] == d[i];
      if |d[|d| - 1].1| > c then |d[|d| - 1].1| else c
  }

  /** The index of the first line with `c` quotes, `|d|` if there is none. */
  function FirstWithCount(d: Lines, c: nat): (i: nat)
    ensures i <= |d|
    ensures forall j :: 0 <= j < i ==> |d[j].1| != c
    ensures i < |d| ==> |d[i].1| == c
    decreases |d|
  {
    if |d| == 0 then 0
    else if |d[0].1| == c then 0
    else
      var i := FirstWithCount(d[1..], c);
      assert forall j :: 1 <= j <= i ==> d[j] == d[1..][j - 1];
      1 + i
  }

  /** The consensus of one market: the first line, in insertion order, with
      the largest number of quotes, with its count and mean price; none for
      a market without lines. */
  function Consensus(d: Lines): Option<(string, LineOdds)>
    requires NonEmptyLines(d)
  {
    if |d| == 0 then None
    else
      var i := FirstWithCount(d, MaxCount(d));
      Some((d[i].0, Stats(d[i].1)))
  }

  /** The consensus line is quoted at least as often as every line and more
      often than every line before it; its figures are its count and the
      mean of its prices, which lies between their extremes. */
  lemma ConsensusFacts(d: Lines)
    requires NonEmptyLines(d)
    ensures Consensus(d).None? <==> |d| == 0
    ensures Consensus(d).Some? ==>
      var (line, s) := Consensus(d).value;
      exists i :: 0 <= i < |d| && d[i].0 == line && s.count == |d[i].1| &&
        s.avgOdd == Sum(Prices(d[i].1)) / |d[i].1| as real &&
        (forall j :: 0 <= j < |d| ==> |d[j].1| <= s.count) &&
        (forall j :: 0 <= j < i ==> |d[j].1| < s.count)
  {
    if |d| > 0 {
      var i := FirstWithCount(d, MaxCount(d));
      assert 0 <= i < |d| && d[i].0 == Consensus(d).value.0;
    }
  }

  /** The mean price of a line lies between its lowest and highest price. */
  lemma ConsensusPriceBounds(d: Lines, lo: real, hi: real)
    requires NonEmptyLines(d) && |d| > 0
    requires forall i, j :: 0 <= i < |d| && 0 <= j < |d[i].1| ==> lo <= d[i].1[j].odd <= hi
    ensures lo <= Consensus(d).value.1.avgOdd <= hi
  {
    var i := FirstWithCount(d, MaxCount(d));
    MeanBounds(Prices(d[i].1), lo, hi);
  }

  /** `_calculate_consensus` for one market: the per-line figures, then the
      largest count, then the first line with it. */
  method CalculateConsensus(d: Lines) returns (r: Option<(string, LineOdds)>)
    requires NonEmptyLines(d)
    ensures r == Consensus(d)
  {
    if |d| == 0 {
      return None;
    }
    var stats := LineStats(d);
    var maxCount := MaxCountOf(d, stats);
    var k := FirstWithCountOf(d, stats, maxCount);
    r := Some((d[k].0, stats[k]));
  }

  /** The count and mean price of every line, in order. */
  method LineStats(d: Lines) returns (stats: seq<LineOdds>)
    requires NonEmptyLines(d)
    ensures |stats| == |d| && forall j :: 0 <= j < |d| ==> stats[j] == Stats(d[j].1)
  {
    stats := [];
    for i := 0 to |d|
      invariant |stats| == i && forall j :: 0 <= j < i ==> stats[j] == Stats(d[j].1)
    {
      var total := 0.0;
      for k := 0 to |d[i].1|
        invariant total == Sum(Prices(d[i].1)[..k])
      {
        assert Prices(d[i].1)[..k + 1][..k] == Prices(d[i].1)[..k];
        total := total + d[i].1[k].odd;
      }
      assert Prices(d[i].1)[..|d[i].1|] == Prices(d[i].1);
      stats := stats + [LineOdds(|d[i].1|, total / |d[i].1| as real)];
    }
  }

  /** The largest count, computed over the per-line figures. */
  method MaxCountOf(d: Lines, stats: seq<LineOdds>) returns (maxCount: nat)
    requires NonEmptyLines(d) && |d| > 0
    requires |stats| == |d| && forall j :: 0 <= j < |d| ==> stats[j] == Stats(d[j].1)
    ensures maxCount == MaxCount(d)
  {
    maxCount := stats[0].count;
    assert d[..1][..0] == [];
    for i := 1 to |d|
      invariant maxCount == MaxCount(d[..i])
    {
      assert d[..i + 1][..i] == d[..i];
      if stats[i].count > maxCount {
        maxCount := stats[i].count;
      }
    }
    assert d[..|d|] == d;
  }

  /** The index of the first line with the largest count. */
  method FirstWithCountOf(d: Lines, stats: seq<LineOdds>, maxCount: nat) returns (k: nat)
    requires NonEmptyLines(d) && |d| > 0 && maxCount == MaxCount(d)
    requires |stats| == |d| && forall j :: 0 <= j < |d| ==> stats[j] == Stats(d[j].1)
    ensures k == FirstWithCount(d, maxCount) && k < |d|
  {
    k := 0;
    while k < |d| && stats[k].count != maxCount
      invariant k <= |d| && forall j :: 0 <= j < k ==> |d[j].1| != maxCount
    {
      k := k + 1;
    }
    FirstWithCountAt(d, maxCount, k);
  }

  lemma {:induction false} FirstWithCountAt(d: Lines, c: nat, k: nat)
    requires k <= |d| && forall j :: 0 <= j < k ==> |d[j].1| != c
    requires k < |d| ==> |d[k].1| == c
    ensures FirstWithCount(d, c) == k
    decreases |d|
  {
    if |d| > 0 && k > 0 {
      FirstWithCountAt(d[1..], c, k - 1);
    }
  }

  /** The consensus of both markets of the market data. */
  method ConsensusOf(md: MarketData) returns (spread: Option<(string, LineOdds)>, total: Option<(string, LineOdds)>)
    requires NonEmptyLines(md.spread) && NonEmptyLines(md.total)
    ensures spread == Consensus(md.spread) && total == Consensus(md.total)
  {
    spread := CalculateConsensus(md.spread);
    total := CalculateConsensus(md.total);
  }

  // ---------------------------------------------------------------------
  // _analyze_key_numbers
  // ---------------------------------------------------------------------

  const SpreadPrimary: seq<int> := [3, 7]
  const SpreadSecondary: seq<int> := [4, 6, 10, 14]
  const TotalsPrimary: seq<int> := [41, 44, 47, 51]
  /** Declared beside the others but never consulted. */
  const TotalsSecondary: seq<int> := [37, 40, 43, 46, 50]
  const KeyMargin := 0.5

  datatype LineKind = SpreadLine | TotalLine

  /** A key-number alert: the line's value, the key number it is near, and
      whether the key is a secondary one. */
  datatype Alert = Alert(line: LineKind, value: real, key: int, secondary: bool)

  function IntText(n: int): string
  {
    if n < 0 then "-" + NatText(-n) else NatText(n)
  }

  /** The message of an alert. */
  function AlertText(a: Alert): string
  {
    match a.line
    case SpreadLine =>
      "Spread " + SignedFloatText(a.value) + " is near " + (if a.secondary then "secondary " else "") +
      "key number " + IntText(a.key)
    case TotalLine =>
      "Total " + SignedFloatText(a.value) + " is near key number " + IntText(a.key)
  }

  /** The alerts of one list of keys, in list order. */
  function Near(line: LineKind, v: real, keys: seq<int>, secondary: bool): seq<Alert>
    decreases |keys|
  {
    if |keys| == 0 then []
    else
      var k := keys[|keys| - 1];
      Near(line, v, keys[..|keys| - 1], secondary) + (if Abs(v - k as real) <= KeyMargin then [Alert(line, v, k, secondary)] else [])
  }

  /** An alert is raised for exactly the keys within the margin, inclusive,
      and carries the line's kind, value and tier. */
  lemma {:induction false} NearMember(line: LineKind, v: real, keys: seq<int>, secondary: bool, a: Alert)
    ensures a in Near(line, v, keys, secondary) <==>
      a.line == line && a.value == v && a.secondary == secondary && a.key in keys && Abs(v - a.key as real) <= KeyMargin
    decreases |keys|
  {
    if |keys| > 0 {
      var init := keys[..|keys| - 1];
      assert keys == init + [keys[|keys| - 1]];
      NearMember(line, v, init, secondary, a);
    }
  }

  /** The alerts of a spread value: primary keys first, then secondary. */
  function SpreadAlerts(v: real): seq<Alert>
  {
    Near(SpreadLine, v, SpreadPrimary, false) + Near(SpreadLine, v, SpreadSecondary, true)
  }

  /** The alerts of a total value: the primary totals keys only. */
  function TotalAlerts(v: real): seq<Alert>
  {
    Near(TotalLine, v, TotalsPrimary, false)
  }

  /** The number a consensus text carries in its second word, if it parses. */
  function LineValue(text: string): Option<real>
  {
    var w := Words(text);
    if |w| < 2 then None else ParseFloat(w[1])
  }

  /** The alerts of one consensus label: none for an absent or empty label,
      `None` (a raise) when its second word is missing or does not parse.
      The spread's sign is dropped before the comparison. */
  function LabelAlerts(line: LineKind, text: Option<string>): Option<seq<Alert>>
  {
    if text.None? || |text.value| == 0 then Some([])
    else match LineValue(text.value)
      case None => None
      case Some(v) => Some(if line == SpreadLine then SpreadAlerts(Abs(v)) else TotalAlerts(v))
  }

  /** `_analyze_key_numbers(consensus)`: the spread's alerts, then the
      total's; a raise on either label loses every alert. */
  function KeyAlerts(spread: Option<string>, total: Option<string>): Option<seq<Alert>>
  {
    var s := LabelAlerts(SpreadLine, spread);
    var t := LabelAlerts(TotalLine, total);
    if s.None? || t.None? then None else Some(s.value + t.value)
  }

  /** A spread alert fires exactly for a key within the margin, inclusive,
      marked secondary exactly for the secondary keys. */
  lemma SpreadAlertIff(v: real, a: Alert)
    ensures a in SpreadAlerts(v) <==>
      a.line == SpreadLine && a.value == v && Abs(v - a.key as real) <= 0.5 &&
      ((!a.secondary && a.key in SpreadPrimary) || (a.secondary && a.key in SpreadSecondary))
  {
    NearMember(SpreadLine, v, SpreadPrimary, false, a);
    NearMember(SpreadLine, v, SpreadSecondary, true, a);
  }

  /** Primary alerts come before secondary ones. */
  lemma PrimaryFirst(v: real)
    ensures forall i, j :: 0 <= i < j < |SpreadAlerts(v)| && SpreadAlerts(v)[i].secondary ==> SpreadAlerts(v)[j].secondary
  {
    var p: seq<Alert> := Near(SpreadLine, v, SpreadPrimary, false);
    var q: seq<Alert> := Near(SpreadLine, v, SpreadSecondary, true);
    var s: seq<Alert> := p + q;
    forall k | 0 <= k < |p|
      ensures !s[k].secondary
    {
      NearMember(SpreadLine, v, SpreadPrimary, false, p[k]);
    }
    forall k | |p| <= k < |s|
      ensures s[k].secondary
    {
      assert s[k] == q[k - |p|];
      NearMember(SpreadLine, v, SpreadSecondary, true, q[k - |p|]);
    }
  }

  /** Totals are checked against the primary totals keys alone: a total
      near only a secondary key raises nothing. */
  lemma TotalsPrimaryOnly(v: real)
    ensures forall a :: a in TotalAlerts(v) ==> a.key in TotalsPrimary && a.line == TotalLine
    ensures TotalAlerts(40.0) == []
  {
    forall a | a in TotalAlerts(v)
      ensures a.key in TotalsPrimary && a.line == TotalLine
    {
      NearMember(TotalLine, v, TotalsPrimary, false, a);
    }
    NearNone(TotalLine, 40.0, TotalsPrimary, false);
  }

  lemma {:induction false} NearNone(line: LineKind, v: real, keys: seq<int>, secondary: bool)
    requires forall k :: k in keys ==> Abs(v - k as real) > KeyMargin
    ensures Near(line, v, keys, secondary) == []
    decreases |keys|
  {
    if |keys| > 0 {
      var init := keys[..|keys| - 1];
      assert keys[|keys| - 1] in keys;
      assert forall k :: k in init ==> k in keys;
      NearNone(line, v, init, secondary);
    }
  }

  /** 7.5 is near 7; 3.5 is near both 3 and the secondary 4. */
  lemma KeyNumberExamples()
    ensures SpreadAlerts(7.5) == [Alert(SpreadLine, 7.5, 7, false)]
    ensures SpreadAlerts(3.5) == [Alert(SpreadLine, 3.5, 3, false), Alert(SpreadLine, 3.5, 4, true)]
  {
    SpreadAtSevenAndHalf();
    PrimaryAtThreeAndHalf();
    SecondaryAtThreeAndHalf();
  }

  lemma SpreadAtSevenAndHalf()
    ensures SpreadAlerts(7.5) == [Alert(SpreadLine, 7.5, 7, false)]
  {
    assert [3, 7][..1] == [3] && [3][..0] == [];
    assert Near(SpreadLine, 7.5, [3], false) == [];
    NearNone(SpreadLine, 7.5, SpreadSecondary, true);
  }

  lemma PrimaryAtThreeAndHalf()
    ensures Near(SpreadLine, 3.5, SpreadPrimary, false) == [Alert(SpreadLine, 3.5, 3, false)]
  {
    assert [3, 7][..1] == [3] && [3][..0] == [];
    assert Near(SpreadLine, 3.5, [3], false) == [Alert(SpreadLine, 3.5, 3, false)];
  }

  lemma SecondaryAtThreeAndHalf()
    ensures Near(SpreadLine, 3.5, SpreadSecondary, true) == [Alert(SpreadLine, 3.5, 4, true)]
  {
    assert [4, 6, 10, 14][..3] == [4, 6, 10];
    assert [4, 6, 10][..2] == [4, 6];
    assert [4, 6][..1] == [4] && [4][..0] == [];
    assert Near(SpreadLine, 3.5, [4], true) == [Alert(SpreadLine, 3.5, 4, true)];
    assert Near(SpreadLine, 3.5, [4, 6], true) == [Alert(SpreadLine, 3.5, 4, true)];
    assert Near(SpreadLine, 3.5, [4, 6, 10], true) == [Alert(SpreadLine, 3.5, 4, true)];
  }

  /** The spread's sign is dropped before the comparison. */
  lemma SpreadSignDropped(spread: string, v: real)
    requires |spread| > 0 && LineValue(spread) == Some(v)
    ensures KeyAlerts(Some(spread), None) == Some(SpreadAlerts(Abs(v)))
  {
    var r := SpreadAlerts(Abs(v));
    assert LabelAlerts(SpreadLine, Some(spread)) == Some(r);
    assert r + [] == r;
  }

  /** A label that does not parse loses every alert, the other label's
      included. */
  lemma UnparsableLabel(spread: Option<string>, total: Option<string>)
    requires (spread.Some? && |spread.value| > 0 && LineValue(spread.value).None?) ||
             (total.Some? && |total.value| > 0 && LineValue(total.value).None?)
    ensures KeyAlerts(spread, total).None?
  {
  }

  /** The alerts of one list of keys, appended in list order. */
  method AppendNear(alerts: seq<Alert>, line: LineKind, v: real, keys: seq<int>, secondary: bool) returns (r: seq<Alert>)
    ensures r == alerts + Near(line, v, keys, secondary)
  {
    r := alerts;
    for i := 0 to |keys|
      invariant r == alerts + Near(line, v, keys[..i], secondary)
    {
      assert keys[..i + 1][..i] == keys[..i];
      if Abs(v - keys[i] as real) <= KeyMargin {
        r := r + [Alert(line, v, keys[i], secondary)];
      }
    }
    assert keys[..|keys|] == keys;
  }

  /** The alerts of one consensus label. */
  method AnalyzeLabel(line: LineKind, text: Option<string>) returns (alerts: Option<seq<Alert>>)
    ensures alerts == LabelAlerts(line, text)
  {
    if text.None? || |text.value| == 0 {
      return Some([]);
    }
    var v := LineValue(text.value);
    if v.None? {
      return None;
    }
    var acc: seq<Alert> := [];
    if line == SpreadLine {
      var spreadValue := Abs(v.value);
      acc := AppendNear(acc, SpreadLine, spreadValue, SpreadPrimary, false);
      acc := AppendNear(acc, SpreadLine, spreadValue, SpreadSecondary, true);
      assert acc == SpreadAlerts(spreadValue);
    } else {
      acc := AppendNear(acc, TotalLine, v.value, TotalsPrimary, false);
      assert acc == TotalAlerts(v.value);
    }
    alerts := Some(acc);
  }

  /** `_analyze_key_numbers`; `None` when a label fails to parse. */
  method AnalyzeKeyNumbers(spread: Option<string>, total: Option<string>) returns (alerts: Option<seq<Alert>>)
    ensures alerts == KeyAlerts(spread, total)
  {
    var s := AnalyzeLabel(SpreadLine, spread);
    if s.None? {
      return None;
    }
    var t := AnalyzeLabel(TotalLine, total);
    if t.None? {
      return None;
    }
    alerts := Some(s.value + t.value);
  }
}
