/** The fixed, ordered rule set of `get_stock_recommendation` that turns the
    latest indicator values into buy/sell signal counts and reasons. */
module SignalScorer {
  import opened Wrappers

  /** `a > b` between floats that may be NaN (`None`): false when either is. */
  predicate Gt(a: Option<real>, b: Option<real>)
  {
    a.Some? && b.Some? && a.value > b.value
  }

  /** `a < b` between floats that may be NaN: false when either is. */
  predicate Lt(a: Option<real>, b: Option<real>)
  {
    a.Some? && b.Some? && a.value < b.value
  }

  datatype TrendKind = StrongUptrend | StrongDowntrend | AboveSma50 | BelowSma50
  datatype RsiZone = Oversold | Overbought | ModeratelyLow | ModeratelyHigh

  /** Why a rule fired. RSI reasons carry the RSI value they quote. */
  datatype Reason = Trend(kind: TrendKind) | Rsi(zone: RsiZone, value: real) | Macd(bullish: bool) | HighVolume

  /** The latest values the rules read. The SMAs and the RSI may be NaN. */
  datatype Snapshot = Snapshot(
    close: real, sma50: Option<real>, sma200: Option<real>, rsi: Option<real>,
    macd: real, signal: real, recentVolume: real, avgVolume: real)

  /** What one rule contributes: signals on each side and at most one reason. */
  datatype Effect = Effect(buy: nat, sell: nat, reason: Option<Reason>)

  /** The accumulator {buy_signals, sell_signals, reasons}. */
  datatype ScoreState = ScoreState(buySignals: nat, sellSignals: nat, reasons: seq<Reason>)

  /** close > SMA50 > SMA200, as Python's chained comparison reads it. */
  predicate StrongUp(s: Snapshot)
  {
    Gt(Some(s.close), s.sma50) && Gt(s.sma50, s.sma200)
  }

  /** close < SMA50 < SMA200. */
  predicate StrongDown(s: Snapshot)
  {
    Lt(Some(s.close), s.sma50) && Lt(s.sma50, s.sma200)
  }

  /** The buy/sell weight each trend reason stands for. */
  function TrendWeight(k: TrendKind): (nat, nat)
  {
    match k
    case StrongUptrend => (2, 0)
    case StrongDowntrend => (0, 2)
    case AboveSma50 => (1, 0)
    case BelowSma50 => (0, 1)
  }

  /** Rule 1: the first of four branches that holds. */
  function TrendRule(s: Snapshot): (e: Effect)
  {
    if StrongUp(s) then Effect(2, 0, Some(Trend(StrongUptrend)))
    else if StrongDown(s) then Effect(0, 2, Some(Trend(StrongDowntrend)))
    else if Gt(Some(s.close), s.sma50) then Effect(1, 0, Some(Trend(AboveSma50)))
    else Effect(0, 1, Some(Trend(BelowSma50)))
  }

  /** RSI inside [45, 55], or NaN: rule 2 stays silent. */
  predicate RsiDeadZone(rsi: Option<real>)
  {
    rsi.None? || 45.0 <= rsi.value <= 55.0
  }

  /** Rule 2: the first of four thresholds that holds, or nothing. */
  function RsiRule(rsi: Option<real>): (e: Effect)
  {
    if Lt(rsi, Some(30.0)) then Effect(2, 0, Some(Rsi(Oversold, rsi.value)))
    else if Gt(rsi, Some(70.0)) then Effect(0, 2, Some(Rsi(Overbought, rsi.value)))
    else if Lt(rsi, Some(45.0)) then Effect(1, 0, Some(Rsi(ModeratelyLow, rsi.value)))
    else if Gt(rsi, Some(55.0)) then Effect(0, 1, Some(Rsi(ModeratelyHigh, rsi.value)))
    else Effect(0, 0, None)
  }

  /** Rule 1 fires exactly one branch with exactly one trend reason; its
      weight is 2 for a strong trend and 1 otherwise, on the side the close
      lies. */
  lemma TrendRuleTable(s: Snapshot)
    ensures var e := TrendRule(s);
      && e.reason.Some? && e.reason.value.Trend?
      && (e.buy, e.sell) == TrendWeight(e.reason.value.kind)
      && (e.reason.value.kind == StrongUptrend <==> StrongUp(s))
      && (e.reason.value.kind == StrongDowntrend <==> StrongDown(s))
      && (e.reason.value.kind == AboveSma50 <==> !StrongUp(s) && Gt(Some(s.close), s.sma50))
      && (e.reason.value.kind == BelowSma50 <==>
            !StrongUp(s) && !StrongDown(s) && !Gt(Some(s.close), s.sma50))
  {
  }

  /** Rule 2: RSI below 30 gives two buy signals, above 70 two sell signals,
      below 45 one buy, above 55 one sell; in the 45–55 dead zone, and for a
      NaN RSI which fails every comparison, neither counter moves and no
      reason is added. */
  lemma RsiRuleTable(rsi: Option<real>)
    ensures var e := RsiRule(rsi);
      && (e.reason.None? <==> RsiDeadZone(rsi))
      && (e.reason.None? ==> e.buy == 0 && e.sell == 0)
      && (e.reason.Some? ==> e.reason.value.Rsi? && e.reason.value.value == rsi.value)
      && (e.buy == 0 || e.sell == 0)
      && (e.buy == 2 <==> rsi.Some? && rsi.value < 30.0)
      && (e.sell == 2 <==> rsi.Some? && rsi.value > 70.0)
      && (e.buy == 1 <==> rsi.Some? && 30.0 <= rsi.value < 45.0)
      && (e.sell == 1 <==> rsi.Some? && 55.0 < rsi.value <= 70.0)
  {
  }

  /** Rule 3: always exactly one signal; a tie counts as bearish. */
  function MacdRule(macd: real, signal: real): (e: Effect)
    ensures e.buy + e.sell == 1
    ensures e.buy == 1 <==> macd > signal
    ensures e.reason == Some(Macd(e.buy == 1))
  {
    if macd > signal then Effect(1, 0, Some(Macd(true))) else Effect(0, 1, Some(Macd(false)))
  }

  /** Rule 4: informational only, it never changes a counter. */
  function VolumeRule(recent: real, average: real): (e: Effect)
    ensures e.buy == 0 && e.sell == 0
    ensures e.reason.Some? <==> recent > average * 1.2
    ensures e.reason.Some? ==> e.reason.value == HighVolume
  {
    if recent > average * 1.2 then Effect(0, 0, Some(HighVolume)) else Effect(0, 0, None)
  }

  /** The reason a rule contributes, as a list of zero or one entries. */
  function Fired(e: Effect): seq<Reason>
  {
    if e.reason.Some? then [e.reason.value] else []
  }

  /** Rules 1–4 applied in order: the counters are the sums of the rules'
      signals and the reasons are the fired rules' reasons in rule order. */
  function Score(s: Snapshot): ScoreState
  {
    var t, r, m, v := TrendRule(s), RsiRule(s.rsi), MacdRule(s.macd, s.signal),
      VolumeRule(s.recentVolume, s.avgVolume);
    ScoreState(t.buy + r.buy + m.buy + v.buy, t.sell + r.sell + m.sell + v.sell,
               Fired(t) + Fired(r) + Fired(m) + Fired(v))
  }

  /** The scoring block as the source runs it: two counters and a reason
      list, updated rule by rule. */
  method ScoreSignals(s: Snapshot) returns (buySignals: nat, sellSignals: nat, reasons: seq<Reason>)
    ensures buySignals == Score(s).buySignals && sellSignals == Score(s).sellSignals
    ensures reasons == Score(s).reasons
  {
    buySignals, sellSignals, reasons := 0, 0, [];

    ghost var t := TrendRule(s);
    if Gt(Some(s.close), s.sma50) && Gt(s.sma50, s.sma200) {
      buySignals := buySignals + 2;
      reasons := reasons + [Trend(StrongUptrend)];
    } else if Lt(Some(s.close), s.sma50) && Lt(s.sma50, s.sma200) {
      sellSignals := sellSignals + 2;
      reasons := reasons + [Trend(StrongDowntrend)];
    } else if Gt(Some(s.close), s.sma50) {
      buySignals := buySignals + 1;
      reasons := reasons + [Trend(AboveSma50)];
    } else {
      sellSignals := sellSignals + 1;
      reasons := reasons + [Trend(BelowSma50)];
    }
    assert buySignals == t.buy && sellSignals == t.sell && reasons == Fired(t);

    ghost var r, b1, s1, rs1 := RsiRule(s.rsi), buySignals, sellSignals, reasons;
    if Lt(s.rsi, Some(30.0)) {
      buySignals := buySignals + 2;
      reasons := reasons + [Rsi(Oversold, s.rsi.value)];
    } else if Gt(s.rsi, Some(70.0)) {
      sellSignals := sellSignals + 2;
      reasons := reasons + [Rsi(Overbought, s.rsi.value)];
    } else if Lt(s.rsi, Some(45.0)) {
      buySignals := buySignals + 1;
      reasons := reasons + [Rsi(ModeratelyLow, s.rsi.value)];
    } else if Gt(s.rsi, Some(55.0)) {
      sellSignals := sellSignals + 1;
      reasons := reasons + [Rsi(ModeratelyHigh, s.rsi.value)];
    }
    assert buySignals == b1 + r.buy && sellSignals == s1 + r.sell && reasons == rs1 + Fired(r);

    ghost var m, b2, s2, rs2 := MacdRule(s.macd, s.signal), buySignals, sellSignals, reasons;
    if s.macd > s.signal {
      buySignals := buySignals + 1;
      reasons := reasons + [Macd(true)];
    } else {
      sellSignals := sellSignals + 1;
      reasons := reasons + [Macd(false)];
    }
    assert buySignals == b2 + m.buy && sellSignals == s2 + m.sell && reasons == rs2 + Fired(m);

    ghost var v, rs3 := VolumeRule(s.recentVolume, s.avgVolume), reasons;
    if s.recentVolume > s.avgVolume * 1.2 {
      reasons := reasons + [HighVolume];
    }
    assert reasons == rs3 + Fired(v);
  }

  /** Position of a reason's rule in the fixed rule order. */
  function Rank(r: Reason): nat
  {
    match r
    case Trend(_) => 0
    case Rsi(_, _) => 1
    case Macd(_) => 2
    case HighVolume => 3
  }

  /** Count bounds: the trend rule gives 1 or 2 signals, the RSI rule 0 to 2,
      the MACD rule exactly 1, the volume rule none; so the total is 3..5
      when the RSI rule fired and 2..3 when it stayed in its dead zone. There
      are two to four reasons: one per fired rule. */
  lemma ScoreCounts(s: Snapshot)
    ensures var st := Score(s);
      var total := st.buySignals + st.sellSignals;
      && 2 <= total <= 5
      && (RsiDeadZone(s.rsi) ==> 2 <= total <= 3)
      && (!RsiDeadZone(s.rsi) ==> 3 <= total <= 5)
      && |st.reasons| == 2 + (if RsiDeadZone(s.rsi) then 0 else 1)
                           + (if s.recentVolume > s.avgVolume * 1.2 then 1 else 0)
      && 2 <= |st.reasons| <= 4
  {
    var t, r, m, v := TrendRule(s), RsiRule(s.rsi), MacdRule(s.macd, s.signal),
      VolumeRule(s.recentVolume, s.avgVolume);
    assert 1 <= t.buy + t.sell <= 2 by {
      match t.reason.value.kind
      case StrongUptrend =>
      case StrongDowntrend =>
      case AboveSma50 =>
      case BelowSma50 =>
    }
    assert r.buy + r.sell <= 2;
    assert !RsiDeadZone(s.rsi) ==> 1 <= r.buy + r.sell;
  }

  /** Reasons appear in rule order: the trend reason first, then the RSI
      reason if any, then the MACD reason, then the volume reason if any. */
  lemma ReasonsInRuleOrder(s: Snapshot)
    ensures var rs := Score(s).reasons;
      && |rs| >= 2
      && rs[0].Trend?
      && (exists i :: 0 < i < |rs| && rs[i].Macd?)
      && (forall i, j :: 0 <= i < j < |rs| ==> Rank(rs[i]) < Rank(rs[j]))
  {
    var rs := Score(s).reasons;
    var t := TrendRule(s).reason.value;
    var r := RsiRule(s.rsi).reason;
    var m := MacdRule(s.macd, s.signal).reason.value;
    var v := VolumeRule(s.recentVolume, s.avgVolume).reason;
    var rPart := if r.Some? then [r.value] else [];
    var vPart := if v.Some? then [v.value] else [];
    assert rs == [t] + rPart + [m] + vPart;
    assert rs[|rPart| + 1] == m;
  }

  /** A NaN RSI acts exactly like a value in the 45–55 dead zone. */
  lemma NanRsiIsDeadZone(s: Snapshot)
    requires s.rsi.None?
    ensures RsiRule(s.rsi) == RsiRule(Some(50.0)) == Effect(0, 0, None)
  {
  }

  /** Without an SMA200 (fewer than 200 bars) neither strong branch can fire
      and the close-versus-SMA50 test decides; without an SMA50 (fewer than
      50 bars) the rule always falls through to "below SMA50". */
  lemma TrendWithoutLongAverages(s: Snapshot)
    ensures s.sma200.None? ==>
              TrendRule(s).reason == Some(Trend(if Gt(Some(s.close), s.sma50) then AboveSma50 else BelowSma50))
    ensures s.sma50.None? ==> TrendRule(s) == Effect(0, 1, Some(Trend(BelowSma50)))
  {
  }
}
