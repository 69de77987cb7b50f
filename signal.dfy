/**
 * The signal scorer of the dashboard: it reads the latest bar's close and the
 * latest indicator values, turns them into a composite integer score and
 * maps that score onto one of five signal labels, together with the two
 * display classifiers for trend and ADX strength.
 *
 * Indicator values are floating-point numbers that may be NaN. A value is
 * modelled as `Num = Option<real>`, with `None` standing for NaN; every
 * ordered comparison involving NaN is false, exactly as in Python.
 */
module Signal {
  import opened Wrappers

  /** A floating-point reading; `None` is NaN. */
  type Num = Option<real>

  /** The last row of the analysed frame, as far as the scorer reads it. */
  datatype Reading = Reading(
    close: Num,
    zlsma: Num,
    sma21: Num,
    sar: Num,
    dmp: Num,
    dmn: Num,
    wt1: Num,
    wt2: Num,
    adx: Num)

  /** The five signal labels, from the most bearish to the most bullish. */
  datatype Label = StrongSell | Sell | Neutral | Buy | StrongBuy

  /** Points each reading contributes to the score. */
  const Weight: int := 25
  /** Score thresholds of the label rules. */
  const BuyThreshold: int := 50
  const StrongThreshold: int := 75
  /** ADX level above which the trend counts as strong. */
  const AdxStrong: real := 20.0

  /** Python's `a > b` on floats: false when either side is NaN. */
  predicate Above(a: Num, b: Num) {
    a.Some? && b.Some? && a.value > b.value
  }

  /** Python's `a < b` on floats: false when either side is NaN. */
  predicate Below(a: Num, b: Num) {
    a.Some? && b.Some? && a.value < b.value
  }

  /** Close lies above both moving averages. */
  predicate BullTrend(r: Reading) {
    Above(r.close, r.zlsma) && Above(r.close, r.sma21)
  }

  /** Close lies below both moving averages. */
  predicate BearTrend(r: Reading) {
    Below(r.close, r.zlsma) && Below(r.close, r.sma21)
  }

  /** Close lies above the parabolic SAR. */
  predicate SarBull(r: Reading) {
    Above(r.close, r.sar)
  }

  /** The positive directional indicator exceeds the negative one. */
  predicate DmiBull(r: Reading) {
    Above(r.dmp, r.dmn)
  }

  /** The WaveTrend line exceeds its signal line. */
  predicate WaveBull(r: Reading) {
    Above(r.wt1, r.wt2)
  }

  function B2I(b: bool): (n: nat)
    ensures n <= 1
  {
    if b then 1 else 0
  }

  /** Number of readings that vote bullish. */
  function BullCount(r: Reading): (n: nat)
    ensures n <= 4
  {
    B2I(BullTrend(r)) + B2I(SarBull(r)) + B2I(DmiBull(r)) + B2I(WaveBull(r))
  }

  /** Number of readings that vote bearish; SAR, DMI and WaveTrend are bearish whenever they are not bullish. */
  function BearCount(r: Reading): (n: nat)
    ensures n <= 4
  {
    B2I(BearTrend(r)) + B2I(!SarBull(r)) + B2I(!DmiBull(r)) + B2I(!WaveBull(r))
  }

  /**
   * Reference definition of the composite score: every bullish vote adds the
   * weight, every bearish vote subtracts it. Every score is a multiple of the
   * weight within [-100, 100], and a neutral trend makes the score an odd
   * multiple of the weight.
   */
  function Score(r: Reading): (s: int)
    ensures s % Weight == 0
    ensures -100 <= s <= 100
    ensures s == 100 || s == 50 || s == 0 || s == -50 || s == -100
            || s == 75 || s == 25 || s == -25 || s == -75
    ensures (s / Weight) % 2 == 1 <==> !BullTrend(r) && !BearTrend(r)
  {
    Weight * (BullCount(r) - BearCount(r))
  }

  /**
   * The trend term as written: add the weight on a bull trend, then subtract
   * it on a bear trend. The two never hold together, so the term is +25, -25
   * or 0, the last exactly when neither trend holds.
   */
  function TrendTerm(r: Reading): (t: int)
    ensures t == Weight <==> BullTrend(r)
    ensures t == -Weight <==> BearTrend(r)
    ensures t == 0 <==> !BullTrend(r) && !BearTrend(r)
  {
    (if BullTrend(r) then Weight else 0) - (if BearTrend(r) then Weight else 0)
  }

  /** A reading that is never neutral: the weight when bullish, minus the weight otherwise. */
  function Vote(bull: bool): (v: int)
    ensures v == Weight || v == -Weight
    ensures v > 0 <==> bull
  {
    if bull then Weight else -Weight
  }

  /**
   * The scoring block as written: an accumulator that starts at 0 and is
   * moved up or down by each indicator in turn.
   */
  method ComputeScore(r: Reading) returns (score: int)
    ensures score == Score(r)
    ensures score == TrendTerm(r) + Vote(SarBull(r)) + Vote(DmiBull(r)) + Vote(WaveBull(r))
  {
    score := 0;
    var bullTrend := BullTrend(r);
    var bearTrend := BearTrend(r);
    if bullTrend { score := score + Weight; }
    if bearTrend { score := score - Weight; }
    if Above(r.close, r.sar) { score := score + Weight; } else { score := score - Weight; }
    if Above(r.dmp, r.dmn) { score := score + Weight; } else { score := score - Weight; }
    if Above(r.wt1, r.wt2) { score := score + Weight; } else { score := score - Weight; }
  }

  /** Reference definition of the label rules, as disjoint score bands. */
  function Classify(score: int): Label {
    if score >= StrongThreshold then StrongBuy
    else if score >= BuyThreshold then Buy
    else if score <= -StrongThreshold then StrongSell
    else if score <= -BuyThreshold then Sell
    else Neutral
  }

  /**
   * The label rules as written: start from neutral and let each threshold
   * test overwrite the label in turn. Each label holds exactly on its band.
   */
  method Status(score: int) returns (status: Label)
    ensures status == Classify(score)
    ensures status == StrongBuy <==> score >= 75
    ensures status == Buy <==> 50 <= score < 75
    ensures status == Neutral <==> -50 < score < 50
    ensures status == Sell <==> -75 < score <= -50
    ensures status == StrongSell <==> score <= -75
  {
    status := Neutral;
    if score >= BuyThreshold { status := Buy; }
    if score >= StrongThreshold { status := StrongBuy; }
    if score <= -BuyThreshold { status := Sell; }
    if score <= -StrongThreshold { status := StrongSell; }
  }

  /** The text shown for a label. */
  function StatusText(l: Label): string {
    match l
    case Neutral => "NÖTR"
    case Buy => "✅ AL"
    case StrongBuy => "🚀 GÜÇLÜ AL"
    case Sell => "🔻 SAT"
    case StrongSell => "🩸 GÜÇLÜ SAT"
  }

  /** Distinct labels show distinct texts, so the text identifies the label. */
  lemma StatusTextDistinct(l: Label, m: Label)
    requires l != m
    ensures StatusText(l) != StatusText(m)
  {
  }

  /** The displayed signal strength, the magnitude of the score. */
  function Strength(score: int): (p: nat)
    ensures p == score || p == -score
  {
    if score < 0 then -score else score
  }

  /** The trend label: up exactly on a bull trend, down otherwise (a bear or a neutral trend alike). */
  function TrendText(r: Reading): (s: string)
    ensures s == "YUKARI" <==> BullTrend(r)
    ensures s == "AŞAĞI" <==> !BullTrend(r)
  {
    if BullTrend(r) then "YUKARI" else "AŞAĞI"
  }

  /** The ADX strength label: strong exactly when ADX exceeds 20, weak otherwise (NaN included). */
  function AdxText(adx: Num): (s: string)
    ensures s == "Güçlü" <==> adx.Some? && adx.value > AdxStrong
    ensures s == "Zayıf" <==> adx.None? || adx.value <= AdxStrong
  {
    if Above(adx, Some(AdxStrong)) then "Güçlü" else "Zayıf"
  }

  /** Everything the dashboard derives from the last row. */
  datatype Metrics = Metrics(score: int, status: Label, strength: nat, trend: string, adxStrength: string)

  /** The scorer and the metric labels of the dashboard, for one reading. */
  method Evaluate(r: Reading) returns (sig: Metrics)
    ensures sig.score == Score(r)
    ensures sig.status == Classify(Score(r))
    ensures sig.strength == Strength(sig.score)
    ensures sig.strength <= 100 && sig.strength % Weight == 0
    ensures sig.strength == 100 <==> (sig.status == StrongBuy && sig.score == 100) || (sig.status == StrongSell && sig.score == -100)
    ensures sig.trend == TrendText(r) && sig.adxStrength == AdxText(r.adx)
  {
    var score := ComputeScore(r);
    var status := Status(score);
    sig := Metrics(score, status, Strength(score), TrendText(r), AdxText(r.adx));
  }

  // ---------------------------------------------------------------------
  // Properties of the scorer
  // ---------------------------------------------------------------------

  /** The bull and the bear trend never hold together. */
  lemma TrendExclusive(r: Reading)
    ensures !(BullTrend(r) && BearTrend(r))
  {
  }

  /**
   * The trend term is 0 whenever close ties one of the moving averages,
   * sits between them, or any of the three values is missing.
   */
  lemma TrendNeutralCases(r: Reading)
    ensures r.close == r.zlsma ==> TrendTerm(r) == 0
    ensures r.close == r.sma21 ==> TrendTerm(r) == 0
    ensures Above(r.close, r.zlsma) && Below(r.close, r.sma21) ==> TrendTerm(r) == 0
    ensures Below(r.close, r.zlsma) && Above(r.close, r.sma21) ==> TrendTerm(r) == 0
    ensures r.close.None? || r.zlsma.None? || r.sma21.None? ==> TrendTerm(r) == 0
  {
  }

  /** A tie or a missing value in the SAR, DMI or WaveTrend comparison votes bearish. */
  lemma TiesVoteBearish(r: Reading)
    ensures r.close == r.sar || r.close.None? || r.sar.None? ==> Vote(SarBull(r)) == -Weight
    ensures r.dmp == r.dmn || r.dmp.None? || r.dmn.None? ==> Vote(DmiBull(r)) == -Weight
    ensures r.wt1 == r.wt2 || r.wt1.None? || r.wt2.None? ==> Vote(WaveBull(r)) == -Weight
  {
  }

  /** The score is the maximum exactly when all four readings are bullish, and then the label is strong buy. */
  lemma AllBullish(r: Reading)
    ensures Score(r) == 100 <==> BullTrend(r) && SarBull(r) && DmiBull(r) && WaveBull(r)
    ensures Score(r) == 100 ==> Classify(Score(r)) == StrongBuy
  {
  }

  /** The score is the minimum exactly when all four readings are bearish, and then the label is strong sell. */
  lemma AllBearish(r: Reading)
    ensures Score(r) == -100 <==> BearTrend(r) && !SarBull(r) && !DmiBull(r) && !WaveBull(r)
    ensures Score(r) == -100 ==> Classify(Score(r)) == StrongSell
  {
  }

  /**
   * The label of a reading in terms of its votes: strong buy exactly when no
   * reading is bearish, buy exactly when three are bullish and one bearish,
   * and symmetrically for the sell side; everything else is neutral.
   */
  lemma LabelByVotes(r: Reading)
    ensures Classify(Score(r)) == StrongBuy <==> BearCount(r) == 0
    ensures Classify(Score(r)) == Buy <==> BullCount(r) == 3 && BearCount(r) == 1
    ensures Classify(Score(r)) == Sell <==> BullCount(r) == 1 && BearCount(r) == 3
    ensures Classify(Score(r)) == StrongSell <==> BullCount(r) == 0
    ensures Classify(Score(r)) == Neutral <==> BullCount(r) == 2 || (BullCount(r) == 1 && BearCount(r) == 2)
  {
  }

  /** Close above both averages and the SAR, with +DI above -DI, gives buy or strong buy whatever WaveTrend says. */
  lemma TrendSarDmiAgreeBuys(r: Reading)
    requires BullTrend(r) && SarBull(r) && DmiBull(r)
    ensures Classify(Score(r)) == Buy || Classify(Score(r)) == StrongBuy
  {
  }

  /**
   * A score of 75 carries the strong-buy label although only three readings
   * are bullish: close lies between its two moving averages, so the trend
   * term is 0, while SAR, DMI and WaveTrend are bullish.
   */
  lemma StrongBuyWithSplitTrend()
    ensures var r := Reading(Some(10.0), Some(9.0), Some(11.0), Some(8.0),
                             Some(30.0), Some(20.0), Some(5.0), Some(4.0), Some(25.0));
            BullCount(r) == 3 && Score(r) == 75 && Classify(Score(r)) == StrongBuy
  {
  }

  /** The displayed strength is a multiple of the weight within [0, 100]. */
  lemma StrengthBounded(r: Reading)
    ensures 0 <= Strength(Score(r)) <= 100
    ensures Strength(Score(r)) % Weight == 0
    ensures Strength(Score(r)) == Weight * (if BullCount(r) >= BearCount(r) then BullCount(r) - BearCount(r) else BearCount(r) - BullCount(r))
  {
  }

  /** ADX exactly at the threshold, or missing, reads as weak. */
  lemma AdxBoundary()
    ensures AdxText(Some(AdxStrong)) == "Zayıf"
    ensures AdxText(None) == "Zayıf"
  {
  }
}
