/** The whole enrichment query: `CREATE OR REPLACE TABLE ..._clean AS
    SELECT ... FROM ..._raw WHERE amount IS NOT NULL`, one enriched row per
    surviving raw row. */
module Pipeline {
  import opened Rows
  import opened Rules
  import opened Windows

  /** A row of financial_transactions_clean (log_amount and
      velocity_amount_ratio are not part of this model). */
  datatype Enriched = Enriched(
    transactionId: string,
    timestamp: int,
    year: int,
    month: int,
    day: int,
    dayOfWeek: int,
    hour: int,
    dayName: Option<string>,
    isNight: int,
    isWeekend: int,
    isFraudNum: int,
    amount: real,
    transactionType: string,
    merchantCategory: string,
    location: string,
    deviceUsed: string,
    paymentChannel: string,
    timeSinceLastTransaction: Option<real>,
    spendingDeviationScore: Option<real>,
    velocityScore: Option<real>,
    geoAnomalyScore: Option<real>,
    amountBin: string,
    deviceTypeCategory: string,
    merchantCategoryGroup: string,
    riesgoTransaccion: string,
    transactionRiskScore: real,
    hourBin: string,
    weekPart: string,
    isCard: int,
    isAch: int,
    isUpi: int,
    isWireTransfer: int,
    isPos: int,
    isWeb: int,
    isMobile: int,
    quarter: int,
    weekOfMonth: int,
    isEndOfMonth: int,
    riskSignalsCount: int,
    amountZscore: real,
    amountPerTime: Option<real>,
    locationRiskLevel: string,
    channelDeviceRisk: int,
    accountAgeDays: int,
    dailyDeviceVolume: nat,
    senderTxLastHour: nat,
    dailyAmountRank: nat)

  /** The SELECT list evaluated for row i of the filtered table s. Every
      per-row column depends on s[i] alone; the last four are windows over s.
      Rows of one account with equal timestamps are framed in input order. */
  function EnrichAt(s: seq<Txn>, i: nat): (e: Enriched)
    requires i < |s|
    ensures e.transactionId == s[i].attrs.transactionId && e.timestamp == s[i].attrs.ts && e.amount == s[i].amount
    ensures 0 <= e.hour < 24 && 1 <= e.dayOfWeek <= 7 && e.dayName.Some?
    ensures e.accountAgeDays >= 0
    ensures 1 <= e.dailyDeviceVolume <= |s|
    ensures 1 <= e.senderTxLastHour <= FramePreceding + 1
    ensures 1 <= e.dailyAmountRank <= |s|
  {
    var t := s[i];
    var a := t.attrs;
    var hour := Hour(a.ts);
    var dow := DayOfWeek(a.ts);
    Enriched(
      transactionId := a.transactionId,
      timestamp := a.ts,
      year := a.year,
      month := a.month,
      day := a.day,
      dayOfWeek := dow,
      hour := hour,
      dayName := DayName(dow),
      isNight := IsNight(hour),
      isWeekend := IsWeekend(dow),
      isFraudNum := FraudNum(a.isFraud),
      amount := t.amount,
      transactionType := a.transactionType,
      merchantCategory := a.merchantCategory,
      location := Lower(a.location),
      deviceUsed := a.deviceUsed,
      paymentChannel := a.paymentChannel,
      timeSinceLastTransaction := a.timeSinceLastTransaction,
      spendingDeviationScore := a.spendingDeviationScore,
      velocityScore := a.velocityScore,
      geoAnomalyScore := a.geoAnomalyScore,
      amountBin := AmountBin(t.amount),
      deviceTypeCategory := DeviceTypeCategory(a.deviceUsed),
      merchantCategoryGroup := MerchantCategoryGroup(a.merchantCategory),
      riesgoTransaccion := RiesgoTransaccion(t.amount, a.deviceUsed, hour),
      transactionRiskScore := TransactionRiskScore(a.geoAnomalyScore, a.velocityScore, a.spendingDeviationScore),
      hourBin := HourBin(hour),
      weekPart := WeekPart(dow),
      isCard := Flag(a.paymentChannel, "card"),
      isAch := Flag(a.paymentChannel, "ach"),
      isUpi := Flag(a.paymentChannel, "upi"),
      isWireTransfer := Flag(a.paymentChannel, "wire_transfer"),
      isPos := Flag(a.deviceUsed, "pos"),
      isWeb := Flag(a.deviceUsed, "web"),
      isMobile := Flag(a.deviceUsed, "mobile"),
      quarter := a.quarter,
      weekOfMonth := WeekOfMonth(a.day),
      isEndOfMonth := IsEndOfMonth(a.day),
      riskSignalsCount := RiskSignalsCount(t.amount, a.deviceUsed, hour, a.geoAnomalyScore),
      amountZscore := AmountZscore(t.amount),
      amountPerTime := AmountPerTime(t.amount, a.timeSinceLastTransaction),
      locationRiskLevel := LocationRiskLevel(a.location),
      channelDeviceRisk := ChannelDeviceRisk(a.paymentChannel, a.deviceUsed),
      accountAgeDays := AccountAgeDays(s, i),
      dailyDeviceVolume := DailyDeviceVolume(s, i),
      senderTxLastHour := SenderTxLastHour(s, InputOrder(s), i),
      dailyAmountRank := DailyAmountRank(s, i))
  }

  /** The enriched table: exactly one row per raw row with a non-null
      amount, in the order of the raw table. */
  function Transform(raw: seq<Raw>): (out: seq<Enriched>)
    ensures |out| == |Survivors(raw)| == NonNullCount(raw)
    ensures forall k :: 0 <= k < |out| ==> AsRaw(Survivors(raw)[k]) in raw && out[k].amount == Survivors(raw)[k].amount
  {
    var s := Survivors(raw);
    SurvivorsCount(raw);
    assert forall k :: 0 <= k < |s| ==> s[k] in s;
    seq(|s|, k requires 0 <= k < |s| => EnrichAt(s, k))
  }

  /** Every categorical column of every output row takes one of its listed
      values, and every count stays in its range. */
  lemma OutputRanges(raw: seq<Raw>, k: nat)
    requires k < |Transform(raw)|
    ensures var e := Transform(raw)[k];
            && e.amountBin in AmountBins
            && e.hourBin in HourBins
            && e.deviceTypeCategory in {"Mobile", "Web", "Physical"}
            && e.merchantCategoryGroup in {"Digital", "Hibrido", "Tradicional"}
            && e.locationRiskLevel in {"Alta", "Media", "Baja"}
            && e.weekPart in {"Fin de Semana", "Entre Semana"}
            && e.riesgoTransaccion in {"ALTO", "MEDIO", "BAJO"}
            && 0 <= e.riskSignalsCount <= 4
            && 0 <= e.channelDeviceRisk <= 4
            && e.isCard + e.isAch + e.isUpi + e.isWireTransfer <= 1
            && e.isPos + e.isWeb + e.isMobile <= 1
            && e.accountAgeDays >= 0
            && e.dailyDeviceVolume >= 1
            && 1 <= e.senderTxLastHour <= 101
            && e.dailyAmountRank >= 1
  {
    var s := Survivors(raw);
    var e := EnrichAt(s, k);
    PaymentFlagsOneHot(s[k].attrs.paymentChannel);
    DeviceFlagsOneHot(s[k].attrs.deviceUsed);
  }

  /** risk_signals_count exceeds the sum behind riesgo_transaccion by the
      geo signal only: never below it, at most one above it. */
  lemma OutputRiskSignalsAgree(raw: seq<Raw>, k: nat)
    requires k < |Transform(raw)|
    ensures var e := Transform(raw)[k];
            && (e.riesgoTransaccion == "ALTO" ==> e.riskSignalsCount >= 3)
            && (e.riesgoTransaccion == "MEDIO" ==> 2 <= e.riskSignalsCount <= 3)
            && (e.riesgoTransaccion == "BAJO" ==> e.riskSignalsCount <= 2)
            && (e.riskSignalsCount == 4 <==> e.riesgoTransaccion == "ALTO" && e.geoAnomalyScore.Some? && e.geoAnomalyScore.value > GeoThreshold)
  {
  }

  /** The rows on an account's earliest date have account_age_days 0, and
      every account that appears in the output has such a row. */
  lemma OutputAccountAgeZero(raw: seq<Raw>, k: nat)
    requires k < |Transform(raw)|
    ensures exists j :: 0 <= j < |Transform(raw)|
              && Survivors(raw)[j].attrs.senderAccount == Survivors(raw)[k].attrs.senderAccount
              && Transform(raw)[j].accountAgeDays == 0
  {
    var s := Survivors(raw);
    var j := AccountHasAgeZero(s, k);
    assert Transform(raw)[j] == EnrichAt(s, j);
  }

  // -------------------------------------------------------------- scenarios

  function ScenarioAttrs(ts: int, day: int, device: string, channel: string, geo: Option<real>, timeSince: Option<real>): Attrs
  {
    Attrs("t1", ts, 1970, 1, day, 1, "acc1", "payment", "retail", "Tokyo", device, channel,
          timeSince, None, None, geo, Some(false))
  }

  /** A 40.00 mobile UPI payment at 02:00 on a Sunday. */
  lemma ScenarioSundayNightMobile()
    ensures var e := EnrichAt([Txn(40.0, ScenarioAttrs(3 * MicrosPerDay + 2 * MicrosPerHour, 4, "mobile", "upi", None, Some(5.0)))], 0);
            && e.amountBin == "<50" && e.isNight == 1 && e.isWeekend == 1 && e.isMobile == 1 && e.isUpi == 1
            && e.deviceTypeCategory == "Mobile" && e.dayName == Some("Domingo")
            && e.accountAgeDays == 0 && e.dailyDeviceVolume == 1 && e.senderTxLastHour == 1 && e.dailyAmountRank == 1
  {
    var t := Txn(40.0, ScenarioAttrs(3 * MicrosPerDay + 2 * MicrosPerHour, 4, "mobile", "upi", None, Some(5.0)));
    DayOfWeekAnchors();
    assert DayOfWeek(t.attrs.ts) == 1;
    assert DayName(1) == Some("Domingo");
    SenderTxLastHourFirst([t], InputOrder([t]), 0);
    RankOneIffDayMaximum([t], 0);
  }

  /** A 1500.00 web payment at 03:00 on 1970-01-01 with geo score 0.9: all
      four signals. */
  lemma ScenarioAllSignals()
    ensures var e := EnrichAt([Txn(1500.0, ScenarioAttrs(3 * MicrosPerHour, 1, "web", "card", Some(0.9), Some(0.0)))], 0);
            e.riesgoTransaccion == "ALTO" && e.riskSignalsCount == 4 && e.amountPerTime == None
  {
    var ts := 3 * MicrosPerHour;
    assert Date(ts) == 0;
    assert Hour(ts) == 3;
    assert RiesgoTransaccion(1500.0, "web", 3) == "ALTO";
    assert RiskSignalsCount(1500.0, "web", 3, Some(0.9)) == 4;
  }
}
