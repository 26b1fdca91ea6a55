/** The per-row CASE tables, 0/1 indicators and scores of the enrichment
    query: each depends on the columns of one row only. */
module Rules {
  import opened Rows

  /** Amount above which a transaction is a risk signal (`amount > 538.40`). */
  const AmountThreshold: real := 538.40
  /** Geo-anomaly score above which a transaction is a risk signal. */
  const GeoThreshold: real := 0.7
  /** Fixed centre and scale of amount_zscore. */
  const ZscoreCentre: real := 500.0
  const ZscoreScale: real := 600.0

  /** `CASE WHEN c THEN 1 ELSE 0 END` */
  function Indicator(c: bool): (r: int)
    ensures r == 0 || r == 1
    ensures r == 1 <==> c
  {
    if c then 1 else 0
  }

  // ---------------------------------------------------------------- calendar

  /** The names of the days of the week, Sunday first. */
  const DayNames: seq<string> := ["Domingo", "Lunes", "Martes", "Miércoles", "Jueves", "Viernes", "Sábado"]

  /** day_name: the CASE has no ELSE, so a day of week outside 1..7 is NULL. */
  function DayName(dow: int): (r: Option<string>)
    ensures r.Some? <==> 1 <= dow <= 7
    ensures 1 <= dow <= 7 ==> r == Some(DayNames[dow - 1])
  {
    if dow == 1 then Some("Domingo")
    else if dow == 2 then Some("Lunes")
    else if dow == 3 then Some("Martes")
    else if dow == 4 then Some("Miércoles")
    else if dow == 5 then Some("Jueves")
    else if dow == 6 then Some("Viernes")
    else if dow == 7 then Some("Sábado")
    else None
  }

  /** Distinct days of the week get distinct names. */
  lemma DayNameInjective(a: int, b: int)
    requires 1 <= a <= 7 && 1 <= b <= 7
    requires DayName(a) == DayName(b)
    ensures a == b
  {
  }

  /** is_night: hour BETWEEN 0 AND 6 (both ends included). */
  function IsNight(hour: int): (r: int)
    ensures r == 0 || r == 1
    ensures r == 1 <==> 0 <= hour <= 6
  {
    Indicator(0 <= hour <= 6)
  }

  /** is_weekend: day of week IN (1, 7), Sunday or Saturday. */
  function IsWeekend(dow: int): (r: int)
    ensures r == 0 || r == 1
    ensures r == 1 <==> dow == 1 || dow == 7
  {
    Indicator(dow == 1 || dow == 7)
  }

  /** is_fraud_num: `CASE WHEN is_fraud THEN 1 ELSE 0 END`; a NULL label gives 0. */
  function FraudNum(isFraud: Option<bool>): (r: int)
    ensures r == 0 || r == 1
    ensures r == 1 <==> isFraud == Some(true)
  {
    match isFraud
    case Some(b) => Indicator(b)
    case None => 0
  }

  const HourBins: set<string> := {"Madrugada", "Mañana", "Mediodía", "Tarde", "Noche", "Medianoche"}

  /** hour_bin: six bands; everything that is not in 0..21 falls to the ELSE. */
  function HourBin(hour: int): (r: string)
    ensures r in HourBins
    ensures r == "Madrugada" <==> 0 <= hour <= 5
    ensures r == "Mañana" <==> 6 <= hour <= 11
    ensures r == "Mediodía" <==> 12 <= hour <= 14
    ensures r == "Tarde" <==> 15 <= hour <= 18
    ensures r == "Noche" <==> 19 <= hour <= 21
    ensures r == "Medianoche" <==> !(0 <= hour <= 21)
  {
    if 0 <= hour <= 5 then "Madrugada"
    else if 6 <= hour <= 11 then "Mañana"
    else if 12 <= hour <= 14 then "Mediodía"
    else if 15 <= hour <= 18 then "Tarde"
    else if 19 <= hour <= 21 then "Noche"
    else "Medianoche"
  }

  /** is_night and hour_bin disagree exactly at hour 6: it is night, yet in
      the "Mañana" band (the two rules use different bounds). */
  lemma NightVersusHourBin(hour: int)
    ensures IsNight(hour) == 1 <==> HourBin(hour) == "Madrugada" || hour == 6
    ensures IsNight(6) == 1 && HourBin(6) == "Mañana"
  {
  }

  /** week_part: "Fin de Semana" exactly for the days that is_weekend flags. */
  function WeekPart(dow: int): (r: string)
    ensures r == "Fin de Semana" || r == "Entre Semana"
    ensures r == "Fin de Semana" <==> IsWeekend(dow) == 1
  {
    if dow == 1 || dow == 7 then "Fin de Semana" else "Entre Semana"
  }

  /** week_of_month: CEIL(day / 7). */
  function WeekOfMonth(day: int): (r: int)
    ensures 7 * (r - 1) < day <= 7 * r
    ensures 1 <= day <= 31 ==> 1 <= r <= 5
  {
    (day + 6) / 7
  }

  /** is_end_of_month: day >= 28. */
  function IsEndOfMonth(day: int): (r: int)
    ensures r == 0 || r == 1
    ensures r == 1 <==> day >= 28
  {
    Indicator(day >= 28)
  }

  // ------------------------------------------------------- categorical bins

  const AmountBins: set<string> := {"<50", "50-200", "200-1000", ">1000"}

  /** amount_bin: four bands, each closed below and open above; the last one
      is labelled ">1000" but starts at exactly 1000. */
  function AmountBin(amount: real): (r: string)
    ensures r in AmountBins
    ensures r == "<50" <==> amount < 50.0
    ensures r == "50-200" <==> 50.0 <= amount < 200.0
    ensures r == "200-1000" <==> 200.0 <= amount < 1000.0
    ensures r == ">1000" <==> 1000.0 <= amount
  {
    if amount < 50.0 then "<50"
    else if amount < 200.0 then "50-200"
    else if amount < 1000.0 then "200-1000"
    else ">1000"
  }

  /** Larger amounts never fall in a lower band. */
  lemma AmountBinMonotone(a: real, b: real)
    requires a <= b
    ensures BandIndex(AmountBin(a)) <= BandIndex(AmountBin(b))
  {
  }

  function BandIndex(bin: string): int
  {
    if bin == "<50" then 0 else if bin == "50-200" then 1 else if bin == "200-1000" then 2 else 3
  }

  /** device_type_category */
  function DeviceTypeCategory(device: string): (r: string)
    ensures r == "Mobile" || r == "Web" || r == "Physical"
    ensures r == "Mobile" <==> device == "mobile"
    ensures r == "Web" <==> device == "web"
    ensures r == "Physical" <==> device != "mobile" && device != "web"
  {
    if device == "mobile" then "Mobile"
    else if device == "web" then "Web"
    else "Physical"
  }

  /** merchant_category_group */
  function MerchantCategoryGroup(category: string): (r: string)
    ensures r == "Digital" || r == "Hibrido" || r == "Tradicional"
    ensures r == "Digital" <==> category in {"online", "travel"}
    ensures r == "Hibrido" <==> category in {"entertainment", "retail"}
    ensures r == "Tradicional" <==> category !in {"online", "travel", "entertainment", "retail"}
  {
    if category in {"online", "travel"} then "Digital"
    else if category in {"entertainment", "retail"} then "Hibrido"
    else "Tradicional"
  }

  /** LOWER on one character: A-Z become a-z, all other characters are kept. */
  function LowerChar(c: char): (r: char)
    ensures 'A' <= c <= 'Z' ==> r as int == c as int + 32
    ensures !('A' <= c <= 'Z') ==> r == c
  {
    if 'A' <= c <= 'Z' then (c as int + 32) as char else c
  }

  /** LOWER(location), on ASCII letters. */
  function Lower(s: string): (r: string)
    ensures |r| == |s|
    ensures forall k :: 0 <= k < |s| ==> r[k] == LowerChar(s[k])
  {
    seq(|s|, k requires 0 <= k < |s| => LowerChar(s[k]))
  }

  lemma LowerIdempotent(s: string)
    ensures Lower(Lower(s)) == Lower(s)
  {
    var l := Lower(s);
    assert forall k :: 0 <= k < |l| ==> LowerChar(l[k]) == l[k];
  }

  const HighRiskCities: set<string> := {"new york", "singapore", "tokyo"}
  const MediumRiskCities: set<string> := {"dubai", "berlin", "toronto"}

  /** location_risk_level: the lower-cased location looked up in two lists. */
  function LocationRiskLevel(location: string): (r: string)
    ensures r == "Alta" || r == "Media" || r == "Baja"
    ensures r == "Alta" <==> Lower(location) in HighRiskCities
    ensures r == "Media" <==> Lower(location) in MediumRiskCities
    ensures r == "Baja" <==> Lower(location) !in HighRiskCities + MediumRiskCities
  {
    if Lower(location) in HighRiskCities then "Alta"
    else if Lower(location) in MediumRiskCities then "Media"
    else "Baja"
  }

  /** The lookup ignores letter case: a location and its lower-case form
      get the same level. */
  lemma LocationRiskCaseInsensitive(location: string)
    ensures LocationRiskLevel(Lower(location)) == LocationRiskLevel(location)
  {
    LowerIdempotent(location);
  }

  lemma LocationRiskExample()
    ensures LocationRiskLevel("New York") == "Alta"
    ensures LocationRiskLevel("BERLIN") == "Media"
  {
    assert Lower("New York") == "new york";
    assert Lower("BERLIN") == "berlin";
  }

  // ------------------------------------------------------------ indicators

  /** `CASE WHEN column = 'value' THEN 1 ELSE 0 END`: is_card, is_ach, is_upi
      and is_wire_transfer on payment_channel; is_pos, is_web and is_mobile on
      device_used. */
  function Flag(column: string, value: string): (r: int)
    ensures r == 0 || r == 1
    ensures r == 1 <==> column == value
  {
    Indicator(column == value)
  }

  /** The four payment flags are one-hot: at most one is set, and one is set
      exactly when the channel is one of the four named channels. */
  lemma PaymentFlagsOneHot(channel: string)
    ensures var sum := Flag(channel, "card") + Flag(channel, "ach")
                     + Flag(channel, "upi") + Flag(channel, "wire_transfer");
            sum <= 1 && (sum == 1 <==> channel in {"card", "ach", "upi", "wire_transfer"})
  {
  }

  /** The three device flags are one-hot over {pos, web, mobile}, and
      is_web / is_mobile agree with device_type_category. */
  lemma DeviceFlagsOneHot(device: string)
    ensures var sum := Flag(device, "pos") + Flag(device, "web") + Flag(device, "mobile");
            sum <= 1 && (sum == 1 <==> device in {"pos", "web", "mobile"})
    ensures Flag(device, "web") == 1 <==> DeviceTypeCategory(device) == "Web"
    ensures Flag(device, "mobile") == 1 <==> DeviceTypeCategory(device) == "Mobile"
  {
  }

  // ----------------------------------------------------------------- scores

  /** The first three risk signals, shared by riesgo_transaccion and
      risk_signals_count: a large amount, the web device, a night hour. */
  function CoreSignalSum(amount: real, device: string, hour: int): (r: int)
    ensures 0 <= r <= 3
    ensures r == 3 <==> amount > AmountThreshold && device == "web" && 0 <= hour <= 6
    ensures r == 0 <==> amount <= AmountThreshold && device != "web" && !(0 <= hour <= 6)
  {
    Indicator(amount > AmountThreshold) + Indicator(device == "web") + IsNight(hour)
  }

  /** riesgo_transaccion: ALTO when the three-signal sum is at least 3, MEDIO
      when it is 2, BAJO otherwise. */
  function RiesgoTransaccion(amount: real, device: string, hour: int): (r: string)
    ensures r == "ALTO" || r == "MEDIO" || r == "BAJO"
    ensures r == "ALTO" <==> amount > AmountThreshold && device == "web" && 0 <= hour <= 6
    ensures r == "MEDIO" <==> (
              || (amount > AmountThreshold && device == "web" && !(0 <= hour <= 6))
              || (amount > AmountThreshold && device != "web" && 0 <= hour <= 6)
              || (amount <= AmountThreshold && device == "web" && 0 <= hour <= 6))
    ensures r == "BAJO" <==> CoreSignalSum(amount, device, hour) <= 1
  {
    var sum := CoreSignalSum(amount, device, hour);
    if sum >= 3 then "ALTO" else if sum == 2 then "MEDIO" else "BAJO"
  }

  /** `CASE WHEN geo_anomaly_score > 0.7 THEN 1 ELSE 0 END`: a NULL score
      makes the comparison NULL, which takes the ELSE branch. */
  function GeoSignal(geo: Option<real>): (r: int)
    ensures r == 0 || r == 1
    ensures r == 1 <==> geo.Some? && geo.value > GeoThreshold
  {
    match geo
    case Some(g) => Indicator(g > GeoThreshold)
    case None => 0
  }

  /** risk_signals_count: the four signals summed; it is the three-signal sum
      behind riesgo_transaccion plus the geo signal. */
  function RiskSignalsCount(amount: real, device: string, hour: int, geo: Option<real>): (r: int)
    ensures 0 <= r <= 4
    ensures CoreSignalSum(amount, device, hour) <= r <= CoreSignalSum(amount, device, hour) + 1
    ensures r == CoreSignalSum(amount, device, hour) + 1 <==> geo.Some? && geo.value > GeoThreshold
    ensures geo.None? ==> r == CoreSignalSum(amount, device, hour)
    ensures r == 4 <==> RiesgoTransaccion(amount, device, hour) == "ALTO" && GeoSignal(geo) == 1
  {
    Indicator(amount > AmountThreshold) + Indicator(device == "web") + IsNight(hour) + GeoSignal(geo)
  }

  /** COALESCE(x, 0) */
  function Coalesce(x: Option<real>): (r: real)
    ensures x.Some? ==> r == x.value
    ensures x.None? ==> r == 0.0
  {
    match x
    case Some(v) => v
    case None => 0.0
  }

  /** transaction_risk_score: the three scores summed with NULL read as 0. */
  function TransactionRiskScore(geo: Option<real>, velocity: Option<real>, deviation: Option<real>): (r: real)
    ensures geo.None? && velocity.None? && deviation.None? ==> r == 0.0
    ensures geo.Some? && velocity.Some? && deviation.Some? ==> r == geo.value + velocity.value + deviation.value
    ensures Coalesce(geo) >= 0.0 && Coalesce(velocity) >= 0.0 && Coalesce(deviation) >= 0.0 ==> r >= 0.0
  {
    Coalesce(geo) + Coalesce(velocity) + Coalesce(deviation)
  }

  /** A NULL score adds nothing, a present score adds its value: the sum is
      never NULL and each score enters it on its own. */
  lemma TransactionRiskScoreAdditive(geo: Option<real>, velocity: Option<real>, deviation: Option<real>)
    ensures TransactionRiskScore(None, None, None) == 0.0
    ensures TransactionRiskScore(geo, velocity, deviation)
         == TransactionRiskScore(geo, None, None) + TransactionRiskScore(None, velocity, None)
          + TransactionRiskScore(None, None, deviation)
    ensures geo.Some? ==> TransactionRiskScore(geo, velocity, deviation)
                          == TransactionRiskScore(None, velocity, deviation) + geo.value
    ensures velocity.Some? ==> TransactionRiskScore(geo, velocity, deviation)
                               == TransactionRiskScore(geo, None, deviation) + velocity.value
    ensures deviation.Some? ==> TransactionRiskScore(geo, velocity, deviation)
                                == TransactionRiskScore(geo, velocity, None) + deviation.value
  {
  }

  /** amount_zscore: (amount - 500) / 600, a fixed standardisation; it is
      inverted by amount = 500 + 600 * z and preserves order. */
  function AmountZscore(amount: real): (z: real)
    ensures ZscoreCentre + ZscoreScale * z == amount
    ensures amount == ZscoreCentre <==> z == 0.0
  {
    (amount - ZscoreCentre) / ZscoreScale
  }

  lemma AmountZscoreMonotone(a: real, b: real)
    requires a < b
    ensures AmountZscore(a) < AmountZscore(b)
  {
  }

  /** SAFE_DIVIDE(x, y): NULL when either operand is NULL or y is 0,
      otherwise the quotient. */
  function SafeDivide(x: Option<real>, y: Option<real>): (r: Option<real>)
    ensures r.None? <==> x.None? || y.None? || y.value == 0.0
    ensures r.Some? ==> r.value * y.value == x.value
  {
    if x.None? || y.None? || y.value == 0.0 then None else Some(x.value / y.value)
  }

  /** amount_per_time: SAFE_DIVIDE(amount, time_since_last_transaction); the
      amount of a surviving row is never NULL, so only the denominator decides. */
  function AmountPerTime(amount: real, timeSince: Option<real>): (r: Option<real>)
    ensures r.None? <==> timeSince == None || timeSince == Some(0.0)
    ensures r.Some? ==> r.value * timeSince.value == amount
  {
    SafeDivide(Some(amount), timeSince)
  }

  /** Payment part of channel_device_risk: wire_transfer 2, upi 1, else 0. */
  function ChannelWeight(channel: string): (r: int)
    ensures r == 2 * Flag(channel, "wire_transfer") + Flag(channel, "upi")
  {
    if channel == "wire_transfer" then 2 else if channel == "upi" then 1 else 0
  }

  /** Device part of channel_device_risk: web 2, mobile 1, else 0. */
  function DeviceWeight(device: string): (r: int)
    ensures r == 2 * Flag(device, "web") + Flag(device, "mobile")
  {
    if device == "web" then 2 else if device == "mobile" then 1 else 0
  }

  /** channel_device_risk: the payment weight plus the device weight. */
  function ChannelDeviceRisk(channel: string, device: string): (r: int)
    ensures 0 <= r <= 4
    ensures r == 4 <==> channel == "wire_transfer" && device == "web"
    ensures r == 0 <==> channel !in {"wire_transfer", "upi"} && device !in {"web", "mobile"}
    ensures r == 2 * Flag(channel, "wire_transfer") + Flag(channel, "upi")
               + 2 * Flag(device, "web") + Flag(device, "mobile")
  {
    ChannelWeight(channel) + DeviceWeight(device)
  }
}
