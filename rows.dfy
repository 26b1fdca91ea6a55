/** Rows of the raw transaction table, the rows that survive the
    `WHERE amount IS NOT NULL` filter, and the UTC calendar values that the
    query derives from a TIMESTAMP (DATE, EXTRACT(HOUR), EXTRACT(DAYOFWEEK)). */
module Rows {

  /** SQL NULL: a nullable column is an Option. */
  datatype Option<+T> = None | Some(value: T)

  const MicrosPerHour: int := 3_600_000_000
  const MicrosPerDay: int := 24 * MicrosPerHour

  /** DAYOFWEEK of 1970-01-01, which was a Thursday (1 = Sunday .. 7 = Saturday). */
  const EpochDayOfWeek: int := 5

  /** Every column of a raw row except `amount`. The four score columns are
      already the result of SAFE_CAST(... AS FLOAT64): None stands for a value
      that was NULL or could not be cast. */
  datatype Attrs = Attrs(
    transactionId: string,
    ts: int,                 // TIMESTAMP(timestamp), microseconds since 1970-01-01 00:00 UTC
    year: int,               // EXTRACT(YEAR ...), taken as given
    month: int,              // EXTRACT(MONTH ...), taken as given
    day: int,                // EXTRACT(DAY ...), day of month, taken as given
    quarter: int,            // EXTRACT(QUARTER ...), taken as given
    senderAccount: string,
    transactionType: string,
    merchantCategory: string,
    location: string,
    deviceUsed: string,
    paymentChannel: string,
    timeSinceLastTransaction: Option<real>,
    spendingDeviationScore: Option<real>,
    velocityScore: Option<real>,
    geoAnomalyScore: Option<real>,
    isFraud: Option<bool>)

  /** A row of financial_transactions_raw. */
  datatype Raw = Raw(amount: Option<real>, attrs: Attrs)

  /** A row that passed `WHERE amount IS NOT NULL`. */
  datatype Txn = Txn(amount: real, attrs: Attrs)

  /** DATE(ts) in UTC, as a day number counted from 1970-01-01. */
  function Date(ts: int): (d: int)
    ensures d * MicrosPerDay <= ts < (d + 1) * MicrosPerDay
  {
    ts / MicrosPerDay
  }

  /** EXTRACT(HOUR FROM ts) in UTC. */
  function Hour(ts: int): (h: int)
    ensures 0 <= h < 24
    ensures Date(ts) * MicrosPerDay + h * MicrosPerHour <= ts < Date(ts) * MicrosPerDay + (h + 1) * MicrosPerHour
  {
    (ts % MicrosPerDay) / MicrosPerHour
  }

  /** EXTRACT(DAYOFWEEK FROM ts) in UTC: 1 = Sunday .. 7 = Saturday. */
  function DayOfWeek(ts: int): (w: int)
    ensures 1 <= w <= 7
  {
    (Date(ts) + EpochDayOfWeek - 1) % 7 + 1
  }

  /** DATE(ts) is the one day number whose day contains ts. */
  lemma DateUnique(ts: int, d: int)
    requires d * MicrosPerDay <= ts < (d + 1) * MicrosPerDay
    ensures Date(ts) == d
  {
  }

  lemma DateMonotone(t1: int, t2: int)
    requires t1 <= t2
    ensures Date(t1) <= Date(t2)
  {
  }

  /** One day later is the next day of the week; Sunday follows Saturday. */
  lemma DayOfWeekNextDay(ts: int)
    ensures Date(ts + MicrosPerDay) == Date(ts) + 1
    ensures DayOfWeek(ts + MicrosPerDay) == DayOfWeek(ts) % 7 + 1
  {
    var d := Date(ts);
    assert (d + 1) * MicrosPerDay == d * MicrosPerDay + MicrosPerDay;
    assert (d + 2) * MicrosPerDay == d * MicrosPerDay + 2 * MicrosPerDay;
    DateUnique(ts + MicrosPerDay, d + 1);
    var m := (d + EpochDayOfWeek - 1) % 7;
    assert (d + 1 + EpochDayOfWeek - 1) % 7 == (m + 1) % 7;
  }

  /** The epoch day is a Thursday and the fourth day after it a Sunday. */
  lemma DayOfWeekAnchors()
    ensures DayOfWeek(0) == 5
    ensures DayOfWeek(3 * MicrosPerDay) == 1
    ensures Hour(3 * MicrosPerDay + 2 * MicrosPerHour) == 2
  {
  }

  function AsTxn(r: Raw): Txn
    requires r.amount.Some?
  {
    Txn(r.amount.value, r.attrs)
  }

  function AsRaw(t: Txn): Raw
  {
    Raw(Some(t.amount), t.attrs)
  }

  /** `FROM financial_transactions_raw WHERE amount IS NOT NULL`: the rows
      kept, in input order, exactly those with a non-null amount. */
  function Survivors(raw: seq<Raw>): (s: seq<Txn>)
    ensures |s| <= |raw|
    ensures forall r :: r in raw && r.amount.Some? ==> AsTxn(r) in s
    ensures forall t :: t in s ==> AsRaw(t) in raw
  {
    if raw == [] then []
    else
      var init := Survivors(raw[..|raw| - 1]);
      var last := raw[|raw| - 1];
      assert raw == raw[..|raw| - 1] + [last];
      if last.amount.Some? then init + [AsTxn(last)] else init
  }

  /** Filtering a sequence extended by one row extends the result by that
      row exactly when its amount is not NULL. */
  lemma SurvivorsSnoc(init: seq<Raw>, last: Raw)
    ensures Survivors(init + [last]) == if last.amount.Some? then Survivors(init) + [AsTxn(last)] else Survivors(init)
  {
    assert (init + [last])[..|init|] == init;
  }

  /** The number of raw rows whose amount is not NULL. */
  function NonNullCount(raw: seq<Raw>): (n: nat)
    ensures n <= |raw|
  {
    if raw == [] then 0
    else (if raw[0].amount.Some? then 1 else 0) + NonNullCount(raw[1..])
  }

  /** The filter emits one row per raw row with a non-null amount. */
  lemma {:induction false} SurvivorsCount(raw: seq<Raw>)
    ensures |Survivors(raw)| == NonNullCount(raw)
  {
    if raw != [] {
      SurvivorsCount(raw[1..]);
      SurvivorsAppend([raw[0]], raw[1..]);
      assert raw == [raw[0]] + raw[1..];
      assert Survivors([raw[0]]) == if raw[0].amount.Some? then [AsTxn(raw[0])] else [];
    }
  }

  /** Each surviving row occurs exactly as often as the raw row it comes
      from: nothing is duplicated, and a row with a NULL amount never occurs. */
  lemma {:induction false} SurvivorsMultiset(raw: seq<Raw>)
    ensures forall t :: multiset(Survivors(raw))[t] == multiset(raw)[AsRaw(t)]
  {
    if raw != [] {
      var init := raw[..|raw| - 1];
      var last := raw[|raw| - 1];
      SurvivorsMultiset(init);
      assert raw == init + [last];
      SurvivorsSnoc(init, last);
      assert multiset(raw) == multiset(init) + multiset{last};
      forall t
        ensures multiset(Survivors(raw))[t] == multiset(raw)[AsRaw(t)]
      {
        if last.amount.Some? {
          assert multiset(Survivors(raw)) == multiset(Survivors(init)) + multiset{AsTxn(last)};
          assert t == AsTxn(last) <==> AsRaw(t) == last;
        } else {
          assert AsRaw(t) != last;
        }
      }
    }
  }

  /** The filter keeps input order: filtering a concatenation concatenates
      the filtered parts. */
  lemma {:induction false} SurvivorsAppend(a: seq<Raw>, b: seq<Raw>)
    ensures Survivors(a + b) == Survivors(a) + Survivors(b)
    decreases |b|
  {
    if b == [] {
      assert a + b == a;
    } else {
      var init := b[..|b| - 1];
      assert b == init + [b[|b| - 1]];
      SurvivorsAppend(a, init);
      SurvivorsAppendStep(a, init, b[|b| - 1]);
    }
  }

  lemma SurvivorsAppendStep(a: seq<Raw>, init: seq<Raw>, last: Raw)
    requires Survivors(a + init) == Survivors(a) + Survivors(init)
    ensures Survivors(a + (init + [last])) == Survivors(a) + Survivors(init + [last])
  {
    assert a + (init + [last]) == (a + init) + [last];
    SurvivorsSnoc(a + init, last);
    SurvivorsSnoc(init, last);
    if last.amount.Some? {
      AppendAssoc(Survivors(a), Survivors(init), [AsTxn(last)]);
    }
  }

  lemma AppendAssoc(x: seq<Txn>, y: seq<Txn>, z: seq<Txn>)
    ensures x + (y + z) == (x + y) + z
  {
  }

}
