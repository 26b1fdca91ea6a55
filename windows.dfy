/** The four window aggregates of the enrichment query. Each is a function
    of the whole sequence `s` of surviving rows and the index `i` of the row
    it is computed for, so partition, order and frame are explicit. */
module Windows {
  import opened Rows

  /** DATE(TIMESTAMP(timestamp)) of a row. */
  function Day(t: Txn): int
  {
    Date(t.attrs.ts)
  }

  // ----------------------------------------------------------- set helpers

  lemma SubsetCard(a: set<nat>, b: set<nat>)
    requires a <= b
    ensures |a| <= |b|
  {
    assert b == a + (b - a);
  }

  lemma StrictSubsetCard(a: set<nat>, b: set<nat>, x: nat)
    requires a <= b && x in b && x !in a
    ensures |a| < |b|
  {
    assert b == a + (b - a);
    assert x in b - a;
  }

  lemma SubsetEqualCard(a: set<nat>, b: set<nat>)
    requires a <= b && |a| == |b|
    ensures a == b
  {
    if a != b {
      var x :| x in b && x !in a;
      StrictSubsetCard(a, b, x);
    }
  }

  /** The positions lo .. hi-1. */
  function Range(lo: nat, hi: nat): (r: set<nat>)
    ensures forall p :: p in r <==> lo <= p < hi
    decreases hi
  {
    if hi <= lo then {} else Range(lo, hi - 1) + {hi - 1}
  }

  lemma {:induction false} RangeCard(lo: nat, hi: nat)
    requires lo <= hi
    ensures |Range(lo, hi)| == hi - lo
    decreases hi
  {
    if lo < hi {
      RangeCard(lo, hi - 1);
    }
  }

  // ------------------------------------------------------- account_age_days

  /** MIN(TIMESTAMP(timestamp)) OVER (PARTITION BY sender_account): the
      earliest timestamp among the rows of `account`; None when it has none. */
  function MinTs(s: seq<Txn>, account: string): (m: Option<int>)
    ensures m.None? <==> forall j :: 0 <= j < |s| ==> s[j].attrs.senderAccount != account
    ensures m.Some? ==> exists j :: 0 <= j < |s| && s[j].attrs.senderAccount == account && s[j].attrs.ts == m.value
    ensures m.Some? ==> forall j :: 0 <= j < |s| && s[j].attrs.senderAccount == account ==> m.value <= s[j].attrs.ts
  {
    if s == [] then None
    else
      var init := s[..|s| - 1];
      var last := s[|s| - 1];
      var rest := MinTs(init, account);
      assert forall j :: 0 <= j < |init| ==> init[j] == s[j];
      if last.attrs.senderAccount != account then rest
      else if rest.Some? && rest.value <= last.attrs.ts then rest
      else Some(last.attrs.ts)
  }

  /** account_age_days: DATE_DIFF(DATE(ts), DATE(MIN(ts) OVER account), DAY).
      It is never negative. */
  function AccountAgeDays(s: seq<Txn>, i: nat): (age: int)
    requires i < |s|
    ensures age >= 0
  {
    var m := MinTs(s, s[i].attrs.senderAccount);
    assert m.Some?;
    DateMonotone(m.value, s[i].attrs.ts);
    Day(s[i]) - Date(m.value)
  }

  /** DATE of the earliest timestamp is the earliest DATE of the account. */
  lemma MinTsDateIsMinDay(s: seq<Txn>, i: nat)
    requires i < |s|
    ensures var m := MinTs(s, s[i].attrs.senderAccount);
            m.Some?
            && (exists j :: 0 <= j < |s| && s[j].attrs.senderAccount == s[i].attrs.senderAccount && Day(s[j]) == Date(m.value))
            && (forall j :: 0 <= j < |s| && s[j].attrs.senderAccount == s[i].attrs.senderAccount ==> Date(m.value) <= Day(s[j]))
  {
    var acct := s[i].attrs.senderAccount;
    var m := MinTs(s, acct);
    forall j | 0 <= j < |s| && s[j].attrs.senderAccount == acct
      ensures Date(m.value) <= Day(s[j])
    {
      DateMonotone(m.value, s[j].attrs.ts);
    }
  }

  /** account_age_days is 0 exactly for the rows on the account's earliest date. */
  lemma AccountAgeZeroIffEarliestDay(s: seq<Txn>, i: nat)
    requires i < |s|
    ensures AccountAgeDays(s, i) == 0 <==>
            forall j :: 0 <= j < |s| && s[j].attrs.senderAccount == s[i].attrs.senderAccount ==> Day(s[i]) <= Day(s[j])
  {
    MinTsDateIsMinDay(s, i);
  }

  /** Within one account, a later timestamp never has a smaller age. */
  lemma AccountAgeMonotone(s: seq<Txn>, i: nat, j: nat)
    requires i < |s| && j < |s|
    requires s[i].attrs.senderAccount == s[j].attrs.senderAccount
    requires s[i].attrs.ts <= s[j].attrs.ts
    ensures AccountAgeDays(s, i) <= AccountAgeDays(s, j)
  {
    DateMonotone(s[i].attrs.ts, s[j].attrs.ts);
  }

  /** Every account has rows of age 0: its earliest transaction has age 0. */
  lemma AccountAgeZeroForEarliest(s: seq<Txn>, i: nat)
    requires i < |s|
    requires forall j :: 0 <= j < |s| && s[j].attrs.senderAccount == s[i].attrs.senderAccount ==> s[i].attrs.ts <= s[j].attrs.ts
    ensures AccountAgeDays(s, i) == 0
  {
    forall j | 0 <= j < |s| && s[j].attrs.senderAccount == s[i].attrs.senderAccount
      ensures Day(s[i]) <= Day(s[j])
    {
      DateMonotone(s[i].attrs.ts, s[j].attrs.ts);
    }
    AccountAgeZeroIffEarliestDay(s, i);
  }

  /** Every account that has rows has a row of age 0. */
  lemma AccountHasAgeZero(s: seq<Txn>, k: nat) returns (j: nat)
    requires k < |s|
    ensures j < |s| && s[j].attrs.senderAccount == s[k].attrs.senderAccount
    ensures AccountAgeDays(s, j) == 0
  {
    var acct := s[k].attrs.senderAccount;
    var m := MinTs(s, acct);
    j :| 0 <= j < |s| && s[j].attrs.senderAccount == acct && s[j].attrs.ts == m.value;
    AccountAgeZeroForEarliest(s, j);
  }

  // ---------------------------------------------------- daily_device_volume

  predicate InDeviceDay(t: Txn, device: string, day: int)
  {
    t.attrs.deviceUsed == device && Day(t) == day
  }

  /** COUNT(*) OVER (PARTITION BY device_used, DATE(ts)) for the partition
      with key (device, day). */
  function DeviceDayCount(s: seq<Txn>, device: string, day: int): (n: nat)
    ensures n <= |s|
  {
    if s == [] then 0
    else DeviceDayCount(s[..|s| - 1], device, day) + (if InDeviceDay(s[|s| - 1], device, day) then 1 else 0)
  }

  /** The indices of the partition with key (device, day). */
  function DeviceDayCohort(s: seq<Txn>, device: string, day: int): set<nat>
  {
    set j: nat | j < |s| && InDeviceDay(s[j], device, day)
  }

  /** The count is the size of the cohort it is broadcast to. */
  lemma {:induction false} DeviceDayCountIsCohortSize(s: seq<Txn>, device: string, day: int)
    ensures DeviceDayCount(s, device, day) == |DeviceDayCohort(s, device, day)|
  {
    if s == [] {
      assert DeviceDayCohort(s, device, day) == {};
    } else {
      var init := s[..|s| - 1];
      DeviceDayCountIsCohortSize(init, device, day);
      assert forall j :: 0 <= j < |init| ==> init[j] == s[j];
      if InDeviceDay(s[|s| - 1], device, day) {
        assert DeviceDayCohort(s, device, day) == DeviceDayCohort(init, device, day) + {|s| - 1};
      } else {
        assert DeviceDayCohort(s, device, day) == DeviceDayCohort(init, device, day);
      }
    }
  }

  /** daily_device_volume: at least 1 (the row itself) and at most the table. */
  function DailyDeviceVolume(s: seq<Txn>, i: nat): (n: nat)
    requires i < |s|
    ensures 1 <= n <= |s|
    ensures n == |DeviceDayCohort(s, s[i].attrs.deviceUsed, Day(s[i]))|
  {
    var device, day := s[i].attrs.deviceUsed, Day(s[i]);
    DeviceDayCountIsCohortSize(s, device, day);
    assert i in DeviceDayCohort(s, device, day);
    DeviceDayCount(s, device, day)
  }

  /** Every member of a (device, day) cohort gets the same volume. */
  lemma DailyDeviceVolumeShared(s: seq<Txn>, i: nat, j: nat)
    requires i < |s| && j < |s|
    requires InDeviceDay(s[j], s[i].attrs.deviceUsed, Day(s[i]))
    ensures DailyDeviceVolume(s, i) == DailyDeviceVolume(s, j)
    ensures j in DeviceDayCohort(s, s[i].attrs.deviceUsed, Day(s[i]))
  {
  }

  /** The number of raw rows with key (device, day) that have a non-null
      amount, counted on the raw table. */
  function RawDeviceDayCount(raw: seq<Raw>, device: string, day: int): nat
  {
    if raw == [] then 0
    else
      var last := raw[|raw| - 1];
      RawDeviceDayCount(raw[..|raw| - 1], device, day)
      + (if last.amount.Some? && last.attrs.deviceUsed == device && Date(last.attrs.ts) == day then 1 else 0)
  }

  /** The volume counts only rows that survive `amount IS NOT NULL`: the
      window runs after the filter. */
  lemma {:induction false} VolumeCountsSurvivors(raw: seq<Raw>, device: string, day: int)
    ensures DeviceDayCount(Survivors(raw), device, day) == RawDeviceDayCount(raw, device, day)
  {
    if raw != [] {
      var init := raw[..|raw| - 1];
      var last := raw[|raw| - 1];
      VolumeCountsSurvivors(init, device, day);
      assert raw == init + [last];
      SurvivorsSnoc(init, last);
      if last.amount.Some? {
        var s := Survivors(init) + [AsTxn(last)];
        assert s[..|s| - 1] == Survivors(init);
      }
    }
  }

  // ---------------------------------------------------- sender_tx_last_hour

  /** The frame's size before the current row: ROWS BETWEEN 100 PRECEDING. */
  const FramePreceding: nat := 100

  /** ORDER BY timestamp leaves the order of rows with equal timestamps to the
      engine. The engine's choice is a tie rank per row: distinct ranks, one
      per row of `s`. Any strict total order on the rows can be given so. */
  predicate TieOrder(s: seq<Txn>, tie: seq<int>)
  {
    |tie| == |s| && forall a, b :: 0 <= a < |tie| && 0 <= b < |tie| && a != b ==> tie[a] != tie[b]
  }

  /** The tie order that takes rows with equal timestamps in input order. */
  function InputOrder(s: seq<Txn>): (tie: seq<int>)
    ensures TieOrder(s, tie)
    ensures forall j :: 0 <= j < |s| ==> tie[j] == j
  {
    seq(|s|, j => j)
  }

  /** The order of the account partition: ORDER BY timestamp, ties broken by
      the engine's tie order. It only relates rows of one account and never
      puts a later timestamp first. */
  function Before(s: seq<Txn>, tie: seq<int>, j: nat, i: nat): (b: bool)
    requires TieOrder(s, tie) && j < |s| && i < |s|
    ensures b ==> j != i && s[j].attrs.senderAccount == s[i].attrs.senderAccount && s[j].attrs.ts <= s[i].attrs.ts
  {
    && s[j].attrs.senderAccount == s[i].attrs.senderAccount
    && (s[j].attrs.ts < s[i].attrs.ts || (s[j].attrs.ts == s[i].attrs.ts && tie[j] < tie[i]))
  }

  /** The rows that come before row i in its account partition. */
  function Predecessors(s: seq<Txn>, tie: seq<int>, i: nat): set<nat>
    requires TieOrder(s, tie) && i < |s|
  {
    set j: nat | j < |s| && Before(s, tie, j, i)
  }

  /** 0-based position of row i in its ordered account partition: less than
      the number of rows of the table. */
  function Position(s: seq<Txn>, tie: seq<int>, i: nat): (p: nat)
    requires TieOrder(s, tie) && i < |s|
    ensures p < |s|
  {
    var pre := Predecessors(s, tie, i);
    StrictSubsetCard(pre, Range(0, |s|), i);
    RangeCard(0, |s|);
    |pre|
  }

  /** The frame ROWS BETWEEN 100 PRECEDING AND CURRENT ROW of row i: the row
      itself and the rows of its partition at most 100 positions before it. */
  function Frame(s: seq<Txn>, tie: seq<int>, i: nat): (f: set<nat>)
    requires TieOrder(s, tie) && i < |s|
    ensures i in f
    ensures forall j :: j in f ==> j < |s| && s[j].attrs.senderAccount == s[i].attrs.senderAccount
  {
    set j: nat | j < |s| && (j == i || Before(s, tie, j, i)) && Position(s, tie, i) - Position(s, tie, j) <= FramePreceding
  }

  lemma BeforeTransitive(s: seq<Txn>, tie: seq<int>, a: nat, b: nat, c: nat)
    requires TieOrder(s, tie) && a < |s| && b < |s| && c < |s|
    requires Before(s, tie, a, b) && Before(s, tie, b, c)
    ensures Before(s, tie, a, c)
  {
  }

  /** A row preceding another has a strictly smaller position. */
  lemma PositionStrict(s: seq<Txn>, tie: seq<int>, j: nat, i: nat)
    requires TieOrder(s, tie) && j < |s| && i < |s| && Before(s, tie, j, i)
    ensures Position(s, tie, j) < Position(s, tie, i)
    ensures Predecessors(s, tie, j) <= Predecessors(s, tie, i)
  {
    forall k | k in Predecessors(s, tie, j)
      ensures k in Predecessors(s, tie, i)
    {
      BeforeTransitive(s, tie, k, j, i);
    }
    StrictSubsetCard(Predecessors(s, tie, j), Predecessors(s, tie, i), j);
  }

  /** Distinct rows of one account hold distinct positions. */
  lemma PositionInjective(s: seq<Txn>, tie: seq<int>, i: nat, j: nat)
    requires TieOrder(s, tie) && i < |s| && j < |s| && i != j
    requires s[i].attrs.senderAccount == s[j].attrs.senderAccount
    ensures Position(s, tie, i) != Position(s, tie, j)
  {
    assert tie[i] != tie[j];
    if Before(s, tie, i, j) {
      PositionStrict(s, tie, i, j);
    } else {
      PositionStrict(s, tie, j, i);
    }
  }

  function Positions(s: seq<Txn>, tie: seq<int>, a: set<nat>): set<nat>
    requires TieOrder(s, tie)
    requires forall j :: j in a ==> j < |s|
  {
    set j | j in a :: Position(s, tie, j)
  }

  /** Position is one-to-one on the rows of one account. */
  lemma {:induction false} PositionsCard(s: seq<Txn>, tie: seq<int>, a: set<nat>, account: string)
    requires TieOrder(s, tie)
    requires forall j :: j in a ==> j < |s| && s[j].attrs.senderAccount == account
    ensures |Positions(s, tie, a)| == |a|
  {
    if a != {} {
      var x :| x in a;
      var a' := a - {x};
      PositionsCard(s, tie, a', account);
      assert Positions(s, tie, a) == Positions(s, tie, a') + {Position(s, tie, x)};
      forall y | y in a'
        ensures Position(s, tie, y) != Position(s, tie, x)
      {
        PositionInjective(s, tie, x, y);
      }
      assert Position(s, tie, x) !in Positions(s, tie, a');
    } else {
      assert Positions(s, tie, a) == {};
    }
  }

  /** The rows before row i occupy exactly the positions 0 .. Position(i)-1. */
  lemma PredecessorPositions(s: seq<Txn>, tie: seq<int>, i: nat)
    requires TieOrder(s, tie) && i < |s|
    ensures Positions(s, tie, Predecessors(s, tie, i)) == Range(0, Position(s, tie, i))
  {
    var p := Predecessors(s, tie, i);
    forall j | j in p
      ensures Position(s, tie, j) in Range(0, Position(s, tie, i))
    {
      PositionStrict(s, tie, j, i);
    }
    PositionsCard(s, tie, p, s[i].attrs.senderAccount);
    RangeCard(0, Position(s, tie, i));
    SubsetEqualCard(Positions(s, tie, p), Range(0, Position(s, tie, i)));
  }

  /** The frame of row i holds the positions max(0, k-100) .. k, k its position. */
  lemma FramePositions(s: seq<Txn>, tie: seq<int>, i: nat)
    requires TieOrder(s, tie) && i < |s|
    ensures var k := Position(s, tie, i);
            Positions(s, tie, Frame(s, tie, i)) == Range(if k < FramePreceding then 0 else k - FramePreceding, k + 1)
    ensures |Positions(s, tie, Frame(s, tie, i))| == |Frame(s, tie, i)|
  {
    var k := Position(s, tie, i);
    var lo := if k < FramePreceding then 0 else k - FramePreceding;
    var f := Frame(s, tie, i);
    forall j | j in f
      ensures Position(s, tie, j) in Range(lo, k + 1)
    {
      if j != i { PositionStrict(s, tie, j, i); }
    }
    PredecessorPositions(s, tie, i);
    forall p | p in Range(lo, k + 1)
      ensures p in Positions(s, tie, f)
    {
      if p == k {
        assert i in f;
      } else {
        assert p in Positions(s, tie, Predecessors(s, tie, i));
        var j :| j in Predecessors(s, tie, i) && Position(s, tie, j) == p;
        assert j in f;
      }
    }
    PositionsCard(s, tie, f, s[i].attrs.senderAccount);
  }

  /** sender_tx_last_hour: COUNT(*) over the frame; for the row at position k
      of its account it is min(k + 1, 101), whatever the tie order. */
  function SenderTxLastHour(s: seq<Txn>, tie: seq<int>, i: nat): (n: nat)
    requires TieOrder(s, tie) && i < |s|
    ensures n == if Position(s, tie, i) < FramePreceding then Position(s, tie, i) + 1 else FramePreceding + 1
    ensures 1 <= n <= FramePreceding + 1
  {
    var k := Position(s, tie, i);
    FramePositions(s, tie, i);
    RangeCard(if k < FramePreceding then 0 else k - FramePreceding, k + 1);
    |Frame(s, tie, i)|
  }

  /** Whatever order the engine gives rows with equal timestamps, the
      position lies between the number of strictly earlier rows of the
      account and the number of rows not later than it, less one; when no
      other row of the account shares the timestamp the position is the
      number of strictly earlier rows, the same for every tie order. */
  lemma PositionBounds(s: seq<Txn>, tie: seq<int>, i: nat)
    requires TieOrder(s, tie) && i < |s|
    ensures var acct, t := s[i].attrs.senderAccount, s[i].attrs.ts;
            var earlier := set j: nat | j < |s| && s[j].attrs.senderAccount == acct && s[j].attrs.ts < t;
            var notLater := set j: nat | j < |s| && s[j].attrs.senderAccount == acct && s[j].attrs.ts <= t;
            && |earlier| <= Position(s, tie, i) < |notLater|
            && ((forall j :: 0 <= j < |s| && j != i && s[j].attrs.senderAccount == acct ==> s[j].attrs.ts != t)
                ==> Position(s, tie, i) == |earlier|)
  {
    var acct, t := s[i].attrs.senderAccount, s[i].attrs.ts;
    var earlier := set j: nat | j < |s| && s[j].attrs.senderAccount == acct && s[j].attrs.ts < t;
    var notLater := set j: nat | j < |s| && s[j].attrs.senderAccount == acct && s[j].attrs.ts <= t;
    SubsetCard(earlier, Predecessors(s, tie, i));
    StrictSubsetCard(Predecessors(s, tie, i), notLater, i);
    if forall j :: 0 <= j < |s| && j != i && s[j].attrs.senderAccount == acct ==> s[j].attrs.ts != t {
      assert Predecessors(s, tie, i) == earlier;
    }
  }

  /** A row strictly earlier than every other row of its account, in
      particular the only row of its account, gets 1 under every tie order. */
  lemma SenderTxLastHourFirst(s: seq<Txn>, tie: seq<int>, i: nat)
    requires TieOrder(s, tie) && i < |s|
    requires forall j :: 0 <= j < |s| && j != i && s[j].attrs.senderAccount == s[i].attrs.senderAccount ==> s[i].attrs.ts < s[j].attrs.ts
    ensures SenderTxLastHour(s, tie, i) == 1
  {
    assert Predecessors(s, tie, i) == {};
  }

  // ------------------------------------------------------ daily_amount_rank

  /** Rows of `day` with an amount strictly greater than `a`. */
  function CountAbove(s: seq<Txn>, day: int, a: real): (n: nat)
    ensures n <= DayCount(s, day)
  {
    if s == [] then 0
    else
      var last := s[|s| - 1];
      CountAbove(s[..|s| - 1], day, a) + (if Day(last) == day && last.amount > a then 1 else 0)
  }

  /** Rows of `day` with an amount equal to `a` (the peers of a row). */
  function CountTied(s: seq<Txn>, day: int, a: real): (n: nat)
    ensures n <= DayCount(s, day)
  {
    if s == [] then 0
    else
      var last := s[|s| - 1];
      CountTied(s[..|s| - 1], day, a) + (if Day(last) == day && last.amount == a then 1 else 0)
  }

  /** Rows of `day`: the size of the rank partition, within the table. */
  function DayCount(s: seq<Txn>, day: int): (n: nat)
    ensures n <= |s|
  {
    if s == [] then 0
    else DayCount(s[..|s| - 1], day) + (if Day(s[|s| - 1]) == day then 1 else 0)
  }

  lemma {:induction false} CountAboveZero(s: seq<Txn>, day: int, a: real)
    ensures CountAbove(s, day, a) == 0 <==> forall j :: 0 <= j < |s| && Day(s[j]) == day ==> s[j].amount <= a
  {
    if s != [] {
      var init := s[..|s| - 1];
      CountAboveZero(init, day, a);
      assert forall j :: 0 <= j < |init| ==> init[j] == s[j];
    }
  }

  lemma {:induction false} CountTiedMember(s: seq<Txn>, k: nat)
    requires k < |s|
    ensures CountTied(s, Day(s[k]), s[k].amount) >= 1
  {
    if k < |s| - 1 {
      CountTiedMember(s[..|s| - 1], k);
    }
  }

  lemma {:induction false} CountsWithinDay(s: seq<Txn>, day: int, a: real)
    ensures CountAbove(s, day, a) + CountTied(s, day, a) <= DayCount(s, day)
  {
    if s != [] {
      CountsWithinDay(s[..|s| - 1], day, a);
    }
  }

  /** Below a value a, the rows above b are those above a, those tied at a,
      and those strictly between b and a. */
  lemma {:induction false} CountAboveSplit(s: seq<Txn>, day: int, a: real, b: real)
    requires b < a
    ensures CountAbove(s, day, b) >= CountAbove(s, day, a) + CountTied(s, day, a)
    ensures (forall j :: 0 <= j < |s| && Day(s[j]) == day ==> !(b < s[j].amount < a))
            ==> CountAbove(s, day, b) == CountAbove(s, day, a) + CountTied(s, day, a)
  {
    if s != [] {
      var init := s[..|s| - 1];
      CountAboveSplit(init, day, a, b);
      assert forall j :: 0 <= j < |init| ==> init[j] == s[j];
    }
  }

  /** daily_amount_rank: RANK() OVER (PARTITION BY DATE(ts) ORDER BY amount
      DESC), i.e. one more than the number of rows of the day with a larger
      amount; it lies between 1 and the number of rows of the day. */
  function DailyAmountRank(s: seq<Txn>, i: nat): (r: nat)
    requires i < |s|
    ensures 1 <= r <= DayCount(s, Day(s[i]))
  {
    CountTiedMember(s, i);
    CountsWithinDay(s, Day(s[i]), s[i].amount);
    1 + CountAbove(s, Day(s[i]), s[i].amount)
  }

  /** Rank 1 goes exactly to the rows holding the day's maximum amount. */
  lemma RankOneIffDayMaximum(s: seq<Txn>, i: nat)
    requires i < |s|
    ensures DailyAmountRank(s, i) == 1 <==> forall j :: 0 <= j < |s| && Day(s[j]) == Day(s[i]) ==> s[j].amount <= s[i].amount
  {
    CountAboveZero(s, Day(s[i]), s[i].amount);
  }

  /** Competition ranking: a strictly larger amount has a strictly smaller
      rank, smaller by at least the number of its peers; and the next
      distinct amount of the day skips exactly those peers. */
  lemma RankCompetition(s: seq<Txn>, i: nat, j: nat)
    requires i < |s| && j < |s| && Day(s[i]) == Day(s[j])
    requires s[j].amount < s[i].amount
    ensures DailyAmountRank(s, j) >= DailyAmountRank(s, i) + CountTied(s, Day(s[i]), s[i].amount)
    ensures DailyAmountRank(s, i) < DailyAmountRank(s, j)
    ensures (forall k :: 0 <= k < |s| && Day(s[k]) == Day(s[i]) ==> !(s[j].amount < s[k].amount < s[i].amount))
            ==> DailyAmountRank(s, j) == DailyAmountRank(s, i) + CountTied(s, Day(s[i]), s[i].amount)
  {
    CountAboveSplit(s, Day(s[i]), s[i].amount, s[j].amount);
    CountTiedMember(s, i);
  }

  /** Tied amounts of one day share their rank. */
  lemma RankTiesShare(s: seq<Txn>, i: nat, j: nat)
    requires i < |s| && j < |s| && Day(s[i]) == Day(s[j])
    requires s[i].amount == s[j].amount
    ensures DailyAmountRank(s, i) == DailyAmountRank(s, j)
  {
  }

  /** A scan for a row of `day` with the day's largest amount: `best` is the
      largest seen among the rows before `n`. */
  function DayMaximum(s: seq<Txn>, day: int, best: nat, n: nat): (m: nat)
    requires best < |s| && Day(s[best]) == day && n <= |s|
    requires forall j :: 0 <= j < n && Day(s[j]) == day ==> s[j].amount <= s[best].amount
    ensures m < |s| && Day(s[m]) == day
    ensures forall j :: 0 <= j < |s| && Day(s[j]) == day ==> s[j].amount <= s[m].amount
    decreases |s| - n
  {
    if n == |s| then best
    else if Day(s[n]) == day && s[n].amount > s[best].amount then DayMaximum(s, day, n, n + 1)
    else DayMaximum(s, day, best, n + 1)
  }

  /** Every day that has rows has a row of rank 1. */
  lemma DayHasRankOne(s: seq<Txn>, k: nat)
    requires k < |s|
    ensures exists i :: 0 <= i < |s| && Day(s[i]) == Day(s[k]) && DailyAmountRank(s, i) == 1
  {
    var i := DayMaximum(s, Day(s[k]), k, 0);
    RankOneIffDayMaximum(s, i);
  }
}
