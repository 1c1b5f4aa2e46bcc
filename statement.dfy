/** The statement screen of app-zone/src/components/statement/statement.tsx:
    the period filter, the grouping of the transactions by month, and each
    month's signed total.

    A date is its local calendar fields; "now" is a parameter. A month group
    is keyed by the month's index (`year * 12 + month`), which names the
    same month as the locale's "month of year" label. */
module Statement {
  import opened Common
  import StatementStore

  /** A local date and time: month 0..11 as `getMonth` gives it, the day of
      the month, and the milliseconds since midnight. */
  datatype Date = Date(year: int, month: int, day: int, msOfDay: int)

  /** The modelled fields of `TransactionProps`. */
  datatype StatementTx = StatementTx(id: string, transactionType: StatementStore.TxType,
                                     apiType: Option<StatementStore.ApiType>, value: int, date: Date)

  /** The period buttons; any other value keeps everything. */
  datatype Period = Current | Last3 | Last6 | All | Other(name: string)

  const DayMs: int := 86400000

  predicate WellFormed(d: Date)
  {
    0 <= d.month < 12 && 1 <= d.day <= 31 && 0 <= d.msOfDay < DayMs
  }

  function MonthIndex(d: Date): int
  {
    d.year * 12 + d.month
  }

  /** `new Date(year, month, 1)`: an out-of-range month rolls over into the
      neighbouring years. */
  function FirstOfMonth(year: int, month: int): (d: Date)
    ensures WellFormed(d)
  {
    Date(year + month / 12, month % 12, 1, 0)
  }

  /** `a >= b` on dates. */
  predicate NotBefore(a: Date, b: Date)
  {
    a.year > b.year ||
    (a.year == b.year && (a.month > b.month ||
      (a.month == b.month && (a.day > b.day || (a.day == b.day && a.msOfDay >= b.msOfDay)))))
  }

  /** The callback of `filterTransactionsByPeriod`'s `filter`. */
  predicate InPeriod(period: Period, now: Date, t: StatementTx)
  {
    match period
    case Current => t.date.month == now.month && t.date.year == now.year
    case Last3 => NotBefore(t.date, FirstOfMonth(now.year, now.month - 2))
    case Last6 => NotBefore(t.date, FirstOfMonth(now.year, now.month - 5))
    case All => true
    case Other(_) => true
  }

  /** `filterTransactionsByPeriod`. */
  function FilterByPeriod(period: Period, now: Date, txs: seq<StatementTx>): seq<StatementTx>
  {
    if period == All then txs else Filter(txs, (t: StatementTx) => InPeriod(period, now, t))
  }

  // -----------------------------------------------------------------------
  // Grouping by month
  // -----------------------------------------------------------------------

  function MonthOf(t: StatementTx): int
  {
    MonthIndex(t.date)
  }

  /** The months in the order the `reduce` first meets them, which is the
      order `Object.entries` lists the groups in. */
  function Months(txs: seq<StatementTx>): seq<int>
    decreases |txs|
  {
    if txs == [] then []
    else
      var before := Months(DropLast(txs));
      if MonthOf(Last(txs)) in before then before else before + [MonthOf(Last(txs))]
  }

  /** The transactions of one month, in list order. */
  function Group(txs: seq<StatementTx>, month: int): seq<StatementTx>
    decreases |txs|
  {
    if txs == [] then []
    else Group(DropLast(txs), month) + (if MonthOf(Last(txs)) == month then [Last(txs)] else [])
  }

  /** `groupTransactionsByMonth`: the `reduce` that pushes each transaction
      onto its month's array. */
  method GroupByMonth(txs: seq<StatementTx>) returns (groups: map<int, seq<StatementTx>>, order: seq<int>)
    ensures order == Months(txs)
    ensures forall m :: m in groups <==> m in order
    ensures forall m :: m in groups ==> groups[m] == Group(txs, m)
  {
    groups := map[];
    order := [];
    var i := 0;
    while i < |txs|
      invariant 0 <= i <= |txs|
      invariant order == Months(txs[..i])
      invariant forall m :: m in groups <==> m in order
      invariant forall m :: m in groups ==> groups[m] == Group(txs[..i], m)
      invariant forall m :: m !in groups ==> Group(txs[..i], m) == []
    {
      assert DropLast(txs[..i + 1]) == txs[..i];
      var month := MonthOf(txs[i]);
      if month !in groups {
        groups := groups[month := []];
        order := order + [month];
      }
      groups := groups[month := groups[month] + [txs[i]]];
      i := i + 1;
    }
    assert txs[..i] == txs;
  }

  /** A credit is `type === 'Credit'` or `transactionType === 'deposito'`. */
  predicate IsCredit(t: StatementTx)
  {
    t.apiType == Some(StatementStore.Credit) || t.transactionType == StatementStore.Deposito
  }

  function SignedValue(t: StatementTx): int
  {
    if IsCredit(t) then t.value else -t.value
  }

  function CreditValue(t: StatementTx): int { if IsCredit(t) then t.value else 0 }

  function DebitValue(t: StatementTx): int { if IsCredit(t) then 0 else t.value }

  /** The total shown beside a month. */
  function MonthTotal(group: seq<StatementTx>): int
  {
    SumOf(group, SignedValue)
  }

  // -----------------------------------------------------------------------
  // Properties
  // -----------------------------------------------------------------------

  /** For well-formed dates, "on or after the first day of the month `k`
      months back" is a comparison of month indexes, across year ends too. */
  lemma MonthsBackByIndex(now: Date, d: Date, k: int)
    requires WellFormed(now) && WellFormed(d) && 0 <= k < 12
    ensures NotBefore(d, FirstOfMonth(now.year, now.month - k)) <==> MonthIndex(d) >= MonthIndex(now) - k
  {
    var c := FirstOfMonth(now.year, now.month - k);
    var m := now.month - k;
    assert m == 12 * (m / 12) + m % 12;
    assert -1 <= m / 12 <= 0;
    assert MonthIndex(c) == MonthIndex(now) - k;
  }

  /** What each period keeps, for well-formed dates: the current month, or
      the current month and the two (five) before it; everything for `All`
      and any unknown period. */
  lemma PeriodKeepsExactly(period: Period, now: Date, t: StatementTx)
    requires WellFormed(now) && WellFormed(t.date)
    ensures period == Current ==> (InPeriod(period, now, t) <==> MonthIndex(t.date) == MonthIndex(now))
    ensures period == Last3 ==> (InPeriod(period, now, t) <==> MonthIndex(t.date) >= MonthIndex(now) - 2)
    ensures period == Last6 ==> (InPeriod(period, now, t) <==> MonthIndex(t.date) >= MonthIndex(now) - 5)
    ensures period.All? || period.Other? ==> InPeriod(period, now, t)
  {
    if period == Last3 {
      MonthsBackByIndex(now, t.date, 2);
    } else if period == Last6 {
      MonthsBackByIndex(now, t.date, 5);
    } else if period == Current {
      assert t.date.year < now.year ==> t.date.year * 12 + 12 <= now.year * 12;
      assert t.date.year > now.year ==> now.year * 12 + 12 <= t.date.year * 12;
    }
  }

  /** The periods nest: the current month lies within the last three months,
      which lie within the last six. */
  lemma PeriodsNest(now: Date, t: StatementTx)
    requires WellFormed(now) && WellFormed(t.date)
    ensures InPeriod(Current, now, t) ==> InPeriod(Last3, now, t)
    ensures InPeriod(Last3, now, t) ==> InPeriod(Last6, now, t)
  {
    PeriodKeepsExactly(Current, now, t);
    PeriodKeepsExactly(Last3, now, t);
    PeriodKeepsExactly(Last6, now, t);
  }

  /** `All` returns the list as it is; any other period keeps exactly the
      transactions it accepts. */
  lemma FilterByPeriodExactly(period: Period, now: Date, txs: seq<StatementTx>, t: StatementTx)
    ensures period == All ==> FilterByPeriod(period, now, txs) == txs
    ensures t in FilterByPeriod(period, now, txs) <==> t in txs && InPeriod(period, now, t)
  {
    if t in txs && InPeriod(period, now, t) && period != All {
      var k :| 0 <= k < |txs| && txs[k] == t;
      assert InPeriod(period, now, txs[k]);
    }
  }

  /** A month appears among the groups exactly when some transaction falls
      in it, and at most once. */
  lemma {:induction false} MonthsSpec(txs: seq<StatementTx>, m: int)
    ensures m in Months(txs) <==> exists k :: 0 <= k < |txs| && MonthOf(txs[k]) == m
    ensures forall i, j :: 0 <= i < j < |Months(txs)| ==> Months(txs)[i] != Months(txs)[j]
    decreases |txs|
  {
    if txs != [] {
      var init := DropLast(txs);
      MonthsSpec(init, m);
      if m in Months(txs) && m !in Months(init) {
        assert MonthOf(txs[|txs| - 1]) == m;
      }
      if exists k :: 0 <= k < |txs| && MonthOf(txs[k]) == m {
        var k :| 0 <= k < |txs| && MonthOf(txs[k]) == m;
        if k < |init| {
          assert init[k] == txs[k];
        }
      }
      if m in Months(init) {
        var k :| 0 <= k < |init| && MonthOf(init[k]) == m;
        assert txs[k] == init[k];
      }
    }
  }

  /** Each group holds exactly the transactions of its month, in list
      order: the transactions of the month are all in it, and nothing
      else. */
  lemma {:induction false} GroupSpec(txs: seq<StatementTx>, m: int)
    ensures forall i :: 0 <= i < |Group(txs, m)| ==> MonthOf(Group(txs, m)[i]) == m
    ensures forall k :: 0 <= k < |txs| && MonthOf(txs[k]) == m ==> txs[k] in Group(txs, m)
    ensures Group(txs, m) == Filter(txs, (t: StatementTx) => MonthOf(t) == m)
    decreases |txs|
  {
    if txs != [] {
      var init := DropLast(txs);
      GroupSpec(init, m);
      assert txs == init + [Last(txs)];
      forall k | 0 <= k < |txs| && MonthOf(txs[k]) == m
        ensures txs[k] in Group(txs, m)
      {
        if k < |init| {
          assert txs[k] == init[k];
        }
      }
    }
  }

  /** The sum of the group sizes over a list of months. */
  function SizeTotal(txs: seq<StatementTx>, months: seq<int>): int
    decreases |months|
  {
    if months == [] then 0 else SizeTotal(txs, DropLast(months)) + |Group(txs, Last(months))|
  }

  /** How many times `m` occurs in `months`. */
  function Occurrences(months: seq<int>, m: int): nat
    decreases |months|
  {
    if months == [] then 0 else Occurrences(DropLast(months), m) + (if Last(months) == m then 1 else 0)
  }

  lemma {:induction false} SizeTotalStep(init: seq<StatementTx>, t: StatementTx, months: seq<int>)
    ensures SizeTotal(init + [t], months) == SizeTotal(init, months) + Occurrences(months, MonthOf(t))
    decreases |months|
  {
    assert DropLast(init + [t]) == init;
    if months != [] {
      SizeTotalStep(init, t, DropLast(months));
    }
  }

  lemma {:induction false} OccursOnce(months: seq<int>, m: int)
    requires forall i, j :: 0 <= i < j < |months| ==> months[i] != months[j]
    ensures Occurrences(months, m) == if m in months then 1 else 0
    decreases |months|
  {
    if months != [] {
      var init := DropLast(months);
      assert months == init + [Last(months)];
      OccursOnce(init, m);
    }
  }

  /** Every transaction lands in exactly one group: the group sizes add up
      to the length of the list. */
  lemma {:induction false} GroupSizesSumToLength(txs: seq<StatementTx>)
    ensures SizeTotal(txs, Months(txs)) == |txs|
    decreases |txs|
  {
    if txs != [] {
      var init := DropLast(txs);
      var t := Last(txs);
      assert txs == init + [t];
      GroupSizesSumToLength(init);
      MonthsSpec(txs, MonthOf(t));
      assert MonthOf(txs[|txs| - 1]) == MonthOf(t);
      OccursOnce(Months(txs), MonthOf(t));
      SizeTotalStep(init, t, Months(txs));
      if MonthOf(t) !in Months(init) {
        MonthsSpec(init, MonthOf(t));
        GroupSpec(init, MonthOf(t));
      }
    }
  }

  /** A month's total is its credits minus everything else. */
  lemma {:induction false} MonthTotalIsCreditsMinusDebits(group: seq<StatementTx>)
    ensures MonthTotal(group) == SumOf(group, CreditValue) - SumOf(group, DebitValue)
    decreases |group|
  {
    if group != [] {
      MonthTotalIsCreditsMinusDebits(DropLast(group));
    }
  }
}
