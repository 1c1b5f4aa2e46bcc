/** `getInvestmentTransactions` of
    backend/src/presentation/controllers/InvestmentController.ts: the
    account's investment transactions, each with its investment's display
    name, and a summary of the net amount per investment name, without the
    zero ones, largest absolute amount first.

    Whether the account exists and the repository's transactions are
    parameters; so is the catalog. */
module InvestmentController {
  import opened Common
  import opened InvestmentCatalog

  datatype TxType = Credit | Debit

  datatype DbTransaction = DbTransaction(
    id: string, accountId: string, kind: TxType, value: int, date: string,
    category: string, investmentCategory: Option<string>)

  /** A transaction as the response lists it: its investment code replaced
      by the investment's name. */
  datatype TransactionView = TransactionView(
    id: string, accountId: string, kind: TxType, value: int, date: string,
    category: string, investmentCategory: Option<string>)

  datatype SummaryRow = SummaryRow(investmentType: string, totalInvested: int)

  datatype Response = AccountNotFound | Investments(transactions: seq<TransactionView>, summary: seq<SummaryRow>)

  /** The name a transaction's amount is filed under, if it counts at all:
      it needs an investment code whose name is found and non-empty. */
  function FiledUnder(catalog: seq<Category>, t: DbTransaction): Option<string>
  {
    var name := NameByCode(catalog, t.investmentCategory);
    if name.Some? && name.value != "" then name else None
  }

  /** A credit is money put in, a debit money taken out. */
  function Signed(t: DbTransaction): int
  {
    if t.kind == Credit then t.value else -t.value
  }

  /** The net amount filed under `name`. */
  function TotalFor(catalog: seq<Category>, txs: seq<DbTransaction>, name: string): int
    decreases |txs|
  {
    if txs == [] then 0
    else TotalFor(catalog, DropLast(txs), name) + (if FiledUnder(catalog, Last(txs)) == Some(name) then Signed(Last(txs)) else 0)
  }

  /** The names in the order `investmentTotals` first received them. */
  function Order(catalog: seq<Category>, txs: seq<DbTransaction>): seq<string>
    decreases |txs|
  {
    if txs == [] then []
    else
      var before := Order(catalog, DropLast(txs));
      var name := FiledUnder(catalog, Last(txs));
      if name.Some? && name.value !in before then before + [name.value] else before
  }

  function View(catalog: seq<Category>, t: DbTransaction): TransactionView
  {
    TransactionView(t.id, t.accountId, t.kind, t.value, t.date, t.category, NameByCode(catalog, t.investmentCategory))
  }

  function AbsTotal(r: SummaryRow): int
  {
    Abs(r.totalInvested)
  }

  function NonZero(r: SummaryRow): bool
  {
    r.totalInvested != 0
  }

  /** The `investmentSummary` pipeline over the accumulated totals. */
  function SummaryOf(totals: map<string, int>, order: seq<string>): seq<SummaryRow>
    requires forall i :: 0 <= i < |order| ==> order[i] in totals
  {
    var rows := seq(|order|, i requires 0 <= i < |order| => SummaryRow(order[i], totals[order[i]]));
    SortDesc(Filter(rows, NonZero), AbsTotal)
  }

  /** The summary as a function of the transactions. */
  function Summary(catalog: seq<Category>, txs: seq<DbTransaction>): seq<SummaryRow>
  {
    SortDesc(Filter(Rows(catalog, txs), NonZero), AbsTotal)
  }

  /** The `forEach` that fills `investmentTotals`. */
  method Aggregate(catalog: seq<Category>, txs: seq<DbTransaction>) returns (totals: map<string, int>, order: seq<string>)
    ensures order == Order(catalog, txs)
    ensures forall n :: n in totals <==> n in order
    ensures forall n :: n in totals ==> totals[n] == TotalFor(catalog, txs, n)
  {
    totals := map[];
    order := [];
    var i := 0;
    while i < |txs|
      invariant 0 <= i <= |txs|
      invariant order == Order(catalog, txs[..i])
      invariant forall n :: n in totals <==> n in order
      invariant forall n :: n in totals ==> totals[n] == TotalFor(catalog, txs[..i], n)
      invariant forall n :: n !in totals ==> TotalFor(catalog, txs[..i], n) == 0
    {
      assert DropLast(txs[..i + 1]) == txs[..i];
      var name := FiledUnder(catalog, txs[i]);
      if name.Some? {
        var n := name.value;
        if n !in totals {
          totals := totals[n := 0];
          order := order + [n];
        }
        totals := totals[n := totals[n] + Signed(txs[i])];
      }
      i := i + 1;
    }
    assert txs[..i] == txs;
  }

  /** `getInvestmentTransactions`. */
  method GetInvestmentTransactions(accountFound: bool, catalog: seq<Category>, txs: seq<DbTransaction>)
    returns (r: Response)
    ensures !accountFound ==> r == AccountNotFound
    ensures accountFound ==> r == Investments(Map(txs, (t: DbTransaction) => View(catalog, t)), Summary(catalog, txs))
  {
    if !accountFound {
      return AccountNotFound;
    }
    var totals, order := Aggregate(catalog, txs);
    assert SummaryOf(totals, order) == Summary(catalog, txs) by {
      var rows1 := seq(|order|, i requires 0 <= i < |order| => SummaryRow(order[i], totals[order[i]]));
      assert rows1 == Rows(catalog, txs);
    }
    r := Investments(Map(txs, (t: DbTransaction) => View(catalog, t)), SummaryOf(totals, order));
  }

  // -----------------------------------------------------------------------
  // Properties
  // -----------------------------------------------------------------------

  /** A name is in the order exactly when some transaction is filed under
      it, and it appears there once. */
  lemma {:induction false} OrderSpec(catalog: seq<Category>, txs: seq<DbTransaction>, n: string)
    ensures n in Order(catalog, txs) <==> exists k :: 0 <= k < |txs| && FiledUnder(catalog, txs[k]) == Some(n)
    ensures forall i, j :: 0 <= i < j < |Order(catalog, txs)| ==> Order(catalog, txs)[i] != Order(catalog, txs)[j]
    decreases |txs|
  {
    if txs != [] {
      var init := DropLast(txs);
      OrderSpec(catalog, init, n);
      assert txs == init + [Last(txs)];
      if n in Order(catalog, txs) && n !in Order(catalog, init) {
        assert FiledUnder(catalog, txs[|txs| - 1]) == Some(n);
      }
      if exists k :: 0 <= k < |txs| && FiledUnder(catalog, txs[k]) == Some(n) {
        var k :| 0 <= k < |txs| && FiledUnder(catalog, txs[k]) == Some(n);
        if k < |init| {
          assert init[k] == txs[k];
        }
      }
      if n in Order(catalog, init) {
        var k :| 0 <= k < |init| && FiledUnder(catalog, init[k]) == Some(n);
        assert txs[k] == init[k];
      }
    }
  }

  /** Transactions filed under no name add nothing to any total. */
  lemma {:induction false} UnfiledAddsNothing(catalog: seq<Category>, txs: seq<DbTransaction>, t: DbTransaction, n: string)
    requires FiledUnder(catalog, t).None?
    ensures TotalFor(catalog, txs + [t], n) == TotalFor(catalog, txs, n)
    ensures Order(catalog, txs + [t]) == Order(catalog, txs)
  {
    assert DropLast(txs + [t]) == txs;
  }

  /** The rows before filtering and sorting: one per name, in order. */
  function Rows(catalog: seq<Category>, txs: seq<DbTransaction>): (rows: seq<SummaryRow>)
    ensures var order := Order(catalog, txs);
            |rows| == |order| &&
            forall i :: 0 <= i < |rows| ==> rows[i] == SummaryRow(order[i], TotalFor(catalog, txs, order[i]))
  {
    var order := Order(catalog, txs);
    seq(|order|, i requires 0 <= i < |order| => SummaryRow(order[i], TotalFor(catalog, txs, order[i])))
  }

  /** Every summary row carries a non-zero net amount, the one filed under
      its name. */
  lemma SummaryRowsAreTotals(catalog: seq<Category>, txs: seq<DbTransaction>)
    ensures var s := Summary(catalog, txs);
            forall i :: 0 <= i < |s| ==> s[i].totalInvested != 0 &&
                                         s[i].totalInvested == TotalFor(catalog, txs, s[i].investmentType)
  {
    var rows := Rows(catalog, txs);
    var kept := Filter(rows, NonZero);
    var s := Summary(catalog, txs);
    forall i | 0 <= i < |s|
      ensures s[i].totalInvested != 0 && s[i].totalInvested == TotalFor(catalog, txs, s[i].investmentType)
    {
      assert s[i] in multiset(kept);
      var k :| 0 <= k < |kept| && kept[k] == s[i];
      assert kept[k] in rows && NonZero(kept[k]);
    }
  }

  /** The summary is ordered by absolute amount, largest first. */
  lemma SummarySorted(catalog: seq<Category>, txs: seq<DbTransaction>)
    ensures var s := Summary(catalog, txs);
            forall i, j :: 0 <= i < j < |s| ==> Abs(s[i].totalInvested) >= Abs(s[j].totalInvested)
  {
    var s := Summary(catalog, txs);
    assert SortedDesc(s, AbsTotal);
    forall i, j | 0 <= i < j < |s|
      ensures Abs(s[i].totalInvested) >= Abs(s[j].totalInvested)
    {
      assert AbsTotal(s[i]) >= AbsTotal(s[j]);
    }
  }

  /** A name in the summary is filed under by some transaction and nets
      to a non-zero amount. */
  lemma SummaryNameIsFiled(catalog: seq<Category>, txs: seq<DbTransaction>, i: int)
    requires 0 <= i < |Summary(catalog, txs)|
    ensures Summary(catalog, txs)[i].investmentType in Order(catalog, txs)
    ensures TotalFor(catalog, txs, Summary(catalog, txs)[i].investmentType) != 0
  {
    var order := Order(catalog, txs);
    var rows := Rows(catalog, txs);
    var kept := Filter(rows, NonZero);
    var s := Summary(catalog, txs);
    assert multiset(s) == multiset(kept);
    assert s[i] in multiset(kept);
    var k :| 0 <= k < |kept| && kept[k] == s[i];
    assert kept[k] in rows && NonZero(kept[k]);
    var j :| 0 <= j < |rows| && rows[j] == kept[k];
    assert order[j] == s[i].investmentType;
  }

  /** A filed name with a non-zero net amount has a summary row. */
  lemma FiledNameInSummary(catalog: seq<Category>, txs: seq<DbTransaction>, n: string)
    requires n in Order(catalog, txs) && TotalFor(catalog, txs, n) != 0
    ensures exists i :: 0 <= i < |Summary(catalog, txs)| && Summary(catalog, txs)[i].investmentType == n
  {
    var order := Order(catalog, txs);
    var rows := Rows(catalog, txs);
    var kept := Filter(rows, NonZero);
    var s := Summary(catalog, txs);
    assert multiset(s) == multiset(kept);
    var j :| 0 <= j < |order| && order[j] == n;
    assert NonZero(rows[j]);
    assert rows[j] in kept;
    assert rows[j] in multiset(s);
    var i :| 0 <= i < |s| && s[i] == rows[j];
    assert s[i].investmentType == n;
  }

  /** A name has a summary row exactly when some transaction is filed under
      it and its net amount is not zero. */
  lemma SummaryHasName(catalog: seq<Category>, txs: seq<DbTransaction>, n: string)
    ensures var s := Summary(catalog, txs);
            (exists i :: 0 <= i < |s| && s[i].investmentType == n) <==>
            n in Order(catalog, txs) && TotalFor(catalog, txs, n) != 0
  {
    var s := Summary(catalog, txs);
    if exists i :: 0 <= i < |s| && s[i].investmentType == n {
      var i :| 0 <= i < |s| && s[i].investmentType == n;
      SummaryNameIsFiled(catalog, txs, i);
    }
    if n in Order(catalog, txs) && TotalFor(catalog, txs, n) != 0 {
      FiledNameInSummary(catalog, txs, n);
    }
  }
}
