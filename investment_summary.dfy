/** The `investmentSummary` computation of
    app-zone/src/components/investment-main/investment-main.tsx: the rows of
    the investment summary, without the zero ones, turned into chart
    categories with a colour and a fixed/variable income type, the signed
    totals, and the split of the total into fixed and variable income.
    Amounts are integer cents. */
module InvestmentSummary {
  import opened Common

  /** A row of the backend's investment summary; the name may be missing. */
  datatype SummaryItem = SummaryItem(investmentType: Option<string>, totalInvested: int)

  datatype IncomeType = Fixa | Variavel

  datatype ChartCategory = ChartCategory(name: string, value: int, color: string, kind: IncomeType)

  datatype Summary = Summary(total: int, totalPositivo: int, totalNegativo: int,
                             rendaFixa: int, rendaVariavel: int, categories: seq<ChartCategory>)

  const Palette: seq<string> := ["#6366F1", "#8B5CF6", "#EC4899", "#F59E0B", "#10B981",
                                 "#3B82F6", "#EF4444", "#14B8A6", "#F97316", "#06B6D4"]

  /** The words whose presence in the lower-cased name marks fixed income. */
  const FixedIncomeWords: seq<string> := ["tesouro", "cdb", "lci", "lca", "debênture", "cri", "cra"]

  function Amount(x: SummaryItem): int { x.totalInvested }

  predicate NonZero(x: SummaryItem) { x.totalInvested != 0 }

  function PositivePart(x: SummaryItem): int { if x.totalInvested > 0 then x.totalInvested else 0 }

  function NegativePart(x: SummaryItem): int { if x.totalInvested < 0 then x.totalInvested else 0 }

  /** `item.investmentType || 'Outros'`. */
  function NameOf(x: SummaryItem): string
  {
    if x.investmentType.None? || x.investmentType.value == "" then "Outros" else x.investmentType.value
  }

  /** The `isRendaFixa` test. */
  predicate IsRendaFixa(name: string)
  {
    exists w | w in FixedIncomeWords :: Contains(Lower(name), w)
  }

  function KindOf(name: string): IncomeType
  {
    if IsRendaFixa(name) then Fixa else Variavel
  }

  function Value(c: ChartCategory): int { c.value }

  predicate IsFixa(c: ChartCategory) { c.kind == Fixa }

  predicate IsVariavel(c: ChartCategory) { c.kind == Variavel }

  /** The rows the chart shows: the non-zero ones, in input order. */
  function Kept(items: seq<SummaryItem>): seq<SummaryItem>
  {
    Filter(items, NonZero)
  }

  /** The category built for the `i`-th kept row. */
  function CategoryAt(x: SummaryItem, i: nat): ChartCategory
  {
    ChartCategory(NameOf(x), x.totalInvested, Palette[i % |Palette|], KindOf(NameOf(x)))
  }

  /** The categories before sorting: one per kept row, coloured by position. */
  function Categorize(kept: seq<SummaryItem>): seq<ChartCategory>
  {
    seq(|kept|, i requires 0 <= i < |kept| => CategoryAt(kept[i], i))
  }

  /** One more kept row adds its category at the end. */
  lemma CategorizeStep(kept: seq<SummaryItem>, i: nat)
    requires i < |kept|
    ensures Categorize(kept[..i + 1]) == Categorize(kept[..i]) + [CategoryAt(kept[i], i)]
  {
  }

  /** The `filter(...).map(...)` whose callback updates the running totals
      and the colour index. */
  method Accumulate(kept: seq<SummaryItem>)
    returns (categories: seq<ChartCategory>, totalInvested: int, totalPositivo: int, totalNegativo: int)
    ensures categories == Categorize(kept)
    ensures totalInvested == SumOf(kept, Amount)
    ensures totalPositivo == SumOf(kept, PositivePart)
    ensures totalNegativo == SumOf(kept, NegativePart)
  {
    var colorIndex := 0;
    totalInvested, totalPositivo, totalNegativo := 0, 0, 0;
    categories := [];
    while colorIndex < |kept|
      invariant 0 <= colorIndex <= |kept|
      invariant categories == Categorize(kept[..colorIndex])
      invariant totalInvested == SumOf(kept[..colorIndex], Amount)
      invariant totalPositivo == SumOf(kept[..colorIndex], PositivePart)
      invariant totalNegativo == SumOf(kept[..colorIndex], NegativePart)
    {
      var item := kept[colorIndex];
      assert DropLast(kept[..colorIndex + 1]) == kept[..colorIndex];
      CategorizeStep(kept, colorIndex);
      var investmentType := if item.investmentType.None? || item.investmentType.value == "" then "Outros"
                            else item.investmentType.value;
      var value := item.totalInvested;
      totalInvested := totalInvested + value;
      if value > 0 {
        totalPositivo := totalPositivo + value;
      } else if value < 0 {
        totalNegativo := totalNegativo + value;
      }
      var kind := if IsRendaFixa(investmentType) then Fixa else Variavel;
      categories := categories + [ChartCategory(investmentType, value, Palette[colorIndex % |Palette|], kind)];
      colorIndex := colorIndex + 1;
    }
    assert kept[..colorIndex] == kept;
  }

  /** `useMemo` computing `investmentSummary` from the summary rows. */
  method ComputeSummary(items: seq<SummaryItem>) returns (r: Summary)
    ensures items == [] ==> r == Summary(0, 0, 0, 0, 0, [])
    ensures r.total == SumOf(Kept(items), Amount)
    ensures r.totalPositivo == SumOf(Kept(items), PositivePart)
    ensures r.totalNegativo == SumOf(Kept(items), NegativePart)
    ensures r.categories == SortDesc(Categorize(Kept(items)), Value)
    ensures r.rendaFixa == SumOf(Filter(r.categories, IsFixa), Value)
    ensures r.rendaVariavel == SumOf(Filter(r.categories, IsVariavel), Value)
  {
    if |items| == 0 {
      assert Kept(items) == [];
      return Summary(0, 0, 0, 0, 0, []);
    }
    var categories, totalInvested, totalPositivo, totalNegativo := Accumulate(Filter(items, NonZero));
    var sorted := SortDesc(categories, Value);
    var rendaFixa := SumOf(Filter(sorted, IsFixa), Value);
    var rendaVariavel := SumOf(Filter(sorted, IsVariavel), Value);
    r := Summary(totalInvested, totalPositivo, totalNegativo, rendaFixa, rendaVariavel, sorted);
  }

  // -----------------------------------------------------------------------
  // Properties
  // -----------------------------------------------------------------------

  /** The total is the positive part plus the negative part, the positive
      part is never below zero and the negative part never above it. */
  lemma {:induction false} TotalsSplitBySign(s: seq<SummaryItem>)
    ensures SumOf(s, Amount) == SumOf(s, PositivePart) + SumOf(s, NegativePart)
    ensures SumOf(s, PositivePart) >= 0 >= SumOf(s, NegativePart)
    decreases |s|
  {
    if s != [] {
      TotalsSplitBySign(DropLast(s));
    }
  }

  /** The categories carry every kept row once: their values sum to the
      total. */
  lemma {:induction false} CategoriesSumToTotal(kept: seq<SummaryItem>)
    ensures SumOf(Categorize(kept), Value) == SumOf(kept, Amount)
    decreases |kept|
  {
    if kept != [] {
      assert DropLast(Categorize(kept)) == Categorize(DropLast(kept));
      CategoriesSumToTotal(DropLast(kept));
    }
  }

  /** Every category is either fixed or variable income, so the two
      filtered sums add up to the sum over all categories. */
  lemma {:induction false} FixaVariavelPartition(s: seq<ChartCategory>)
    ensures SumOf(Filter(s, IsFixa), Value) + SumOf(Filter(s, IsVariavel), Value) == SumOf(s, Value)
    decreases |s|
  {
    if s != [] {
      var x := Last(s);
      var fixa := Filter(DropLast(s), IsFixa);
      var variavel := Filter(DropLast(s), IsVariavel);
      FixaVariavelPartition(DropLast(s));
      assert DropLast(fixa + [x]) == fixa;
      assert DropLast(variavel + [x]) == variavel;
    }
  }

  /** Fixed plus variable income is the total: every category is one of the
      two, and sorting moves no amount. */
  lemma FixaPlusVariavelIsTotal(items: seq<SummaryItem>)
    ensures var cats := SortDesc(Categorize(Kept(items)), Value);
            SumOf(Filter(cats, IsFixa), Value) + SumOf(Filter(cats, IsVariavel), Value)
              == SumOf(Kept(items), Amount)
  {
    var unsorted := Categorize(Kept(items));
    var cats := SortDesc(unsorted, Value);
    FixaVariavelPartition(cats);
    SumOfPermutation(cats, unsorted, Value);
    CategoriesSumToTotal(Kept(items));
  }

  /** The categories are ordered by value, largest first. */
  lemma CategoriesSorted(items: seq<SummaryItem>)
    ensures var cats := SortDesc(Categorize(Kept(items)), Value);
            forall i, j :: 0 <= i < j < |cats| ==> cats[i].value >= cats[j].value
  {
    var cats := SortDesc(Categorize(Kept(items)), Value);
    forall i, j | 0 <= i < j < |cats|
      ensures cats[i].value >= cats[j].value
    {
      assert Value(cats[i]) >= Value(cats[j]);
    }
  }

  /** Each category is a non-zero row of the input, under the row's name or
      "Outros" when the row has none. */
  lemma CategoriesComeFromRows(items: seq<SummaryItem>, c: ChartCategory)
    requires c in SortDesc(Categorize(Kept(items)), Value)
    ensures c.value != 0 && c.name != ""
    ensures exists x :: x in items && c.name == NameOf(x) && c.value == x.totalInvested
  {
    var kept := Kept(items);
    var unsorted := Categorize(kept);
    assert c in multiset(SortDesc(unsorted, Value));
    assert c in multiset(unsorted);
    var k :| 0 <= k < |unsorted| && unsorted[k] == c;
    assert kept[k] in items && NonZero(kept[k]);
  }

  /** Colours cycle through the ten-colour palette in the order of the rows
      before sorting: rows ten apart share a colour, neighbours do not. */
  lemma ColoursCycle(kept: seq<SummaryItem>, i: nat)
    requires i + 1 < |kept|
    ensures Categorize(kept)[i].color != Categorize(kept)[i + 1].color
    ensures i + 10 < |kept| ==> Categorize(kept)[i].color == Categorize(kept)[i + 10].color
  {
    PositionStep(i);
    NeighbourColoursDiffer(i % 10, (i + 1) % 10);
  }

  /** The colour position of the next row, and of the row ten further on. */
  lemma PositionStep(i: nat)
    ensures (i + 1) % 10 == if i % 10 == 9 then 0 else i % 10 + 1
    ensures (i + 10) % 10 == i % 10
  {
    var q := i / 10;
    assert i == 10 * q + i % 10;
    assert i + 10 == 10 * (q + 1) + i % 10;
    if i % 10 == 9 {
      assert i + 1 == 10 * (q + 1);
    } else {
      assert i + 1 == 10 * q + (i % 10 + 1);
    }
  }

  /** Neighbouring entries of the palette, the last and the first
      included, are different colours. */
  lemma NeighbourColoursDiffer(a: int, b: int)
    requires 0 <= a < 10 && b == if a == 9 then 0 else a + 1
    ensures Palette[a] != Palette[b]
  {
    assert Palette[a][1..] != Palette[b][1..];
  }

  /** Renda fixa is decided by substring: the catalog's fixed-income names
      qualify, and so does any name that merely contains "cri", such as
      "Criptomoedas". */
  lemma FixedIncomeBySubstring()
    ensures IsRendaFixa("CDB Prefixado")
    ensures IsRendaFixa("Criptomoedas")
  {
    var cdb := Lower("CDB Prefixado");
    assert cdb[0] == 'c' && cdb[1] == 'd' && cdb[2] == 'b';
    assert OccursAt(cdb, "cdb", 0);
    assert "cdb" in FixedIncomeWords;
    var cripto := Lower("Criptomoedas");
    assert cripto[0] == 'c' && cripto[1] == 'r' && cripto[2] == 'i';
    assert OccursAt(cripto, "cri", 0);
    assert "cri" in FixedIncomeWords;
  }
}
