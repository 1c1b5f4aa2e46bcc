/** The use case of app-zone/src/domain/usecases/get-user-transactions.usecase.ts:
    read the user's transactions through the cache service, newest first,
    optionally keep only a recent period, and total them up.

    The repository's answer is a parameter. Dates are instants in
    milliseconds; a day is 86 400 000 ms. */
module UserTransactions {
  import opened Common
  import opened CacheStore

  datatype Kind = Deposit | Withdraw | Transfer | Investment

  datatype Transaction = Transaction(id: string, kind: Kind, amount: int, date: int, description: string)

  /** What `transactionRepository.getTransactions()` gives: the list, or the
      error it rejects with. */
  datatype RepositoryAnswer = Got(txs: seq<Transaction>) | RepositoryError(message: string)

  datatype Outcome = Listed(txs: seq<Transaction>) | Failed(message: string)

  datatype Period = Last7 | Last30 | Last90 | All

  datatype Statistics = Statistics(total: nat, deposits: int, withdraws: int, balance: int)

  const TransactionsKey: string := "user_transactions"
  const TransactionsTtl: int := 5 * 60 * 1000
  const DayMs: int := 24 * 60 * 60 * 1000

  function DateOf(t: Transaction): int
  {
    t.date
  }

  // -----------------------------------------------------------------------
  // execute
  // -----------------------------------------------------------------------

  /** `execute(useCache)` at time `now` against the cache tiers: a cached
      list answers (any array is truthy, the empty one included); otherwise
      the repository's list sorted newest first, the sort being stable. */
  function ExecuteResult(memory: map<string, Entry<seq<Transaction>>>,
                         persistent: map<string, Entry<seq<Transaction>>>, dbOpen: bool,
                         useCache: bool, repository: RepositoryAnswer, now: int): Outcome
  {
    var cached := Lookup(memory, persistent, dbOpen, TransactionsKey, now);
    if useCache && cached.Some? then Listed(cached.value)
    else match repository
      case Got(txs) => Listed(SortDesc(txs, DateOf))
      case RepositoryError(message) => Failed(message)
  }

  /** Whether `execute(useCache)` answers from the cache at time `now`. */
  predicate CacheHit(memory: map<string, Entry<seq<Transaction>>>,
                     persistent: map<string, Entry<seq<Transaction>>>, dbOpen: bool,
                     useCache: bool, now: int)
  {
    useCache && Lookup(memory, persistent, dbOpen, TransactionsKey, now).Some?
  }

  /** The memory tier after `execute(useCache)`: a hit may promote the
      persistent entry, a listed miss stores the sorted list for five
      minutes, and a failure leaves it as it was. */
  function MemoryAfterExecute(memory: map<string, Entry<seq<Transaction>>>,
                              persistent: map<string, Entry<seq<Transaction>>>, dbOpen: bool,
                              useCache: bool, repository: RepositoryAnswer, now: int): map<string, Entry<seq<Transaction>>>
  {
    if CacheHit(memory, persistent, dbOpen, useCache, now) then
      AfterLookup(memory, persistent, dbOpen, TransactionsKey, now)
    else if repository.Got? then
      memory[TransactionsKey := Entry(SortDesc(repository.txs, DateOf), now, TransactionsTtl)]
    else memory
  }

  /** The persistent tier after `execute(useCache)`: only a listed miss with
      the database open writes it. */
  function PersistentAfterExecute(memory: map<string, Entry<seq<Transaction>>>,
                                  persistent: map<string, Entry<seq<Transaction>>>, dbOpen: bool,
                                  useCache: bool, repository: RepositoryAnswer, now: int): map<string, Entry<seq<Transaction>>>
  {
    if !CacheHit(memory, persistent, dbOpen, useCache, now) && repository.Got? && dbOpen then
      persistent[TransactionsKey := Entry(SortDesc(repository.txs, DateOf), now, TransactionsTtl)]
    else persistent
  }

  /** `execute(useCache)`, reading and writing the shared `cache`. */
  method Execute(cache: CacheService<seq<Transaction>>, useCache: bool,
                 repository: RepositoryAnswer, now: int) returns (r: Outcome)
    modifies cache`memory, cache`persistent
    ensures r == ExecuteResult(old(cache.memory), old(cache.persistent), cache.dbOpen, useCache, repository, now)
    ensures cache.memory == MemoryAfterExecute(old(cache.memory), old(cache.persistent), cache.dbOpen, useCache, repository, now)
    ensures cache.persistent == PersistentAfterExecute(old(cache.memory), old(cache.persistent), cache.dbOpen, useCache, repository, now)
  {
    if useCache {
      var cached := cache.Get(TransactionsKey, now);
      if cached.Some? {
        return Listed(cached.value);
      }
    }
    match repository {
      case Got(txs) =>
        var sorted := SortDesc(txs, DateOf);
        cache.Set(TransactionsKey, sorted, TransactionsTtl, now);
        r := Listed(sorted);
      case RepositoryError(message) =>
        r := Failed(message);
    }
  }

  /** A cache hit answers without the repository: any two repository
      answers give the same result. */
  lemma CacheHitSkipsRepository(memory: map<string, Entry<seq<Transaction>>>,
                                persistent: map<string, Entry<seq<Transaction>>>, dbOpen: bool,
                                a1: RepositoryAnswer, a2: RepositoryAnswer, now: int)
    requires Lookup(memory, persistent, dbOpen, TransactionsKey, now).Some?
    ensures ExecuteResult(memory, persistent, dbOpen, true, a1, now)
         == ExecuteResult(memory, persistent, dbOpen, true, a2, now)
         == Listed(Lookup(memory, persistent, dbOpen, TransactionsKey, now).value)
  {
  }

  /** On a miss the answer is the repository's list, reordered newest first. */
  lemma MissIsSortedPermutation(memory: map<string, Entry<seq<Transaction>>>,
                                persistent: map<string, Entry<seq<Transaction>>>, dbOpen: bool,
                                useCache: bool, txs: seq<Transaction>, now: int)
    requires !useCache || Lookup(memory, persistent, dbOpen, TransactionsKey, now).None?
    ensures var r := ExecuteResult(memory, persistent, dbOpen, useCache, Got(txs), now);
            r.Listed? && multiset(r.txs) == multiset(txs) &&
            forall i, j :: 0 <= i < j < |r.txs| ==> r.txs[i].date >= r.txs[j].date
  {
  }

  /** Once a miss has stored the sorted list, the next `execute` within five
      minutes returns that list without the repository. */
  lemma MissThenHit(memory: map<string, Entry<seq<Transaction>>>,
                    persistent: map<string, Entry<seq<Transaction>>>, dbOpen: bool,
                    txs: seq<Transaction>, answer: RepositoryAnswer, now: int, later: int)
    requires later - now < TransactionsTtl
    ensures var sorted := SortDesc(txs, DateOf);
            ExecuteResult(memory[TransactionsKey := Entry(sorted, now, TransactionsTtl)], persistent, dbOpen,
                          true, answer, later) == Listed(sorted)
  {
    SetThenGet(memory, persistent, dbOpen, TransactionsKey, SortDesc(txs, DateOf), TransactionsTtl, now, later);
  }

  // -----------------------------------------------------------------------
  // executeWithFilter
  // -----------------------------------------------------------------------

  function PeriodDays(period: Period): int
  {
    match period
    case Last7 => 7
    case Last30 => 30
    case _ => 90
  }

  /** The transactions dated on or after `days` days before `now`. */
  function RecentOnly(txs: seq<Transaction>, days: int, now: int): seq<Transaction>
  {
    Filter(txs, (t: Transaction) => t.date >= now - days * DayMs)
  }

  function ByPeriod(txs: seq<Transaction>, period: Period, now: int): seq<Transaction>
  {
    if period == All then txs else RecentOnly(txs, PeriodDays(period), now)
  }

  /** `executeWithFilter(period, useCache)`. */
  method ExecuteWithFilter(cache: CacheService<seq<Transaction>>, period: Period, useCache: bool,
                           repository: RepositoryAnswer, now: int) returns (r: Outcome)
    modifies cache`memory, cache`persistent
    ensures var all := ExecuteResult(old(cache.memory), old(cache.persistent), cache.dbOpen, useCache, repository, now);
            r == if all.Listed? then Listed(ByPeriod(all.txs, period, now)) else all
    ensures cache.memory == MemoryAfterExecute(old(cache.memory), old(cache.persistent), cache.dbOpen, useCache, repository, now)
    ensures cache.persistent == PersistentAfterExecute(old(cache.memory), old(cache.persistent), cache.dbOpen, useCache, repository, now)
  {
    r := Execute(cache, useCache, repository, now);
    if r.Listed? {
      r := Listed(ByPeriod(r.txs, period, now));
    }
  }

  /** 'all' keeps the list as it is; any other period keeps exactly the
      transactions dated on or after its cutoff, in their order. */
  lemma {:induction false} PeriodKeepsExactlyRecent(txs: seq<Transaction>, period: Period, now: int)
    ensures period == All ==> ByPeriod(txs, period, now) == txs
    ensures period != All ==>
              var kept := ByPeriod(txs, period, now);
              var cutoff := now - PeriodDays(period) * DayMs;
              (forall i :: 0 <= i < |kept| ==> kept[i] in txs && kept[i].date >= cutoff) &&
              (forall i :: 0 <= i < |txs| && txs[i].date >= cutoff ==> txs[i] in kept)
  {
  }

  /** The periods are nested: a shorter period keeps a subset of a longer one. */
  lemma PeriodsNest(txs: seq<Transaction>, now: int, t: Transaction)
    ensures t in ByPeriod(txs, Last7, now) ==> t in ByPeriod(txs, Last30, now)
    ensures t in ByPeriod(txs, Last30, now) ==> t in ByPeriod(txs, Last90, now)
  {
    var p30 := (t: Transaction) => t.date >= now - 30 * DayMs;
    var p90 := (t: Transaction) => t.date >= now - 90 * DayMs;
    if t in ByPeriod(txs, Last7, now) {
      var i :| 0 <= i < |txs| && txs[i] == t;
      assert p30(txs[i]);
    }
    if t in ByPeriod(txs, Last30, now) {
      var i :| 0 <= i < |txs| && txs[i] == t;
      assert p90(txs[i]);
    }
  }

  // -----------------------------------------------------------------------
  // getStatistics
  // -----------------------------------------------------------------------

  function DepositAmount(t: Transaction): int
  {
    if t.kind == Deposit then t.amount else 0
  }

  function WithdrawAmount(t: Transaction): int
  {
    if t.kind == Withdraw then t.amount else 0
  }

  /** The `reduce` of `getStatistics`, accumulator field by field. */
  method Tally(txs: seq<Transaction>) returns (s: Statistics)
    ensures s.total == |txs|
    ensures s.deposits == SumOf(txs, DepositAmount)
    ensures s.withdraws == SumOf(txs, WithdrawAmount)
    ensures s.balance == s.deposits - s.withdraws
  {
    s := Statistics(0, 0, 0, 0);
    var i := 0;
    while i < |txs|
      invariant 0 <= i <= |txs|
      invariant s.total == i
      invariant s.deposits == SumOf(txs[..i], DepositAmount)
      invariant s.withdraws == SumOf(txs[..i], WithdrawAmount)
      invariant s.balance == s.deposits - s.withdraws
    {
      var t := txs[i];
      assert DropLast(txs[..i + 1]) == txs[..i];
      s := s.(total := s.total + 1);
      if t.kind == Deposit {
        s := s.(deposits := s.deposits + t.amount, balance := s.balance + t.amount);
      } else if t.kind == Withdraw {
        s := s.(withdraws := s.withdraws + t.amount, balance := s.balance - t.amount);
      }
      i := i + 1;
    }
    assert txs[..i] == txs;
  }

  /** `getStatistics(useCache)`: the statistics of what `execute` gives, or
      its error. */
  method GetStatistics(cache: CacheService<seq<Transaction>>, useCache: bool,
                       repository: RepositoryAnswer, now: int) returns (r: Option<Statistics>)
    modifies cache`memory, cache`persistent
    ensures var all := ExecuteResult(old(cache.memory), old(cache.persistent), cache.dbOpen, useCache, repository, now);
            (r.Some? <==> all.Listed?) &&
            (r.Some? ==> r.value.total == |all.txs| &&
                         r.value.deposits == SumOf(all.txs, DepositAmount) &&
                         r.value.withdraws == SumOf(all.txs, WithdrawAmount) &&
                         r.value.balance == r.value.deposits - r.value.withdraws)
    ensures cache.memory == MemoryAfterExecute(old(cache.memory), old(cache.persistent), cache.dbOpen, useCache, repository, now)
    ensures cache.persistent == PersistentAfterExecute(old(cache.memory), old(cache.persistent), cache.dbOpen, useCache, repository, now)
  {
    var listed := Execute(cache, useCache, repository, now);
    if listed.Failed? {
      return None;
    }
    var s := Tally(listed.txs);
    return Some(s);
  }

  /** A transfer or an investment adds to the count and to no sum. */
  lemma {:induction false} OtherKindsOnlyCount(txs: seq<Transaction>, t: Transaction)
    requires t.kind == Transfer || t.kind == Investment
    ensures SumOf(txs + [t], DepositAmount) == SumOf(txs, DepositAmount)
    ensures SumOf(txs + [t], WithdrawAmount) == SumOf(txs, WithdrawAmount)
  {
    assert DropLast(txs + [t]) == txs;
  }

  /** Statistics do not depend on the order: the sorted list and the
      repository's list have the same sums. */
  lemma SortingKeepsSums(txs: seq<Transaction>)
    ensures SumOf(SortDesc(txs, DateOf), DepositAmount) == SumOf(txs, DepositAmount)
    ensures SumOf(SortDesc(txs, DateOf), WithdrawAmount) == SumOf(txs, WithdrawAmount)
  {
    SumOfPermutation(SortDesc(txs, DateOf), txs, DepositAmount);
    SumOfPermutation(SortDesc(txs, DateOf), txs, WithdrawAmount);
  }
}
