# Personal-finance app: caching layer and domain rules in Dafny

This project models the core of a personal-finance application. The app has
a Next.js client (`app-zone`) and an Express back end (`backend`). The
model covers:

- **The client's read-through caching layer.** `CacheService` keeps a memory
  tier and a persistent (IndexedDB) tier with time-to-live expiry. On top of
  it sit three HTTP services:
  - the enhanced HTTP service, with request de-duplication, retry and
    pattern invalidation;
  - the simple cached `http` helper;
  - the axios client, whose 401 handling queues requests behind a token
    refresh.
  The transactions use case reads through this cache, and the statement
  store invalidates its endpoints after a new transaction.
- **Domain arithmetic.**
  - Creating a transaction against the account balances (back end).
  - Reading a user's transactions newest first, with their total.
  - The investment summary and the investment transactions per name.
  - The investment catalog lookup.
  - The monthly statement and its grouping.
- **Validators.**
  - The request schemas.
  - The security middleware's screens and its rate limiter.
  - The login form's ordered checks.
  - The transaction modal's money input and its checks before a submit.
  - The mask used for sensitive log values.
- **Small state machines.**
  - The reactive state store and the statement store.
  - The route guard.
  - The dropdown and the investment selector.
  - The virtual scroll window.
  - The error-handling middleware.

Each core source file becomes one Dafny module in a file of its own.
Shared helpers are in `Common`:
- `Option`, and a JSON value with JavaScript truthiness;
- sequence helpers with JavaScript semantics, such as `split`, `join`,
  stable sort and `slice`.

Objects whose fields the source updates become classes with `modifies`
clauses. Pure helpers become functions, with lemmas about them.

The clock, the network, the repositories and the browser storage are
parameters or plain maps:
- "now" is an integer number of milliseconds;
- a fetch result is a value passed in;
- the persistent tier is a second map guarded by an "open" flag.

## Model

| member | source | states |
|---|---|---|
| CacheStore.Evict | app-zone/src/utils/cache.ts:168-172 | the loop over the memory tier keeps exactly the entries that are still valid at `now` (the sweep `Sweep`) |
| CacheStore.CacheService.constructor | app-zone/src/utils/cache.ts:12-20 | a new service starts with an empty memory tier and the database not yet open; the persistent store keeps what an earlier page stored |
| CacheStore.CacheService.DatabaseOpened | app-zone/src/utils/cache.ts:32-35 | once `indexedDB.open` succeeds the persistent tier is in use |
| CacheStore.CacheService.Set | app-zone/src/utils/cache.ts:52-72 | the entry stamped with `now` and its lifetime is written to memory, and to the persistent tier only when the database is open |
| CacheStore.CacheService.Get | app-zone/src/utils/cache.ts:79-101 | the answer is the memory entry when it is fresh, else the persistent entry when the database is open and it is fresh (then copied into memory), else nothing; a miss leaves memory unchanged and no key is ever lost |
| CacheStore.CacheService.Remove | app-zone/src/utils/cache.ts:132-144 | the key is gone from memory, and from the persistent tier when the database is open; nothing else changes |
| CacheStore.CacheService.Clear | app-zone/src/utils/cache.ts:149-161 | memory is emptied, and the persistent tier too when the database is open |
| CacheStore.CacheService.Cleanup | app-zone/src/utils/cache.ts:166-195 | both tiers keep exactly their entries that are still valid (the persistent one only when open) |
| CacheStore.ExpiresAtBoundary | app-zone/src/utils/cache.ts:125-127 | an entry is valid for `expiresIn` milliseconds after its timestamp: still valid one millisecond before, expired at the boundary |
| CacheStore.SetThenGet | app-zone/src/utils/cache.ts:52-84 | a value just stored is read back while its lifetime has not run out, whatever the persistent tier holds |
| CacheStore.MemoryHitIgnoresPersistent | app-zone/src/utils/cache.ts:81-84 | a fresh memory entry answers the read without consulting the database, and the read changes nothing |
| CacheStore.PromotionServesFromMemory | app-zone/src/utils/cache.ts:87-94 | after a hit in the persistent tier the entry is fresh in memory, so the next read is served from memory alone with the same value |
| CacheStore.LookupMissIff | app-zone/src/utils/cache.ts:79-101 | a read misses exactly when neither the memory entry nor (with the database open) the persistent entry is fresh |
| CacheStore.CleanupIsInvisible | app-zone/src/utils/cache.ts:166-195 | sweeping expired entries never changes what a read at the same instant returns, and the swept memory holds exactly the fresh keys |
| EnhancedHttp.FetchWithRetry | app-zone/src/infrastructure/http/enhanced-http.service.ts:72-95 | at most `retries + 1` attempts, all failing but the last; the result is the first successful body and its etag header, an empty etag counting as none (`|| undefined`), or, after every attempt failed, the error of the last one |
| EnhancedHttp.KeysContaining | app-zone/src/infrastructure/http/enhanced-http.service.ts:163-168 | the loop over the cache collects exactly the keys that contain the pattern |
| EnhancedHttp.EnhancedHttpService.constructor | app-zone/src/infrastructure/http/enhanced-http.service.ts:19-24 | the service starts with an empty cache and no request in flight |
| EnhancedHttp.EnhancedHttpService.GetFromCache | app-zone/src/infrastructure/http/enhanced-http.service.ts:45-56 | a valid entry is returned and kept; an expired one is deleted and nothing is returned; a missing key changes nothing |
| EnhancedHttp.EnhancedHttpService.SetCache | app-zone/src/infrastructure/http/enhanced-http.service.ts:61-67 | the entry under the key is replaced by the data stamped with `now` and its etag; every other entry is kept |
| EnhancedHttp.EnhancedHttpService.Fetch | app-zone/src/infrastructure/http/enhanced-http.service.ts:100-152 | the synchronous part of `fetch`: a non-GET goes straight to the network, a GET joins an identical one in flight, a cache-first GET is answered from a valid entry, and otherwise a new request is registered under the key |
| EnhancedHttp.EnhancedHttpService.Complete | app-zone/src/infrastructure/http/enhanced-http.service.ts:131-148 | when the request of a key finishes, the registry forgets it; success caches and returns the data, failure returns a cached value under the key if any and otherwise the error |
| EnhancedHttp.EnhancedHttpService.InvalidateCache | app-zone/src/infrastructure/http/enhanced-http.service.ts:157-171 | with no pattern the cache is emptied, otherwise exactly the keys containing the pattern are deleted |
| EnhancedHttp.DistinctBodiesDistinctKeys | app-zone/src/infrastructure/http/enhanced-http.service.ts:29-33 | requests to the same URL with the same method but bodies that serialise differently never share a cache key |
| EnhancedHttp.GetKeysSeparateUrls | app-zone/src/infrastructure/http/enhanced-http.service.ts:29-33 | two body-less GETs to different URLs never share a cache key |
| EnhancedHttp.ZeroTtlIsDefault | app-zone/src/infrastructure/http/enhanced-http.service.ts:105-108 | a configured TTL of 0 is falsy and falls back to the five-minute default |
| EnhancedHttp.AtMostFourAttempts | app-zone/src/infrastructure/http/enhanced-http.service.ts:22-24 | with three retries a request is attempted at most four times |
| EnhancedHttp.NonGetBypassesCache | app-zone/src/infrastructure/http/enhanced-http.service.ts:110-116 | a request that is not a GET neither reads nor writes the cache nor the registry |
| EnhancedHttp.SecondGetJoinsFirst | app-zone/src/infrastructure/http/enhanced-http.service.ts:118-122 | a GET issued while an identical one is in flight gets the same promise and changes nothing |
| EnhancedHttp.SettleClearsRegistry | app-zone/src/infrastructure/http/enhanced-http.service.ts:131-148 | a finished request always leaves the registry; success stores the data under the key and resolves with it; failure leaves the cache alone and resolves exactly when an entry exists |
| EnhancedHttp.CacheFirstExpiredEntryGivesNoFallback | app-zone/src/infrastructure/http/enhanced-http.service.ts:124-148 | under cache-first an expired entry is deleted on the read, so a later network failure is reported instead of falling back to it |
| EnhancedHttp.NetworkFirstFallsBackToStale | app-zone/src/infrastructure/http/enhanced-http.service.ts:124-148 | under the other strategies the cache is not read first, so a network failure falls back to whatever entry the key has, however old |
| EnhancedHttp.InvalidateExactly | app-zone/src/infrastructure/http/enhanced-http.service.ts:157-171 | after invalidation a key survives exactly when it did not contain the pattern, with its entry unchanged; no pattern empties the cache |
| SimpleHttp.HttpCache.constructor | app-zone/src/services/http.ts:13 | the module-level cache starts empty |
| SimpleHttp.HttpCache.SetCache | app-zone/src/services/http.ts:45-50 | the key's entry becomes the data stamped with `now`; every other entry is kept |
| SimpleHttp.HttpCache.ClearCache | app-zone/src/services/http.ts:55-63 | with no pattern every entry is deleted, otherwise exactly the keys containing the pattern |
| SimpleHttp.HttpCache.Fetch | app-zone/src/services/http.ts:68-98 | a GET with a fresh entry is answered from the cache; otherwise the network is asked, a failure throws and leaves the cache alone, and a successful GET stores its data |
| SimpleHttp.FreshGetSkipsNetwork | app-zone/src/services/http.ts:76-81 | a GET whose entry is fresh gets the cached data whatever the network would have said, and the cache is unchanged |
| SimpleHttp.FailureLeavesCache | app-zone/src/services/http.ts:84-88 | a response that is not ok, when the cache did not answer, throws its status and changes nothing |
| SimpleHttp.OnlyGetsWrite | app-zone/src/services/http.ts:92-95 | the only change `cachedFetch` can make to the cache is storing a successful GET's data under its key |
| SimpleHttp.PeekIgnoresAge | app-zone/src/services/http.ts:28-40 | `cache.get` still returns an entry that `isCached` already calls expired |
| SimpleHttp.ZeroTtlAlwaysFetches | app-zone/src/services/http.ts:72 | an explicit `cacheTTL` of 0 (kept by the default-parameter rule, unlike `||`) means no entry is ever fresh, so the answer never comes from the cache |
| SimpleHttp.ClearExactly | app-zone/src/services/http.ts:55-63 | after clearing with a pattern a key survives exactly when it did not contain it, with its entry unchanged; no pattern empties the cache |
| ApiClient.GetCookie | app-zone/src/lib/axios.ts:13-24 | a cookie is found only in a browser, is never empty (the `\|\| null` fallback) and never runs past the next `;` |
| ApiClient.GetCookieSingle | app-zone/src/lib/axios.ts:13-24 | a cookie string holding just `name=value` yields that value |
| ApiClient.GetCookieFound | app-zone/src/lib/axios.ts:16-21 | when `; name=` occurs exactly once in `; ` plus the cookie string, and is followed by a non-empty value that runs to the next `;` or to the end, that value comes back, wherever the cookie sits among the others |
| ApiClient.GetCookieMissing | app-zone/src/lib/axios.ts:16-23 | when `; name=` does not occur, the split gives one part and the answer is null |
| ApiClient.GetCookieDuplicated | app-zone/src/lib/axios.ts:16-23 | when `; name=` occurs twice without overlapping (a duplicated cookie name), the split gives more than two parts and the answer is null |
| ApiClient.EndpointKeyMatchesParameterlessGet | app-zone/src/lib/axios.ts:53-58 | the key `clearEndpointCache` removes is the key of a GET of that endpoint without params (or with falsy or empty params), and never the key of a GET whose params serialise to something else |
| ApiClient.DynamicEndpointsNeverCached | app-zone/src/lib/axios.ts:80-88 | a request whose URL contains `/account`, `/statement` or `/investments/transactions` is never read from the cache |
| ApiClient.InterceptRequest | app-zone/src/lib/axios.ts:72-106 | the request interceptor's decision (serve from cache, or forward with the bearer header and cache key) and the cache read it performs, which touches the memory tier only for a cacheable request |
| ApiClient.InterceptResponse | app-zone/src/lib/axios.ts:128-136 | a GET carrying a non-empty cache key stores its data for five minutes in both tiers as `set` does; any other response leaves the cache unchanged |
| ApiClient.ClearEndpointCache | app-zone/src/lib/axios.ts:53-58 | exactly the endpoint keys are removed from memory, and from the persistent tier when the database is open |
| ApiClient.UncacheableIsForwarded | app-zone/src/lib/axios.ts:87-105 | a request that is not a cacheable GET is forwarded with only its Authorization header and no cache key |
| ApiClient.ServedIff | app-zone/src/lib/axios.ts:88-103 | a cacheable request is served from the cache exactly when the cache read returns a truthy value, and then with that value; otherwise it is forwarded carrying its cache key |
| ApiClient.BearerIffToken | app-zone/src/lib/axios.ts:74-78 | a forwarded request carries `Bearer <token>` exactly when the `authToken` cookie is present and non-empty |
| ApiClient.ResponseThenServed | app-zone/src/lib/axios.ts:128-136 | once a truthy response is stored under the request's key, the same request within five minutes is served from the cache with that data |
| ApiClient.RefreshQueue.constructor | app-zone/src/lib/axios.ts:113-114 | the queue of requests waiting for a token refresh starts empty |
| ApiClient.RefreshQueue.Enqueue | app-zone/src/lib/axios.ts:153-157 | a request that meets a refresh in progress is appended to the end of the queue |
| ApiClient.RefreshQueue.ProcessQueue | app-zone/src/lib/axios.ts:116-126 | every waiter, in order, is rejected with the error when it is truthy and otherwise resolved with the token, and the queue is emptied |
| UserTransactions.Execute | app-zone/src/domain/usecases/get-user-transactions.usecase.ts:23-51 | with the cache enabled a cache hit answers (promoting a persistent entry to memory); otherwise the repository's list is sorted newest first and stored for five minutes, and a repository error is passed on with the cache untouched |
| UserTransactions.CacheHitSkipsRepository | app-zone/src/domain/usecases/get-user-transactions.usecase.ts:27-32 | when the cache holds the list, the answer is that list whatever the repository would say |
| UserTransactions.MissIsSortedPermutation | app-zone/src/domain/usecases/get-user-transactions.usecase.ts:34-46 | on a miss the answer holds exactly the repository's transactions, newest first |
| UserTransactions.MissThenHit | app-zone/src/domain/usecases/get-user-transactions.usecase.ts:39-46 | within five minutes of a miss, the next cached call returns the list the miss stored, without the repository |
| UserTransactions.ExecuteWithFilter | app-zone/src/domain/usecases/get-user-transactions.usecase.ts:56-73 | the period filter applied to whatever `execute` gives, an error being passed on; the cache ends as `execute` leaves it (a hit may promote the persistent entry, a miss stores the sorted list in memory and, with the database open, persistently) |
| UserTransactions.PeriodKeepsExactlyRecent | app-zone/src/domain/usecases/get-user-transactions.usecase.ts:62-72 | `all` keeps the list as it is; another period keeps exactly the transactions dated at or after the cutoff 7, 30 or 90 days back |
| UserTransactions.PeriodsNest | app-zone/src/domain/usecases/get-user-transactions.usecase.ts:66-72 | whatever the last 7 days keep the last 30 keep, and whatever the last 30 keep the last 90 keep |
| UserTransactions.Tally | app-zone/src/domain/usecases/get-user-transactions.usecase.ts:86-99 | the reduce counts every transaction, sums deposits and withdrawals, and its balance is deposits minus withdrawals |
| UserTransactions.GetStatistics | app-zone/src/domain/usecases/get-user-transactions.usecase.ts:78-100 | statistics exist exactly when `execute` succeeds; they count its transactions, `deposits` and `withdraws` are the sums of the deposit and the withdrawal amounts, and the balance is their difference; the cache ends as `execute` leaves it |
| UserTransactions.OtherKindsOnlyCount | app-zone/src/domain/usecases/get-user-transactions.usecase.ts:89-95 | a transfer or investment changes neither the deposit nor the withdrawal sum |
| UserTransactions.SortingKeepsSums | app-zone/src/domain/usecases/get-user-transactions.usecase.ts:39-41 | sorting by date does not change the deposit or withdrawal totals |
| StatementStore.TypeMapsAreInverse | app-zone/src/stores/useStatementStore.ts:10-18 | the two type tables are inverse bijections: `deposito` is `Credit` and `saque` is `Debit`, in both directions |
| StatementStore.Store.constructor | app-zone/src/stores/useStatementStore.ts:49-54 | the store starts with no transactions, a zero total, not loading, no error and no fetch time |
| StatementStore.Store.StartFetch | app-zone/src/stores/useStatementStore.ts:56-63 | a fetch starts only when not already loading and no truthy fetch time lies within five minutes; starting sets loading and clears the error, refusing changes nothing |
| StatementStore.Store.FinishFetch | app-zone/src/stores/useStatementStore.ts:65-98 | a body (with a missing result read as no transactions) replaces the list by its formatted transactions, keeps the total equal to their sum and records the fetch time; a failure records its message and keeps the list; loading ends either way |
| StatementStore.Store.StartAdd | app-zone/src/stores/useStatementStore.ts:101-102 | adding sets loading and clears the error |
| StatementStore.Store.FinishAdd | app-zone/src/stores/useStatementStore.ts:104-153 | a created transaction is appended (total kept equal to the sum) and the four stale endpoint keys are evicted from memory and, with the database open, from the persistent tier; a failed or empty answer records and rethrows its message and leaves the list and the cache alone |
| StatementStore.Store.RemoveTransaction | app-zone/src/stores/useStatementStore.ts:155-162 | the list loses the transactions with that id and the total stays their sum |
| StatementStore.Store.UpdateTransaction | app-zone/src/stores/useStatementStore.ts:164-173 | the transactions with that id are patched and the total stays their sum |
| StatementStore.Store.ClearError | app-zone/src/stores/useStatementStore.ts:175 | the error is cleared |
| StatementStore.TotalAppend | app-zone/src/stores/useStatementStore.ts:20-23 | appending a transaction adds its value to the total |
| StatementStore.RemoveExactly | app-zone/src/stores/useStatementStore.ts:155-162 | after removal no transaction has the id, every other one is kept, and an absent id changes nothing |
| StatementStore.RemovedTotal | app-zone/src/stores/useStatementStore.ts:155-162 | removal lowers the total by exactly the values carrying that id |
| StatementStore.UpdateTouchesOnlyThatId | app-zone/src/stores/useStatementStore.ts:164-168 | an update keeps the list's length and position by position patches exactly the transactions with that id |
| StatementStore.FreshFetchBlocksRefetch | app-zone/src/stores/useStatementStore.ts:59-61 | a fetch within five minutes of the last one is skipped, one after that is allowed, and a fetch while loading is always skipped |
| ReactiveState.ReduceWritesOnlyItsFields | app-zone/src/infrastructure/state/reactive-state.service.ts:93-117 | an action leaves every field of the state that it does not name exactly as it was |
| ReactiveState.DisjointActionsCommute | app-zone/src/infrastructure/state/reactive-state.service.ts:93-117 | two actions that write different fields give the same state in either order |
| ReactiveState.UnknownAndReset | app-zone/src/infrastructure/state/reactive-state.service.ts:32-37 | an unknown action type changes nothing, and `RESET` gives the initial state (no user, no transactions, not loading, no error) from any state |
| ReactiveState.BalanceIsDepositsMinusWithdraws | app-zone/src/infrastructure/state/reactive-state.service.ts:70-79 | the derived balance is the sum of deposits minus the sum of withdrawals; transfers and investments do not count |
| ReactiveState.AddMovesBalance | app-zone/src/infrastructure/state/reactive-state.service.ts:102-104 | adding a transaction moves the balance by its amount: up for a deposit, down for a withdrawal |
| ReactiveState.DebouncedBurst | app-zone/src/infrastructure/state/reactive-state.service.ts:88-91 | of a burst of dispatches less than 100 ms apart, only the last reaches the reducer |
| ReactiveState.BurstDropsEarlierActions | app-zone/src/infrastructure/state/reactive-state.service.ts:88-104 | two `addTransaction` calls in one burst keep only the second transaction through the debounce, while applying every action keeps both |
| ReactiveState.ReduceAllAppendsAdds | app-zone/src/infrastructure/state/reactive-state.service.ts:154-156 | applying a run of `addTransaction` calls one by one appends every transaction, in order |
| ReactiveState.ReactiveStateService.constructor | app-zone/src/infrastructure/state/reactive-state.service.ts:32-40 | the service starts in the initial state |
| ReactiveState.ReactiveStateService.Dispatch | app-zone/src/infrastructure/state/reactive-state.service.ts:126-128 | a dispatched action replaces the state by the reducer's result on it |
| InvestmentCatalog.FirstWithCode | backend/src/domain/entities/InvestmentCatalog.ts:939 | `items.find` returns an item of the list carrying the code, and finds nothing exactly when no item carries it |
| InvestmentCatalog.FirstWithCodeIsFirst | backend/src/domain/entities/InvestmentCatalog.ts:939 | the item found is the first with the code: no earlier item carries it |
| InvestmentCatalog.FirstWithCodeAppend | backend/src/domain/entities/InvestmentCatalog.ts:937-944 | searching two lists one after the other is searching their concatenation |
| InvestmentCatalog.SubcategoriesSearchFlat | backend/src/domain/entities/InvestmentCatalog.ts:938-943 | the loop over subcategories finds what a single search of all their items, in order, finds |
| InvestmentCatalog.NestedSearchIsFlatSearch | backend/src/domain/entities/InvestmentCatalog.ts:937-946 | the nested loops find what a single search of every item of the catalog, in order, finds |
| InvestmentCatalog.NameByCodeSpec | backend/src/domain/entities/InvestmentCatalog.ts:932-946 | a missing or empty code gives null; otherwise a name is returned exactly when some item carries the code, and it is the name of the first such item in catalog order |
| InvestmentController.Aggregate | backend/src/presentation/controllers/InvestmentController.ts:38-58 | the loop's totals hold exactly the names of filed transactions, each with its net amount (credits minus debits), and the names in order of first appearance |
| InvestmentController.GetInvestmentTransactions | backend/src/presentation/controllers/InvestmentController.ts:22-86 | a missing account gives the not-found answer; otherwise every transaction is listed with its investment's name, beside the summary |
| InvestmentController.OrderSpec | backend/src/presentation/controllers/InvestmentController.ts:40-50 | a name is in the summary's key order exactly when some transaction is filed under it, and no name appears twice |
| InvestmentController.UnfiledAddsNothing | backend/src/presentation/controllers/InvestmentController.ts:41-44 | a transaction without an investment code or whose code has no name adds nothing to any total and no name |
| InvestmentController.Rows | backend/src/presentation/controllers/InvestmentController.ts:61-65 | one row per name, in key order, carrying that name's net total |
| InvestmentController.SummaryRowsAreTotals | backend/src/presentation/controllers/InvestmentController.ts:61-66 | every summary row carries its name's net total, and that total is not zero |
| InvestmentController.SummarySorted | backend/src/presentation/controllers/InvestmentController.ts:67 | the summary is ordered by absolute total, largest first |
| InvestmentController.SummaryNameIsFiled | backend/src/presentation/controllers/InvestmentController.ts:61-67 | every name in the summary is a filed name with a non-zero total |
| InvestmentController.FiledNameInSummary | backend/src/presentation/controllers/InvestmentController.ts:61-67 | every filed name with a non-zero total has a row in the summary |
| InvestmentController.SummaryHasName | backend/src/presentation/controllers/InvestmentController.ts:61-67 | a name has a summary row exactly when some transaction is filed under it and its net total is not zero |
| CreateTransaction.Ledger.constructor | backend/src/domain/use-cases/CreateTransactionUseCase.ts:6-10 | a ledger starts from the accounts' balances with no stored transaction |
| CreateTransaction.Ledger.Create | backend/src/domain/use-cases/CreateTransactionUseCase.ts:20 | the repository stores a transaction carrying the request's fields under a fresh id and appends it |
| CreateTransaction.Ledger.Execute | backend/src/domain/use-cases/CreateTransactionUseCase.ts:12-33 | an unknown account raises "Account not found" (404) and changes nothing; otherwise the transaction is stored and only that account's balance moves, up by a credit and down by a debit, keeping every balance equal to its opening balance plus its transactions' net effect |
| CreateTransaction.CreditDebitCancel | backend/src/domain/use-cases/CreateTransactionUseCase.ts:23-28 | a credit followed by a debit of the same value, or the reverse, restores the balance |
| CreateTransaction.DebitMayGoNegative | backend/src/domain/use-cases/CreateTransactionUseCase.ts:19-27 | a debit larger than the balance is accepted and leaves the balance negative |
| CreateTransaction.NetEffectAppend | backend/src/domain/use-cases/CreateTransactionUseCase.ts:23-30 | the net effect of a run of transactions on an account is the sum of the net effects of its parts |
| InvestmentSummary.CategorizeStep | app-zone/src/components/investment-main/investment-main.tsx:58-90 | mapping one more row appends exactly that row's category, coloured by its position |
| InvestmentSummary.Accumulate | app-zone/src/components/investment-main/investment-main.tsx:52-90 | the map's running totals are the sum of the kept amounts, of their positive parts and of their negative parts, and its result is the categories of the kept rows in order |
| InvestmentSummary.ComputeSummary | app-zone/src/components/investment-main/investment-main.tsx:39-116 | no rows give all zeros; otherwise the totals are those of the non-zero rows, the categories are sorted by value, and fixed and variable income are the sums of the categories of each kind |
| InvestmentSummary.TotalsSplitBySign | app-zone/src/components/investment-main/investment-main.tsx:63-69 | the total is the positive total plus the negative total, the first never below zero and the second never above |
| InvestmentSummary.CategoriesSumToTotal | app-zone/src/components/investment-main/investment-main.tsx:58-90 | the chart categories' values add up to the total |
| InvestmentSummary.FixaVariavelPartition | app-zone/src/components/investment-main/investment-main.tsx:100-106 | every category is either fixed or variable income, so the two sums add up to the sum of all values |
| InvestmentSummary.FixaPlusVariavelIsTotal | app-zone/src/components/investment-main/investment-main.tsx:98-113 | after sorting, fixed plus variable income is still the total invested |
| InvestmentSummary.CategoriesSorted | app-zone/src/components/investment-main/investment-main.tsx:98 | the categories are ordered by value, largest first |
| InvestmentSummary.CategoriesComeFromRows | app-zone/src/components/investment-main/investment-main.tsx:58-90 | every category comes from a non-zero row of the summary, named after it (or "Outros") and carrying its amount |
| InvestmentSummary.ColoursCycle | app-zone/src/components/investment-main/investment-main.tsx:51-87 | neighbouring categories get different colours, and the colours repeat every ten |
| InvestmentSummary.PositionStep | app-zone/src/components/investment-main/investment-main.tsx:84 | the colour index moves to the next palette entry and wraps after the tenth |
| InvestmentSummary.NeighbourColoursDiffer | app-zone/src/components/investment-main/investment-main.tsx:51 | consecutive palette entries, the last and the first included, are different colours |
| InvestmentSummary.FixedIncomeBySubstring | app-zone/src/components/investment-main/investment-main.tsx:72-78 | the fixed-income test is a substring test on the name lower-cased over Latin-1: "CDB Prefixado" is fixed income, and so is "Criptomoedas", because it contains "cri" |
| InvestmentSelector.Selector.constructor | app-zone/src/components/investment-selector/investment-selector.tsx:42-44 | the selector starts closed, with an empty search and no expanded category |
| InvestmentSelector.Selector.SetSearchTerm | app-zone/src/components/investment-selector/investment-selector.tsx:119-127 | typing a new term stores it and, through the effect, expands exactly the categories the filter keeps (none for an empty term); setting the term it already has leaves the expanded categories as they were, because the effect does not run |
| InvestmentSelector.Selector.ToggleOpen | app-zone/src/components/investment-selector/investment-selector.tsx:178 | a click on the trigger opens or closes the list, and does nothing when the selector is disabled |
| InvestmentSelector.Selector.MouseDown | app-zone/src/components/investment-selector/investment-selector.tsx:75-93 | while the list is open, a mouse-down outside both the trigger's container and the mounted dropdown closes it; any other mouse-down leaves it as it was |
| InvestmentSelector.Selector.ToggleCategory | app-zone/src/components/investment-selector/investment-selector.tsx:129-139 | toggling removes the id from the expanded set when present and adds it otherwise |
| InvestmentSelector.Selector.HandleSelect | app-zone/src/components/investment-selector/investment-selector.tsx:141-145 | the item and its category id go to `onSelect`, the list closes and the search is cleared; clearing a non-empty search collapses every category, while with the search already empty the categories the user expanded stay expanded |
| InvestmentSelector.ToggleFlipsOne | app-zone/src/components/investment-selector/investment-selector.tsx:129-139 | a toggle flips the membership of its own id only, and toggling twice restores the set |
| InvestmentSelector.AutoExpandRule | app-zone/src/components/investment-selector/investment-selector.tsx:96-127 | an empty term shows every category and expands none; a term expands exactly the categories the filter keeps |
| InvestmentSelector.NoEmptyGroups | app-zone/src/components/investment-selector/investment-selector.tsx:114-116 | under a search no category without subcategories and no subcategory without items is shown |
| InvestmentSelector.ShownItemsMatch | app-zone/src/components/investment-selector/investment-selector.tsx:99-116 | every item shown under a search comes from the same subcategory of the same category of the catalog, and its name, its description, its category's name or its subcategory's name contains the term lower-cased over Latin-1 |
| InvestmentSelector.MatchingItemsShown | app-zone/src/components/investment-selector/investment-selector.tsx:99-116 | every item of the catalog that matches the term, compared after lower-casing over Latin-1, is shown, in its own category and subcategory |
| Statement.FirstOfMonth | app-zone/src/components/statement/statement.tsx:31 | `new Date(year, month - k, 1)` is a real calendar date: a month before January rolls back into the previous year |
| Statement.GroupByMonth | app-zone/src/components/statement/statement.tsx:42-59 | the reduce's groups hold exactly the months that occur, in order of first appearance, each with the transactions of that month in their original order |
| Statement.MonthsBackByIndex | app-zone/src/components/statement/statement.tsx:30-37 | a date is on or after the first day of the month `k` months back exactly when its month index is at least the current one minus `k` |
| Statement.PeriodKeepsExactly | app-zone/src/components/statement/statement.tsx:15-39 | `current` keeps this month's transactions, `last3` the last three months, `last6` the last six, and `all` or any other period keeps everything |
| Statement.PeriodsNest | app-zone/src/components/statement/statement.tsx:25-37 | whatever the current month keeps the last three months keep, and whatever they keep the last six keep |
| Statement.FilterByPeriodExactly | app-zone/src/components/statement/statement.tsx:15-39 | `all` returns the list itself; otherwise a transaction is kept exactly when it is in the list and in the period |
| Statement.MonthsSpec | app-zone/src/components/statement/statement.tsx:43-53 | the month keys are exactly the months of the transactions, without repetition |
| Statement.GroupSpec | app-zone/src/components/statement/statement.tsx:43-53 | a month's group holds exactly the transactions of that month, in their original order |
| Statement.SizeTotalStep | app-zone/src/components/statement/statement.tsx:50-53 | pushing a transaction adds one to its month's group and nothing to the others |
| Statement.OccursOnce | app-zone/src/components/statement/statement.tsx:50-52 | a month key that is never repeated occurs once if present |
| Statement.GroupSizesSumToLength | app-zone/src/components/statement/statement.tsx:42-59 | every transaction lands in exactly one group: the group sizes add up to the number of transactions |
| Statement.MonthTotalIsCreditsMinusDebits | app-zone/src/components/statement/statement.tsx:168-171 | a month's total is its credits (type `Credit` or `deposito`) minus everything else |
| SecurityMiddleware.Guard.constructor | app-zone/src/infrastructure/security/security.middleware.ts:8-12 | the rate-limit table starts empty and the blocked list is given |
| SecurityMiddleware.Guard.CheckRateLimit | app-zone/src/infrastructure/security/security.middleware.ts:20-38 | one step of the fixed-window limiter on the table, keeping every count between 1 and 30 |
| SecurityMiddleware.Guard.Handle | app-zone/src/infrastructure/security/security.middleware.ts:77-139 | the middleware's answer and its effect on the rate-limit table, which only the rate check changes |
| SecurityMiddleware.LimitByRoute | app-zone/src/infrastructure/security/security.middleware.ts:15-22 | the limit is 5 exactly for paths starting with a sensitive route and 30 for every other path |
| SecurityMiddleware.RateStepCases | app-zone/src/infrastructure/security/security.middleware.ts:20-38 | a new or expired entry opens a one-minute window with count 1 and allows; a full window refuses and changes nothing; otherwise the count goes up by one and the request is allowed; no other IP's entry changes |
| SecurityMiddleware.WindowAllowsAtMostLimit | app-zone/src/infrastructure/security/security.middleware.ts:27-37 | inside an open window a request is allowed exactly when the count is below the route's limit, and each allowed request counts once |
| SecurityMiddleware.TokenNeedsThreeParts | app-zone/src/infrastructure/security/security.middleware.ts:43-61 | a token that does not split into three parts on '.' is refused, and one with three decodable parts is accepted |
| SecurityMiddleware.TokenWithoutDotRefused | app-zone/src/infrastructure/security/security.middleware.ts:45-46 | a token without a dot is refused whatever the decoder says |
| SecurityMiddleware.ChecksInOrder | app-zone/src/infrastructure/security/security.middleware.ts:77-139 | a blocked IP is refused with 403 before the rate check runs; then the rate limit (429), the query screen (400), and the token check on protected routes (redirect to login) apply in that order; only a request passing all four goes on |
| RouteGuard.Middleware | app-zone/src/middleware.ts:11-55 | any security answer whose status is not 200 is returned as it is; otherwise the redirect rules decide, and the rate-limit table changes exactly as the security middleware changes it |
| RouteGuard.RouteRules | app-zone/src/middleware.ts:18-47 | a signed-in visitor is sent from "/" and "/login" to the dashboard, an anonymous one from the protected pages to the login page, and every other request passes, forwarding the token exactly when there is one |
| RouteGuard.MalformedTokenOnProtectedPage | app-zone/src/infrastructure/security/security.middleware.ts:109-121 | a signed-in visitor on the dashboard whose token is not JWT-shaped is redirected to the login page by the security check |
| VirtualScroll.FloorDiv | app-zone/src/hooks/usePerformance.tsx:73 | `Math.floor(a / b)` is the largest whole number of rows of height `b` that fit in `a` |
| VirtualScroll.CeilDiv | app-zone/src/hooks/usePerformance.tsx:77 | `Math.ceil(a / b)` is the smallest whole number of rows of height `b` that cover `a` |
| VirtualScroll.WindowBounds | app-zone/src/hooks/usePerformance.tsx:71-81 | the window never starts before the list or ends after it, and the block is offset by the height of the skipped rows |
| VirtualScroll.VisibleIsSlice | app-zone/src/hooks/usePerformance.tsx:71-80 | with non-negative inputs the rendered rows are exactly the rows from the start index up to the end index, and none when the window is empty |
| VirtualScroll.ViewportRowsRendered | app-zone/src/hooks/usePerformance.tsx:71-80 | every row that shows in the viewport lies inside the rendered window |
| VirtualScroll.NegativeBufferWrapsSlice | app-zone/src/hooks/usePerformance.tsx:75-80 | a negative buffer can make the end index negative, and `slice` then counts it from the end of the list, so rows are rendered although the start index lies past the end index |
| Masking.SliceFrom | backend/src/infrastructure/services/EncryptionService.ts:64 | `slice(start)` returns a suffix of the text, never longer than it |
| Masking.MaskAsWritten | backend/src/infrastructure/services/EncryptionService.ts:59-65 | as the code stands, a positive count keeps the text's length, but a count of zero doubles it |
| Masking.Mask | backend/src/infrastructure/services/EncryptionService.ts:59-65 | the mask always has the text's length |
| Masking.MaskShape | backend/src/infrastructure/services/EncryptionService.ts:59-65 | a text no longer than the count, or a count of zero or below, gives all stars; otherwise the stars cover all but the last `visibleChars` characters, which are kept as they are |
| Masking.DefaultShowsAtMostFour | backend/src/infrastructure/services/EncryptionService.ts:59 | with the default count of four, at most the last four characters show, and a text of four characters or fewer is all stars |
| Masking.AsWrittenAgreesForPositiveCounts | backend/src/infrastructure/services/EncryptionService.ts:59-65 | for every positive count the code already computes the corrected mask |
| Masking.ZeroCountLeaksText | backend/src/infrastructure/services/EncryptionService.ts:63-64 | `mask("1234", 0)` is "****1234", where the corrected mask gives "****" |
| Masking.ZeroCountLeaksAnyText | backend/src/infrastructure/services/EncryptionService.ts:63-64 | for every non-empty text a count of zero returns a row of stars followed by the whole text, twice the text's length |
| Schemas.FirstLine | backend/src/shared/validators/schemas.ts:16 | the part of the password the look-aheads scan (`.` stops at a line terminator) is the longest prefix without a line terminator |
| Schemas.SignupCredentialsLogIn | backend/src/shared/validators/schemas.ts:6-22 | every e-mail and password a new user may register with also pass the login schema |
| Schemas.UsernameExamples | backend/src/shared/validators/schemas.ts:7-11 | a username needs at least three code units, all letters, digits or `_`, and must be a string |
| Schemas.UsernameLengthInCharacters | backend/src/shared/validators/schemas.ts:7-11 | an accepted username is plain ASCII, so its 3 to 50 code units are 3 to 50 characters |
| Schemas.FirstLineOf | backend/src/shared/validators/schemas.ts:16 | a line without terminators, followed by nothing or by a terminator, is the password's first line |
| Schemas.PasswordExamples | backend/src/shared/validators/schemas.ts:13-16 | "Abcdefg1", with an upper-case letter, a lower-case letter and a digit in eight characters, is a strong password |
| Schemas.ShortPasswordRefused | backend/src/shared/validators/schemas.ts:13-15 | a password of fewer than eight UTF-16 code units is refused, whatever it contains |
| Schemas.PasswordLengthInCodeUnits | backend/src/shared/validators/schemas.ts:13-16 | `.min(8)` counts UTF-16 code units: "Aa1" followed by three or more characters outside the Basic Multilingual Plane (emoji) is a strong password, although with three or four of them it has fewer than eight characters |
| Schemas.PasswordNeedsUpperCase | backend/src/shared/validators/schemas.ts:13-16 | a password without an upper-case letter is refused, whatever its length |
| Schemas.PasswordDigitAfterLineBreak | backend/src/shared/validators/schemas.ts:16 | a password whose only digits come after a line break is refused, because the look-aheads do not cross lines |
| Schemas.TransactionValueBounds | backend/src/shared/validators/schemas.ts:37-47 | a transaction is accepted exactly when its value is positive and at most one billion; the type must be exactly `Credit` or `Debit`, the category non-empty, and the investment category absent, null or a string |
| Schemas.QueryPaging | backend/src/shared/validators/schemas.ts:49-56 | `limit` must be a whole number from 1 to 100 and `offset` a whole number from 0, and both may be absent |
| Schemas.AccountTypes | backend/src/shared/validators/schemas.ts:73-75 | the account type may be absent or one of the three upper-case names, and nothing else (not even null) |
| TransactionModal.PadToThree | app-zone/src/components/transaction-modal/transaction-modal.tsx:49-52 | the `while` loop left-pads the digits with '0' to at least three characters |
| TransactionModal.Modal.constructor | app-zone/src/components/transaction-modal/transaction-modal.tsx:33-38 | the dialog starts with no type, category or investment, the money text "0,00" and no error |
| TransactionModal.Modal.HandleMoneyChange | app-zone/src/components/transaction-modal/transaction-modal.tsx:40-63 | input without digits shows "0,00" and keeps the error; otherwise the kept digits, padded to three, are formatted and the error is cleared |
| TransactionModal.Modal.SelectType | app-zone/src/components/transaction-modal/transaction-modal.tsx:188-193 | choosing a type records it and clears the category, the investment and the error |
| TransactionModal.Modal.SelectCategory | app-zone/src/components/transaction-modal/transaction-modal.tsx:212-215 | choosing a category records it and clears the investment and the error |
| TransactionModal.Modal.SelectInvestment | app-zone/src/components/transaction-modal/transaction-modal.tsx:230-243 | the investment selector, shown only under "Investimentos", records the investment and clears the error |
| TransactionModal.Modal.Submit | app-zone/src/components/transaction-modal/transaction-modal.tsx:65-121 | a failing check shows its message and sends nothing; otherwise the payload is sent, and success resets the dialog to "0,00" with nothing chosen and closes it, while failure shows the error's message (or the default) and keeps the choices |
| TransactionModal.LeadingZero | app-zone/src/components/transaction-modal/transaction-modal.tsx:51 | one leading '0' keeps the text all digits and does not change its value |
| TransactionModal.LeadingZeros | app-zone/src/components/transaction-modal/transaction-modal.tsx:50-52 | any number of leading zeros keeps the text all digits and does not change its value |
| TransactionModal.PaddedShape | app-zone/src/components/transaction-modal/transaction-modal.tsx:49-52 | padding gives at least three characters (exactly the digits when there are already three), ends with the digits, adds only zeros in front and keeps the number in cents |
| TransactionModal.KeptDigits | app-zone/src/components/transaction-modal/transaction-modal.tsx:41 | stripping keeps exactly the input's digits and nothing else |
| TransactionModal.SubmitChecksInOrder | app-zone/src/components/transaction-modal/transaction-modal.tsx:66-89 | each message belongs to its check, in order (type, category, investment under "Investimentos", positive value), and the submit goes ahead exactly when all four pass |
| TransactionModal.PayloadShape | app-zone/src/components/transaction-modal/transaction-modal.tsx:93-102 | the payload carries the value in cents and the category, is a debit exactly for `saque` (anything else falls back to credit), and carries the investment's code exactly when one is selected |
| TransactionModal.CategoriesForTypeCases | app-zone/src/components/transaction-modal/transaction-modal.tsx:126-134 | no categories or no type give the empty list; `deposito` lists the credit categories and `saque` the debit ones (empty when missing); any other type throws on the unmapped lookup |
| TransactionModal.InvestmentOnlyForInvestments | app-zone/src/components/transaction-modal/transaction-modal.tsx:99-102 | while the dialog's invariant holds, a payload names an investment only under the "Investimentos" category |
| TransactionModal.NewTypeNeedsCategory | app-zone/src/components/transaction-modal/transaction-modal.tsx:188-193 | right after a type is chosen, a submit asks for a category |
| LoginForm.Form.constructor | app-zone/src/components/login-form/login-form.tsx:15-24 | the form starts in login mode with every field empty, no error and no success message |
| LoginForm.Form.ValidateForm | app-zone/src/components/login-form/login-form.tsx:40-74 | the form is valid exactly when no check fails; otherwise the first failing check's message is shown |
| LoginForm.Form.ToggleMode | app-zone/src/components/login-form/login-form.tsx:117-128 | the mode switches between login and sign-up, and the fields, the error and the success message are cleared |
| LoginForm.LoginAcceptsExactly | app-zone/src/components/login-form/login-form.tsx:41-54 | in login mode the form passes exactly when both fields are filled, the e-mail matches the pattern and the password has at least six UTF-16 code units |
| LoginForm.SignupAcceptsExactly | app-zone/src/components/login-form/login-form.tsx:56-71 | sign-up passes exactly when login would, the username has at least three UTF-16 code units and the two passwords agree |
| LoginForm.SignupChecksLoginFirst | app-zone/src/components/login-form/login-form.tsx:40-71 | whenever login mode refuses the form, sign-up refuses it with the same message |
| LoginForm.MessagesInOrder | app-zone/src/components/login-form/login-form.tsx:40-71 | the missing-field message appears exactly when a field is empty, the e-mail message exactly when both are filled and the e-mail is malformed, and the mismatch message only in sign-up after every other check passed |
| LoginForm.EmailShapeMeans | app-zone/src/components/login-form/login-form.tsx:46 | an accepted e-mail has at least five characters, no white space, and a dot somewhere after its '@' |
| LoginForm.EmailExamples | app-zone/src/components/login-form/login-form.tsx:46 | "a@b.co" matches the pattern; "a@b", "@b.c" and "a b@c.d" do not |
| LoginForm.ToggleTwice | app-zone/src/components/login-form/login-form.tsx:118 | toggling always changes the mode, and toggling twice restores it |
| ErrorHandler.AppErrorAnswersAsItSays | backend/src/presentation/middlewares/errorHandler.ts:16-22 | an application error answers with its own status and message, and carries its details exactly when they are truthy |
| ErrorHandler.ValidationErrorDetails | backend/src/presentation/middlewares/errorHandler.ts:25-36 | a validation error gives 400 and one detail per issue, in order, each naming the issue's dotted field path and its message |
| ErrorHandler.PrismaCodes | backend/src/presentation/middlewares/errorHandler.ts:39-58 | a known database error with code P2002 gives 409, with P2025 gives 404, and with any other code falls through to 500 |
| ErrorHandler.RulesInOrder | backend/src/presentation/middlewares/errorHandler.ts:16-77 | the first matching rule decides: 500 comes only from an unmatched error or an application error that says 500, a validation error always gives 400, and a non-application error can only give 400, 404, 409 or 500 |
| ErrorHandler.ProductionHidesInternals | backend/src/presentation/middlewares/errorHandler.ts:71-77 | in production an unhandled error answers "Internal server error" without a stack; elsewhere it shows its message and stack |
| ErrorHandler.StackOnlyWhenUnhandled | backend/src/presentation/middlewares/errorHandler.ts:71-77 | a stack is only ever shown outside production, for a 500 that is not an application error |
| Dropdown.SelectedOnly | app-zone/src/components/dropdown/dropdown.tsx:68-72 | choosing keeps the number of options |
| Dropdown.Menu.constructor | app-zone/src/components/dropdown/dropdown.tsx:18-19 | the dropdown starts closed with nothing selected |
| Dropdown.Menu.ToggleOpen | app-zone/src/components/dropdown/dropdown.tsx:59-63 | the list opens or closes, unless the dropdown is disabled |
| Dropdown.Menu.HandleSelect | app-zone/src/components/dropdown/dropdown.tsx:65-78 | when disabled nothing changes and nothing is reported; otherwise the loop leaves only the chosen option selected, the option is recorded, the list closes, and the option goes to `onSelect` when there is one |
| Dropdown.ExactlyOneSelected | app-zone/src/components/dropdown/dropdown.tsx:68-72 | after a choice exactly one option, the chosen one, is selected, and no caption or value changes |
| Dropdown.LastChoiceWins | app-zone/src/components/dropdown/dropdown.tsx:68-72 | a choice forgets the earlier ones: choosing after another choice is choosing alone, and choosing twice is choosing once |

## Left out

- The IndexedDB mechanics of `CacheService` (opening the database, its transactions and cursor callbacks) are left out. The persistent tier is a second map updated synchronously, and an open database is a flag.
- Timers are left out: the periodic cache cleanup, the delay between retries, and `useDebounce`, `useThrottle` and `useLazyLoad`. A cleanup or a retry is an operation the caller performs.
- RxJS `distinctUntilChanged` on the derived streams of the reactive state is left out, because it only suppresses repeated notifications. The debounce is modelled only for a single burst (see Findings).
- The 401 `isRefreshing` race and the `window.location` redirect of the axios client are concurrency and navigation. Only `processQueue`, which settles the waiting requests, is modelled.
- Network and database I/O (fetch, axios, the Prisma repositories) is left out. Every answer from the network or a repository is a parameter of the operation that receives it.
- Setting and deleting cookies is left out; the cookie string read by `getCookie` is a parameter.
- `prefetch` of the enhanced HTTP service is left out. It only calls `fetch` and drops the result.
- Floating point and locale formatting are left out:
  - the percentages of the investment summary;
  - `parseFloat` and `toLocaleString` in the transaction dialog, whose formatted value and amount in cents are parameters (so NaN is not modelled);
  - the month names in the statement, which become a year and month index.
- Date parsing and time zones are left out. The use case works on millisecond instants; the statement works on calendar fields (year, month, day) given with each transaction.
- Library checks are predicates given as parameters, because their regular-expression engines are not modelled:
  - zod's e-mail and ISO date-time checks;
  - the suspicious-pattern screen of the security middleware;
  - the base64 decoding in `isValidTokenFormat`.
- Response headers are left out: the content-security policy and the security headers. The `x-user-token` header is only recorded as the token a pass-through carries.
- `Object.entries` lists integer-like keys before the others. The model takes keys in insertion order, which is the order for the non-numeric names and keys the code uses.
- StatementStore.Store.UpdateTransaction: a `Partial` update whose field is explicitly `undefined` is not modelled. A field is either set or absent.
- API transaction types other than Credit and Debit, and the extra fields of the API records, are left out.
- The source shares one cache singleton between callers with different data types. The model gives each caller its own typed `CacheService`.
- Common.SortDesc: the contract states order and permutation but not stability.
- `UpdateUserSchema` and `CreateInvestmentSchema` are not part of this model.
- CreateTransaction.Execute does not model a failure between its two writes, which would leave a transaction stored with the balance not updated. Nor does it model interleaved concurrent executes. The use case reads the account, awaits the create, then writes a balance computed from the value it read. So two requests on one account can both read the same balance, and the later write loses the other's effect. The ledger invariant of `CreateTransaction.Ledger.Execute` holds for executes that run one after another.
- CreateTransaction.Ledger.Execute: the ledger invariant is stated for sequential executes only; the lost update under concurrent requests is not modelled (see the line above).
- The error middleware's console log is left out, and so is the constant `result: null` of its bodies.
- Dropdown: the chosen option is given by its position in the option array rather than by object identity. Several dropdowns sharing one module-level option list and the click-outside effect are left out.
- The login form's `handleInputChange` and the reset after a successful sign-up, which runs on a timer, are left out.
- Integers are unbounded. Money values are integer cents or bigints, and no JavaScript number precision limit is modelled.
- The positioning effects of the investment selector's dropdown are presentation and are left out.
- InvestmentSelector: `Common.Lower`, the lower-casing used for the search, maps only the Basic Latin and Latin-1 capitals. JavaScript's `toLowerCase` follows the full Unicode case mapping, and can even change a string's length ('İ' becomes "i̇"). So for a Greek, Cyrillic or other non-Latin-1 search term or name, `FilteredCategories` can keep different items from the component.
- ShownItemsMatch: "contains the lower-cased term" is stated with the Latin-1-only `Common.Lower`, not with JavaScript's Unicode `toLowerCase`.
- MatchingItemsShown: completeness is stated against the Latin-1-only `Common.Lower`, not against JavaScript's Unicode `toLowerCase`.
- InvestmentSummary.IsRendaFixa uses the Latin-1-only `Common.Lower` in place of JavaScript's Unicode `toLowerCase`. Every fixed-income keyword is written in lower-case Latin-1 letters, so only names with capitals outside Latin-1 can be classified differently.
- FixedIncomeBySubstring: the substring test is stated on the Latin-1-only `Common.Lower`, not on JavaScript's Unicode `toLowerCase` (see the line above).
- Masking: `mask` counts and slices characters (code points), where JavaScript's `text.length` and `slice(-visibleChars)` count UTF-16 code units. The two differ for text outside the Basic Multilingual Plane. The source gives `mask("a😀")` three stars where the model gives two, and `mask("ab😀", 1)` keeps a lone low surrogate, which a Dafny string cannot hold. MaskAsWritten, Mask and the lemmas about them therefore agree with the source on text in the Basic Multilingual Plane only.
- MaskAsWritten: `text.length` and `slice` are taken in characters, not UTF-16 code units (see the line above).
- VirtualScroll: the row height is required to be positive. The hook divides by it and would produce `Infinity` or `NaN` otherwise.

## Findings

| source | as written | input that shows it | evidently intended | confidence | as-written member | corrected member |
|---|---|---|---|---|---|---|
| app-zone/src/infrastructure/state/reactive-state.service.ts:88-91 | the action stream is piped through `debounceTime(100)`, so of actions dispatched less than 100 ms apart only the last is reduced | two `addTransaction(a)`, `addTransaction(b)` calls in one burst keep only `b` (lemma `ReactiveState.BurstDropsEarlierActions`) | every dispatched action is applied, as the setters `addTransaction`, `setLoading` and the others promise | not executed | ReactiveState.DebouncedBurst | ReactiveState.ReactiveStateService.Dispatch |
| backend/src/infrastructure/services/EncryptionService.ts:63-64 | `text.slice(-visibleChars)` with a count of 0 is `slice(0)`, the whole text, so the result is stars followed by the unmasked text | `mask("1234", 0)` gives `"****1234"` (lemmas `Masking.ZeroCountLeaksText`, `Masking.ZeroCountLeaksAnyText`) | all stars, the same length as the text | not executed | Masking.MaskAsWritten | Masking.Mask |
