/** The statement store of app-zone/src/stores/useStatementStore.ts: the list
    of the user's transactions, their total, and the loading, error and
    last-fetch flags, updated by the store's actions.

    The two asynchronous actions are split at their `await`: a `Start`
    method is what runs before the request, a `Finish` method what runs
    when the answer is in. The answers are parameters. */
module StatementStore {
  import opened Common
  import opened CacheStore
  import opened ApiClient

  /** `TransactionType`, as the screens name it. */
  datatype TxType = Deposito | Saque

  /** `Type`, as the backend names it. */
  datatype ApiType = Credit | Debit

  /** The modelled fields of `TransactionProps`; `value` is in cents. */
  datatype Tx = Tx(id: string, transactionType: TxType, value: int, date: string, accountId: Option<string>)

  /** A `Partial<TransactionProps>`: the fields it sets. */
  datatype Patch = Patch(
    id: Option<string>,
    transactionType: Option<TxType>,
    value: Option<int>,
    date: Option<string>,
    accountId: Option<Option<string>>)

  /** A transaction as the backend sends it. */
  datatype ApiTx = ApiTx(id: string, date: string, kind: ApiType, value: int, accountId: string)

  /** The answer to `fetch("/statement")`: the body's `result` (possibly
      null), or the message of the error thrown on the way. */
  datatype StatementAnswer = StatementBody(result: Option<seq<ApiTx>>) | StatementFailed(message: string)

  /** The answer to `fetch("/transactions", POST)`. */
  datatype CreateAnswer = CreatedBody(result: Option<ApiTx>) | CreateFailed(message: string)

  const CacheDuration: int := 5 * 60 * 1000
  const InvalidResponse: string := "Resposta inválida do backend"

  /** The endpoints whose cached answers a new transaction makes stale. */
  const StaleAfterCreate: seq<string> := ["/account", "/statement", "/investments/transactions", "/investments/catalog"]

  /** `transactionTypeToApiType`. */
  function ToApiType(t: TxType): ApiType
  {
    match t
    case Deposito => Credit
    case Saque => Debit
  }

  /** `apiTypeToTransactionType`. */
  function FromApiType(a: ApiType): TxType
  {
    match a
    case Credit => Deposito
    case Debit => Saque
  }

  /** The two type maps are inverse bijections. */
  lemma TypeMapsAreInverse(t: TxType, a: ApiType)
    ensures FromApiType(ToApiType(t)) == t
    ensures ToApiType(FromApiType(a)) == a
    ensures ToApiType(t) == a <==> FromApiType(a) == t
  {
  }

  function ValueOf(t: Tx): int
  {
    t.value
  }

  /** `calculateTotal`: the plain sum of the values, whatever their type. */
  function Total(txs: seq<Tx>): int
  {
    SumOf(txs, ValueOf)
  }

  /** The mapping of a fetched transaction into the store's shape. */
  function Format(a: ApiTx): Tx
  {
    Tx(a.id, FromApiType(a.kind), a.value, a.date, Some(a.accountId))
  }

  /** `{ ...item, ...updatedData }`. */
  function Apply(t: Tx, p: Patch): Tx
  {
    Tx(if p.id.Some? then p.id.value else t.id,
       if p.transactionType.Some? then p.transactionType.value else t.transactionType,
       if p.value.Some? then p.value.value else t.value,
       if p.date.Some? then p.date.value else t.date,
       if p.accountId.Some? then p.accountId.value else t.accountId)
  }

  /** The list after `removeTransaction(id)`. */
  function Removed(txs: seq<Tx>, id: string): seq<Tx>
  {
    Filter(txs, (t: Tx) => t.id != id)
  }

  /** The list after `updateTransaction(id, patch)`. */
  function Updated(txs: seq<Tx>, id: string, patch: Patch): seq<Tx>
  {
    Map(txs, (t: Tx) => if t.id == id then Apply(t, patch) else t)
  }

  /** The guard of `getTransactions`: not while loading, and not while the
      last fetch (when truthy) is younger than five minutes. */
  predicate FetchAllowed(loading: bool, lastFetch: Option<int>, now: int)
  {
    !loading && !(lastFetch.Some? && lastFetch.value != 0 && now - lastFetch.value < CacheDuration)
  }

  class Store {
    var transactions: seq<Tx>
    var total: int
    var loading: bool
    var error: Option<string>
    var lastFetch: Option<int>

    /** `total` is always the sum of the listed values. */
    ghost predicate Valid()
      reads this
    {
      total == Total(transactions)
    }

    constructor ()
      ensures Valid()
      ensures transactions == [] && total == 0 && !loading && error.None? && lastFetch.None?
    {
      transactions := [];
      total := 0;
      loading := false;
      error := None;
      lastFetch := None;
    }

    /** `getTransactions` up to its request: either a no-op, or the request
        starts with `loading` set and the error cleared. */
    method StartFetch(now: int) returns (started: bool)
      requires Valid()
      modifies this`loading, this`error
      ensures Valid()
      ensures started == FetchAllowed(old(loading), lastFetch, now)
      ensures started ==> loading && error.None?
      ensures !started ==> loading == old(loading) && error == old(error)
    {
      if loading {
        return false;
      }
      if lastFetch.Some? && lastFetch.value != 0 && now - lastFetch.value < CacheDuration {
        return false;
      }
      loading := true;
      error := None;
      return true;
    }

    /** The rest of `getTransactions` once `/statement` has answered at
        time `now`. */
    method FinishFetch(answer: StatementAnswer, now: int)
      requires Valid()
      modifies this
      ensures Valid()
      ensures !loading
      ensures answer.StatementBody? ==>
                transactions == Map(if answer.result.Some? then answer.result.value else [], Format) &&
                lastFetch == Some(now) && error == old(error)
      ensures answer.StatementFailed? ==>
                error == Some(answer.message) &&
                transactions == old(transactions) && lastFetch == old(lastFetch)
    {
      match answer {
        case StatementBody(result) =>
          var fetched := if result.Some? then result.value else [];
          transactions := Map(fetched, Format);
          total := Total(transactions);
          loading := false;
          lastFetch := Some(now);
        case StatementFailed(message) =>
          error := Some(message);
          loading := false;
      }
    }

    /** `addTransaction` up to its request. */
    method StartAdd()
      requires Valid()
      modifies this`loading, this`error
      ensures Valid()
      ensures loading && error.None?
    {
      loading := true;
      error := None;
    }

    /** The rest of `addTransaction` once `/transactions` has answered: the
        new transaction is appended and the stale endpoints are dropped from
        the shared cache; a failure or an empty result sets the error, which
        is also what the action rethrows. */
    method FinishAdd(answer: CreateAnswer, cache: CacheService<Json>) returns (thrown: Option<string>)
      requires Valid()
      modifies this, cache`memory, cache`persistent
      ensures Valid()
      ensures !loading && lastFetch == old(lastFetch)
      ensures thrown.None? <==> answer.CreatedBody? && answer.result.Some?
      ensures thrown.None? ==>
                var a := answer.result.value;
                transactions == old(transactions) + [Tx(a.id, FromApiType(a.kind), a.value, a.date, None)] &&
                error == old(error) &&
                cache.memory == old(cache.memory) - EndpointKeys(StaleAfterCreate) &&
                cache.persistent == if cache.dbOpen then old(cache.persistent) - EndpointKeys(StaleAfterCreate)
                                    else old(cache.persistent)
      ensures thrown.Some? ==>
                error == thrown && transactions == old(transactions) &&
                cache.memory == old(cache.memory) && cache.persistent == old(cache.persistent)
    {
      if answer.CreateFailed? {
        error := Some(answer.message);
        loading := false;
        return Some(answer.message);
      }
      if answer.result.None? {
        error := Some(InvalidResponse);
        loading := false;
        return Some(InvalidResponse);
      }
      var a := answer.result.value;
      transactions := transactions + [Tx(a.id, FromApiType(a.kind), a.value, a.date, None)];
      total := Total(transactions);
      loading := false;
      ClearEndpointCache(cache, StaleAfterCreate);
      return None;
    }

    /** `removeTransaction(id)`. */
    method RemoveTransaction(id: string)
      requires Valid()
      modifies this`transactions, this`total
      ensures Valid()
      ensures transactions == Removed(old(transactions), id)
    {
      transactions := Removed(transactions, id);
      total := Total(transactions);
    }

    /** `updateTransaction(id, updatedData)`. */
    method UpdateTransaction(id: string, patch: Patch)
      requires Valid()
      modifies this`transactions, this`total
      ensures Valid()
      ensures transactions == Updated(old(transactions), id, patch)
    {
      transactions := Updated(transactions, id, patch);
      total := Total(transactions);
    }

    /** `clearError()`. */
    method ClearError()
      modifies this`error
      ensures error.None?
    {
      error := None;
    }
  }

  // -----------------------------------------------------------------------
  // Properties
  // -----------------------------------------------------------------------

  /** Appending one transaction adds exactly its value to the total. */
  lemma {:induction false} TotalAppend(txs: seq<Tx>, t: Tx)
    ensures Total(txs + [t]) == Total(txs) + t.value
  {
    assert DropLast(txs + [t]) == txs;
  }

  /** The sum of the values of the entries with a given id. */
  function IdTotal(txs: seq<Tx>, id: string): int
    decreases |txs|
  {
    if txs == [] then 0
    else IdTotal(DropLast(txs), id) + (if Last(txs).id == id then Last(txs).value else 0)
  }

  /** Removing by id drops every entry with that id, keeps every other one,
      and keeps the list as it is when the id is absent. */
  lemma RemoveExactly(txs: seq<Tx>, id: string)
    ensures forall i :: 0 <= i < |Removed(txs, id)| ==> Removed(txs, id)[i].id != id
    ensures forall i :: 0 <= i < |txs| && txs[i].id != id ==> txs[i] in Removed(txs, id)
    ensures (forall i :: 0 <= i < |txs| ==> txs[i].id != id) ==> Removed(txs, id) == txs
  {
    if forall i :: 0 <= i < |txs| ==> txs[i].id != id {
      FilterKeepsAll(txs, (t: Tx) => t.id != id);
    }
  }

  /** Removing by id lowers the total by exactly the removed values. */
  lemma {:induction false} RemovedTotal(txs: seq<Tx>, id: string)
    ensures Total(Removed(txs, id)) == Total(txs) - IdTotal(txs, id)
    decreases |txs|
  {
    if txs != [] {
      RemovedTotal(DropLast(txs), id);
      var x := Last(txs);
      var tail := if x.id != id then [x] else [];
      assert Removed(txs, id) == Removed(DropLast(txs), id) + tail;
      SumOfAppend(Removed(DropLast(txs), id), tail, ValueOf);
      if x.id != id {
        SumOfOne(x, ValueOf);
      } else {
        assert SumOf(tail, ValueOf) == 0;
      }
    }
  }

  /** Updating by id keeps the length, patches each entry with that id and
      leaves every other entry as it was. */
  lemma UpdateTouchesOnlyThatId(txs: seq<Tx>, id: string, patch: Patch)
    ensures |Updated(txs, id, patch)| == |txs|
    ensures forall i :: 0 <= i < |txs| ==>
              Updated(txs, id, patch)[i] == if txs[i].id == id then Apply(txs[i], patch) else txs[i]
  {
  }

  /** After a successful fetch at `t`, `getTransactions` is a no-op for the
      next five minutes, and allowed again from then on. */
  lemma FreshFetchBlocksRefetch(t: int, now: int)
    requires t != 0
    ensures now - t < CacheDuration ==> !FetchAllowed(false, Some(t), now)
    ensures now - t >= CacheDuration ==> FetchAllowed(false, Some(t), now)
    ensures !FetchAllowed(true, None, now)
  {
  }
}
