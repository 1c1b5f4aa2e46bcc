/** The reactive application state of
    app-zone/src/infrastructure/state/reactive-state.service.ts: a current
    state replaced on every action by a reducer, and the balance derived
    from its transactions.

    Actions reach the reducer through `debounceTime(100)`: of a burst of
    dispatches less than 100 ms apart only the last is reduced.
    `DebouncedBurst` models that; the service itself applies every action,
    which is what its setters promise. */
module ReactiveState {
  import opened Common
  import opened UserTransactions

  datatype User = User(id: string, name: string, email: string, balance: Option<int>)

  datatype AppState = AppState(user: Option<User>, transactions: seq<Transaction>, loading: bool, error: Option<string>)

  /** The action types the reducer knows, and any other type string. */
  datatype Action =
    | SetUser(user: Option<User>)
    | SetTransactions(txs: seq<Transaction>)
    | AddTransaction(t: Transaction)
    | SetLoading(loading: bool)
    | SetError(message: string)
    | ClearError
    | Reset
    | Unknown(kind: string)

  datatype Field = UserField | TransactionsField | LoadingField | ErrorField

  const Initial: AppState := AppState(None, [], false, None)

  /** The `switch` of `setupActionHandlers`. */
  function Reduce(s: AppState, a: Action): AppState
  {
    match a
    case SetUser(u) => s.(user := u)
    case SetTransactions(txs) => s.(transactions := txs)
    case AddTransaction(t) => s.(transactions := s.transactions + [t])
    case SetLoading(b) => s.(loading := b)
    case SetError(m) => s.(error := Some(m))
    case ClearError => s.(error := None)
    case Reset => Initial
    case Unknown(_) => s
  }

  /** The fields an action writes. */
  function Writes(a: Action): set<Field>
  {
    match a
    case SetUser(_) => {UserField}
    case SetTransactions(_) => {TransactionsField}
    case AddTransaction(_) => {TransactionsField}
    case SetLoading(_) => {LoadingField}
    case SetError(_) => {ErrorField}
    case ClearError => {ErrorField}
    case Reset => {UserField, TransactionsField, LoadingField, ErrorField}
    case Unknown(_) => {}
  }

  /** Whether two states agree on one field. */
  predicate SameAt(s: AppState, t: AppState, f: Field)
  {
    match f
    case UserField => s.user == t.user
    case TransactionsField => s.transactions == t.transactions
    case LoadingField => s.loading == t.loading
    case ErrorField => s.error == t.error
  }

  /** Every action leaves the fields it does not write as they were. */
  lemma ReduceWritesOnlyItsFields(s: AppState, a: Action, f: Field)
    requires f !in Writes(a)
    ensures SameAt(Reduce(s, a), s, f)
  {
  }

  /** Actions that write different fields commute. */
  lemma DisjointActionsCommute(s: AppState, a: Action, b: Action)
    requires Writes(a) !! Writes(b)
    ensures Reduce(Reduce(s, a), b) == Reduce(Reduce(s, b), a)
  {
  }

  /** An unknown action type leaves the state as it was, and RESET gives
      the initial state from any state. */
  lemma UnknownAndReset(s: AppState, t: AppState, kind: string)
    ensures Reduce(s, Unknown(kind)) == s
    ensures Reduce(s, Reset) == Reduce(t, Reset) == Initial
    ensures Initial.user.None? && Initial.transactions == [] && !Initial.loading && Initial.error.None?
  {
  }

  /** `balance$`: deposits add, withdrawals subtract, other types are
      ignored; a left fold. */
  function Balance(txs: seq<Transaction>): int
    decreases |txs|
  {
    if txs == [] then 0
    else
      var t := Last(txs);
      var acc := Balance(DropLast(txs));
      if t.kind == Deposit then acc + t.amount
      else if t.kind == Withdraw then acc - t.amount
      else acc
  }

  /** The balance is the deposits' sum minus the withdrawals' sum, as the
      use case's statistics compute it. */
  lemma {:induction false} BalanceIsDepositsMinusWithdraws(txs: seq<Transaction>)
    ensures Balance(txs) == SumOf(txs, DepositAmount) - SumOf(txs, WithdrawAmount)
    decreases |txs|
  {
    if txs != [] {
      BalanceIsDepositsMinusWithdraws(DropLast(txs));
    }
  }

  /** Adding a transaction moves the balance by its signed amount. */
  lemma AddMovesBalance(s: AppState, t: Transaction)
    ensures Balance(Reduce(s, AddTransaction(t)).transactions)
         == Balance(s.transactions) + DepositAmount(t) - WithdrawAmount(t)
  {
    assert DropLast(s.transactions + [t]) == s.transactions;
  }

  // -----------------------------------------------------------------------
  // The debounced pipeline
  // -----------------------------------------------------------------------

  /** What the debounced subscription does with a burst of actions
      dispatched less than 100 ms apart: only the last is reduced. */
  function DebouncedBurst(s: AppState, burst: seq<Action>): (r: AppState)
    requires burst != []
    ensures r == ReduceAll(s, [Last(burst)])
  {
    assert DropLast([Last(burst)]) == [];
    Reduce(s, Last(burst))
  }

  /** Every action of a burst reduced in turn, as the setters promise. */
  function ReduceAll(s: AppState, actions: seq<Action>): AppState
    decreases |actions|
  {
    if actions == [] then s else Reduce(ReduceAll(s, DropLast(actions)), Last(actions))
  }

  /** Two `addTransaction` calls in one burst: the debounced pipeline keeps
      only the second transaction, while reducing every action keeps both. */
  lemma BurstDropsEarlierActions(s: AppState, a: Transaction, b: Transaction)
    ensures DebouncedBurst(s, [AddTransaction(a), AddTransaction(b)]).transactions == s.transactions + [b]
    ensures ReduceAll(s, [AddTransaction(a), AddTransaction(b)]).transactions == s.transactions + [a, b]
  {
    var first := [AddTransaction(a)];
    assert DropLast(first + [AddTransaction(b)]) == first;
    assert DropLast(first) == [];
    assert ReduceAll(s, first).transactions == s.transactions + [a];
    assert s.transactions + [a] + [b] == s.transactions + [a, b];
    assert first + [AddTransaction(b)] == [AddTransaction(a), AddTransaction(b)];
  }

  /** Reducing actions one by one appends every added transaction in order. */
  lemma {:induction false} ReduceAllAppendsAdds(s: AppState, ts: seq<Transaction>)
    ensures ReduceAll(s, Map(ts, (t: Transaction) => AddTransaction(t))).transactions == s.transactions + ts
    decreases |ts|
  {
    var adds := Map(ts, (t: Transaction) => AddTransaction(t));
    if ts != [] {
      assert DropLast(adds) == Map(DropLast(ts), (t: Transaction) => AddTransaction(t));
      ReduceAllAppendsAdds(s, DropLast(ts));
      assert s.transactions + DropLast(ts) + [Last(ts)] == s.transactions + ts;
    }
  }

  class ReactiveStateService {
    var state: AppState

    constructor ()
      ensures state == Initial
    {
      state := Initial;
    }

    /** `dispatch(type, payload)`, each action reduced in turn. */
    method Dispatch(a: Action)
      modifies this
      ensures state == Reduce(old(state), a)
    {
      state := Reduce(state, a);
    }

    /** The current value of `balance$`. */
    function CurrentBalance(): int
      reads this
    {
      Balance(state.transactions)
    }
  }
}
