/** `CreateTransactionUseCase.execute` of
    backend/src/domain/use-cases/CreateTransactionUseCase.ts, over an
    in-memory picture of the two repositories it writes: the accounts with
    their balances and the list of stored transactions. Values are bigints,
    here unbounded integers. */
module CreateTransaction {
  import opened Common

  datatype TxType = Credit | Debit

  datatype CreateDto = CreateDto(accountId: string, kind: TxType, value: int, category: string,
                                 investmentCategory: Option<string>)

  datatype StoredTx = StoredTx(id: nat, accountId: string, kind: TxType, value: int, category: string,
                               investmentCategory: Option<string>)

  datatype AppError = AppError(message: string, statusCode: int)

  datatype Created = CreatedTx(tx: StoredTx) | Raised(error: AppError)

  /** The balance after the transaction: a credit adds, anything else
      subtracts; nothing stops it from going negative. */
  function NewBalance(balance: int, kind: TxType, value: int): int
  {
    if kind == Credit then balance + value else balance - value
  }

  /** What a transaction does to its account's balance. */
  function Effect(t: StoredTx): int
  {
    NewBalance(0, t.kind, t.value)
  }

  /** The net effect of the stored transactions on one account. */
  function NetEffect(txs: seq<StoredTx>, accountId: string): int
    decreases |txs|
  {
    if txs == [] then 0
    else NetEffect(DropLast(txs), accountId) + (if Last(txs).accountId == accountId then Effect(Last(txs)) else 0)
  }

  class Ledger {
    /** `accountRepository`: the balance of each account. */
    var balances: map<string, int>
    /** `transactionRepository`: the stored transactions, oldest first. */
    var transactions: seq<StoredTx>
    /** The id the next created transaction gets. */
    var nextId: nat
    /** The balance each account had before any transaction was stored. */
    ghost var opening: map<string, int>

    /** Every balance is its opening balance moved by the account's stored
        transactions. */
    ghost predicate Valid()
      reads this
    {
      opening.Keys == balances.Keys &&
      forall a :: a in balances ==> balances[a] == opening[a] + NetEffect(transactions, a)
    }

    constructor (accounts: map<string, int>)
      ensures Valid()
      ensures balances == accounts && transactions == [] && nextId == 0
    {
      balances := accounts;
      transactions := [];
      nextId := 0;
      opening := accounts;
    }

    /** `transactionRepository.create(data)`. */
    method Create(dto: CreateDto) returns (t: StoredTx)
      modifies this`transactions, this`nextId
      ensures t == StoredTx(old(nextId), dto.accountId, dto.kind, dto.value, dto.category, dto.investmentCategory)
      ensures transactions == old(transactions) + [t]
      ensures nextId == old(nextId) + 1
    {
      t := StoredTx(nextId, dto.accountId, dto.kind, dto.value, dto.category, dto.investmentCategory);
      transactions := transactions + [t];
      nextId := nextId + 1;
    }

    /** `execute(data)`: the account check, then the transaction is stored,
        then the balance is written. */
    method Execute(dto: CreateDto) returns (r: Created)
      requires Valid()
      modifies this
      ensures Valid()
      ensures opening == old(opening)
      ensures dto.accountId !in old(balances) ==>
                r == Raised(AppError("Account not found", 404)) &&
                balances == old(balances) && transactions == old(transactions) && nextId == old(nextId)
      ensures dto.accountId in old(balances) ==>
                r.CreatedTx? &&
                r.tx == StoredTx(old(nextId), dto.accountId, dto.kind, dto.value, dto.category, dto.investmentCategory) &&
                transactions == old(transactions) + [r.tx] &&
                balances == old(balances)[dto.accountId := NewBalance(old(balances)[dto.accountId], dto.kind, dto.value)]
    {
      if dto.accountId !in balances {
        return Raised(AppError("Account not found", 404));
      }
      var balance := balances[dto.accountId];
      var t := Create(dto);
      forall a | a in balances
        ensures NetEffect(transactions, a) == NetEffect(old(transactions), a) + (if a == dto.accountId then Effect(t) else 0)
      {
        assert DropLast(transactions) == old(transactions);
      }
      balances := balances[dto.accountId := NewBalance(balance, dto.kind, dto.value)];
      r := CreatedTx(t);
    }
  }

  // -----------------------------------------------------------------------
  // Properties
  // -----------------------------------------------------------------------

  /** A credit and a debit of the same value cancel out, in either order. */
  lemma CreditDebitCancel(balance: int, value: int)
    ensures NewBalance(NewBalance(balance, Credit, value), Debit, value) == balance
    ensures NewBalance(NewBalance(balance, Debit, value), Credit, value) == balance
  {
  }

  /** A debit larger than the balance leaves it negative: there is no
      overdraft check. */
  lemma DebitMayGoNegative(balance: int, value: int)
    requires value > balance
    ensures NewBalance(balance, Debit, value) < 0
  {
  }

  /** Transactions of other accounts leave an account's net effect alone,
      and the net effect is additive over the history. */
  lemma {:induction false} NetEffectAppend(txs: seq<StoredTx>, more: seq<StoredTx>, accountId: string)
    ensures NetEffect(txs + more, accountId) == NetEffect(txs, accountId) + NetEffect(more, accountId)
    decreases |more|
  {
    if more == [] {
      assert txs + more == txs;
    } else {
      assert DropLast(txs + more) == txs + DropLast(more);
      NetEffectAppend(txs, DropLast(more), accountId);
    }
  }
}
