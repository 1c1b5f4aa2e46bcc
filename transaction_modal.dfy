/** The new-transaction dialog of
    app-zone/src/components/transaction-modal/transaction-modal.tsx: the
    digits of the money input, the ordered checks before a submit, the
    request payload, the category list for the chosen type, and the fields
    each choice clears. The component's state hooks are the fields of a
    class.

    The pt-BR currency formatting of the padded digits is the parameter
    `format`, the value in cents that `handleSubmitTransaction` parses back
    from the text is the parameter `cents`, and the outcome of the create
    request is the parameter `outcome`. */
module TransactionModal {
  import opened Common
  import opened InvestmentCatalog
  import StatementStore

  const ChooseType: string := "Selecione um tipo de transação"
  const ChooseCategory: string := "Selecione uma categoria"
  const ChooseInvestment: string := "Selecione o tipo de investimento"
  const EnterValue: string := "Digite um valor válido"
  const CreateFailedDefault: string := "Erro ao criar transação"
  const InvestmentsCategory: string := "Investimentos"
  const ZeroMoney: string := "0,00"

  /** The body of the create request. */
  datatype Payload = Payload(kind: StatementStore.ApiType, value: int, category: string,
                             investmentCategory: Option<string>)

  /** The server's category lists, by API type. */
  datatype CategoryLists = CategoryLists(credit: Option<seq<string>>, debit: Option<seq<string>>)

  /** What `getCategoriesForType` gives: a list, or the `TypeError` of
      lower-casing an unmapped type. */
  datatype Listing = Listed(names: seq<string>) | Throws

  /** How the create request ended: success, or a rejection carrying an
      `Error` message or some other value. */
  datatype Outcome = Succeeded | FailedWith(message: string) | FailedOther

  // -----------------------------------------------------------------------
  // The money input
  // -----------------------------------------------------------------------

  predicate IsDigit(c: char)
  {
    '0' <= c <= '9'
  }

  predicate AllDigits(s: string)
  {
    forall k | 0 <= k < |s| :: IsDigit(s[k])
  }

  /** The number a string of digits denotes. */
  function DigitValue(s: string): nat
    requires AllDigits(s)
  {
    if s == [] then 0 else DigitValue(DropLast(s)) * 10 + (Last(s) as int - '0' as int)
  }

  /** The digits with zeros in front, up to three of them in all. */
  function Padded(digits: string): string
  {
    if |digits| < 3 then Repeat('0', 3 - |digits|) + digits else digits
  }

  /** The `while (value.length < 3) value = "0" + value` loop. */
  method PadToThree(digits: string) returns (value: string)
    ensures value == Padded(digits)
  {
    value := digits;
    while |value| < 3
      invariant |digits| <= |value|
      invariant |digits| < 3 ==> |value| <= 3
      invariant |digits| >= 3 ==> value == digits
      invariant value == Repeat('0', |value| - |digits|) + digits
      decreases 3 - |value|
    {
      value := "0" + value;
    }
  }

  // -----------------------------------------------------------------------
  // Submitting
  // -----------------------------------------------------------------------

  /** `transactionTypeMap[type] || 'Credit'`. */
  function ApiTypeOf(t: string): StatementStore.ApiType
  {
    if t == "deposito" then StatementStore.Credit
    else if t == "saque" then StatementStore.Debit
    else StatementStore.Credit
  }

  predicate Filled(s: Option<string>)
  {
    s.Some? && s.value != ""
  }

  /** The message of the first failing check of `handleSubmitTransaction`,
      or `None` when the request is sent. */
  function SubmitError(kind: Option<string>, category: Option<string>, investment: Option<Item>, cents: int): Option<string>
  {
    if !Filled(kind) then Some(ChooseType)
    else if !Filled(category) then Some(ChooseCategory)
    else if category.value == InvestmentsCategory && investment.None? then Some(ChooseInvestment)
    else if cents <= 0 then Some(EnterValue)
    else None
  }

  /** The request body, for checks that passed. */
  function BuildPayload(kind: string, cents: int, category: string, investment: Option<Item>): Payload
  {
    Payload(ApiTypeOf(kind), cents, category,
            if investment.Some? then Some(investment.value.code) else None)
  }

  /** `getCategoriesForType()`. */
  function CategoriesForType(categories: Option<CategoryLists>, kind: Option<string>): Listing
  {
    if categories.None? || !Filled(kind) then Listed([])
    else if kind.value == "deposito" then
      Listed(if categories.value.credit.Some? then categories.value.credit.value else [])
    else if kind.value == "saque" then
      Listed(if categories.value.debit.Some? then categories.value.debit.value else [])
    else Throws
  }

  class Modal {
    var currentTransactionType: Option<string>
    var selectedCategory: Option<string>
    var selectedInvestment: Option<Item>
    var moneyValue: string
    var error: Option<string>

    /** An investment is only ever chosen under the "Investimentos"
        category: the selector is rendered for that category alone, and a
        new category or type clears the choice. */
    ghost predicate Valid()
      reads this
    {
      selectedInvestment.Some? ==> selectedCategory == Some(InvestmentsCategory)
    }

    constructor ()
      ensures Valid()
      ensures currentTransactionType == None && selectedCategory == None && selectedInvestment == None
      ensures moneyValue == ZeroMoney && error == None
    {
      currentTransactionType := None;
      selectedCategory := None;
      selectedInvestment := None;
      moneyValue := ZeroMoney;
      error := None;
    }

    /** `handleMoneyChange`: keep the digits; none gives "0,00" and leaves
        the error as it was; otherwise pad and format, and clear the error. */
    method HandleMoneyChange(input: string, format: string -> string)
      requires Valid()
      modifies this`moneyValue, this`error
      ensures Valid()
      ensures Filter(input, IsDigit) == [] ==> moneyValue == ZeroMoney && error == old(error)
      ensures Filter(input, IsDigit) != [] ==> moneyValue == format(Padded(Filter(input, IsDigit))) && error == None
    {
      var digits := Filter(input, IsDigit);
      if |digits| == 0 {
        moneyValue := ZeroMoney;
        return;
      }
      var value := PadToThree(digits);
      moneyValue := format(value);
      error := None;
    }

    /** The type dropdown's `onSelect`. */
    method SelectType(value: string)
      modifies this`currentTransactionType, this`selectedCategory, this`selectedInvestment, this`error
      ensures Valid()
      ensures currentTransactionType == Some(value)
      ensures selectedCategory == None && selectedInvestment == None && error == None
    {
      currentTransactionType := Some(value);
      selectedCategory := None;
      selectedInvestment := None;
      error := None;
    }

    /** The category dropdown's `onSelect`. */
    method SelectCategory(value: string)
      modifies this`selectedCategory, this`selectedInvestment, this`error
      ensures Valid()
      ensures selectedCategory == Some(value) && selectedInvestment == None && error == None
    {
      selectedCategory := Some(value);
      selectedInvestment := None;
      error := None;
    }

    /** The investment selector's `onSelect`; the selector is only shown
        under the "Investimentos" category. */
    method SelectInvestment(investment: Item)
      requires selectedCategory == Some(InvestmentsCategory)
      modifies this`selectedInvestment, this`error
      ensures Valid()
      ensures selectedInvestment == Some(investment) && error == None
    {
      selectedInvestment := Some(investment);
      error := None;
    }

    /** `handleSubmitTransaction`: the checks in order; then the request,
        whose payload is returned. A success resets the form and closes the
        dialog; a failure shows its message. */
    method Submit(cents: int, outcome: Outcome) returns (sent: Option<Payload>, closed: bool)
      requires Valid()
      modifies this`currentTransactionType, this`selectedCategory, this`selectedInvestment, this`moneyValue, this`error
      ensures Valid()
      ensures var failed := SubmitError(old(currentTransactionType), old(selectedCategory), old(selectedInvestment), cents);
              failed.Some? ==>
                sent == None && !closed && error == failed &&
                currentTransactionType == old(currentTransactionType) && selectedCategory == old(selectedCategory) &&
                selectedInvestment == old(selectedInvestment) && moneyValue == old(moneyValue)
      ensures var failed := SubmitError(old(currentTransactionType), old(selectedCategory), old(selectedInvestment), cents);
              failed.None? ==>
                sent == Some(BuildPayload(old(currentTransactionType).value, cents, old(selectedCategory).value, old(selectedInvestment)))
      ensures var failed := SubmitError(old(currentTransactionType), old(selectedCategory), old(selectedInvestment), cents);
              failed.None? && outcome == Succeeded ==>
                closed && moneyValue == ZeroMoney && currentTransactionType == None && selectedCategory == None &&
                selectedInvestment == None && error == None
      ensures var failed := SubmitError(old(currentTransactionType), old(selectedCategory), old(selectedInvestment), cents);
              failed.None? && outcome != Succeeded ==>
                !closed && error == Some(if outcome.FailedWith? then outcome.message else CreateFailedDefault) &&
                currentTransactionType == old(currentTransactionType) && selectedCategory == old(selectedCategory) &&
                selectedInvestment == old(selectedInvestment) && moneyValue == old(moneyValue)
    {
      sent, closed := None, false;
      if currentTransactionType.None? || currentTransactionType.value == "" {
        error := Some(ChooseType);
        return;
      }
      if selectedCategory.None? || selectedCategory.value == "" {
        error := Some(ChooseCategory);
        return;
      }
      if selectedCategory.value == InvestmentsCategory && selectedInvestment.None? {
        error := Some(ChooseInvestment);
        return;
      }
      if cents <= 0 {
        error := Some(EnterValue);
        return;
      }
      var investmentCategory := None;
      if selectedInvestment.Some? {
        investmentCategory := Some(selectedInvestment.value.code);
      }
      sent := Some(Payload(ApiTypeOf(currentTransactionType.value), cents, selectedCategory.value, investmentCategory));
      if outcome != Succeeded {
        error := Some(if outcome.FailedWith? then outcome.message else CreateFailedDefault);
        return;
      }
      moneyValue := ZeroMoney;
      currentTransactionType := None;
      selectedCategory := None;
      selectedInvestment := None;
      error := None;
      closed := true;
    }
  }

  // -----------------------------------------------------------------------
  // Properties
  // -----------------------------------------------------------------------

  /** A leading zero does not change the number. */
  lemma {:induction false} LeadingZero(s: string)
    requires AllDigits(s)
    ensures AllDigits("0" + s) && DigitValue("0" + s) == DigitValue(s)
    decreases |s|
  {
    if s != [] {
      assert DropLast("0" + s) == "0" + DropLast(s);
      LeadingZero(DropLast(s));
    }
  }

  /** Any number of leading zeros does not change the number. */
  lemma {:induction false} LeadingZeros(n: nat, s: string)
    requires AllDigits(s)
    ensures AllDigits(Repeat('0', n) + s) && DigitValue(Repeat('0', n) + s) == DigitValue(s)
  {
    if n > 0 {
      LeadingZeros(n - 1, s);
      assert Repeat('0', n) + s == "0" + (Repeat('0', n - 1) + s);
      LeadingZero(Repeat('0', n - 1) + s);
    } else {
      assert Repeat('0', n) + s == s;
    }
  }

  /** Padding gives at least three digits, keeps the typed digits at the
      end, puts only zeros in front, and denotes the same number: the
      amount in cents that was typed. */
  lemma PaddedShape(digits: string)
    requires AllDigits(digits)
    ensures var p := Padded(digits);
            |p| == Max(3, |digits|) && p[|p| - |digits|..] == digits &&
            (forall k :: 0 <= k < |p| - |digits| ==> p[k] == '0') &&
            AllDigits(p) && DigitValue(p) == DigitValue(digits)
  {
    if |digits| < 3 {
      LeadingZeros(3 - |digits|, digits);
    }
  }

  /** The digits the money input keeps are exactly the digits typed, in
      order. */
  lemma KeptDigits(input: string)
    ensures AllDigits(Filter(input, IsDigit))
    ensures forall c :: c in input && IsDigit(c) <==> c in Filter(input, IsDigit)
  {
  }

  /** The checks run in order and the first failure names the missing
      choice; an investment is demanded only under "Investimentos". */
  lemma SubmitChecksInOrder(kind: Option<string>, category: Option<string>, investment: Option<Item>, cents: int)
    ensures SubmitError(kind, category, investment, cents) == Some(ChooseType) <==> !Filled(kind)
    ensures SubmitError(kind, category, investment, cents) == Some(ChooseCategory) <==> Filled(kind) && !Filled(category)
    ensures SubmitError(kind, category, investment, cents) == Some(ChooseInvestment) <==>
              Filled(kind) && category == Some(InvestmentsCategory) && investment.None?
    ensures SubmitError(kind, category, investment, cents) == Some(EnterValue) <==>
              Filled(kind) && Filled(category) && (category.value == InvestmentsCategory ==> investment.Some?) && cents <= 0
    ensures SubmitError(kind, category, investment, cents) == None <==>
              Filled(kind) && Filled(category) && (category.value == InvestmentsCategory ==> investment.Some?) && cents > 0
  {
  }

  /** The payload carries the value and category as chosen, the mapped
      type, and an investment code exactly when an investment is chosen. */
  lemma PayloadShape(kind: string, cents: int, category: string, investment: Option<Item>)
    ensures var p := BuildPayload(kind, cents, category, investment);
            p.value == cents && p.category == category &&
            (p.investmentCategory.Some? <==> investment.Some?) &&
            (investment.Some? ==> p.investmentCategory == Some(investment.value.code)) &&
            (kind == "saque" <==> p.kind == StatementStore.Debit)
  {
  }

  /** The category list: empty without data or a type, the list of the
      mapped type (empty when the server sent none), and an error for a type
      the map does not know. */
  lemma CategoriesForTypeCases(categories: Option<CategoryLists>, kind: Option<string>)
    ensures CategoriesForType(categories, kind).Throws? <==>
              categories.Some? && Filled(kind) && kind.value != "deposito" && kind.value != "saque"
    ensures categories.Some? && kind == Some("deposito") && categories.value.credit.Some? ==>
              CategoriesForType(categories, kind) == Listed(categories.value.credit.value)
    ensures categories.Some? && kind == Some("saque") && categories.value.debit.Some? ==>
              CategoriesForType(categories, kind) == Listed(categories.value.debit.value)
    ensures categories.None? || kind.None? ==> CategoriesForType(categories, kind) == Listed([])
  {
  }

  /** With the invariant of the dialog, a payload names an investment only
      for the "Investimentos" category. */
  lemma InvestmentOnlyForInvestments(kind: string, cents: int, category: Option<string>, investment: Option<Item>)
    requires investment.Some? ==> category == Some(InvestmentsCategory)
    requires category.Some?
    ensures BuildPayload(kind, cents, category.value, investment).investmentCategory.Some? ==>
              category.value == InvestmentsCategory
  {
  }

  /** Right after a new type is chosen the dialog asks for a category. */
  lemma NewTypeNeedsCategory(t: string, investment: Option<Item>, cents: int)
    requires t != ""
    ensures SubmitError(Some(t), None, investment, cents) == Some(ChooseCategory)
  {
  }
}
