/**
 * The allocation records and the mapping from a stored allocation document
 * to an `Allocation` (src/money_flow/allocation.py).
 *
 * Money is a whole number of cents; a percentage is a whole number of
 * hundredths of a percent (33.33% is 3333).
 */
module AllocationRecords {
  import opened Wrappers

  /** One destination rule. Every optional field defaults to `None`. */
  datatype Allocation = Allocation(
    description: string,
    strategy: string,
    iban: string,
    accountType: string,
    percentage: Option<int>,
    targetBalance: Option<int>,
    fixedAmount: Option<int>,
    maxAmount: Option<int>,
    minAmount: Option<int>,
    priority: Option<int>,
    currentBalance: Option<int>)

  /** The main-account record: a floor balance and the account id. */
  datatype Settings = Settings(minimum: int, id: int)

  /**
   * A field value of a stored document. A `Number` is in the unit of its
   * field: cents for amounts, hundredths of a percent for `percentage`,
   * plain integers for `priority` and `id`.
   */
  datatype Value = Null | Number(n: int) | Text(s: string)

  /**
   * The name of a document field. The record's own field names and `id`
   * have a constructor each; `Other` stands for any other name.
   */
  datatype Key =
    | Description | Strategy | Iban | AccountType | Percentage | TargetBalance
    | FixedAmount | MaxAmount | MinAmount | Priority | CurrentBalance | Id
    | Other(name: string)

  type Document = map<Key, Value>

  /** One entry of the bank's account directory, keyed by account id. */
  datatype Account = Account(description: string, iban: string, balance: int)

  /** Why building a record raises: a `KeyError` on the account directory or a `TypeError` from the record constructor. */
  datatype TransformError = UnknownAccount(id: int) | BadFields

  /** Python truthiness of a document value. */
  predicate Truthy(v: Value) {
    match v
    case Null => false
    case Number(n) => n != 0
    case Text(s) => s != ""
  }

  const AmountKeys: set<Key> := {MaxAmount, MinAmount, FixedAmount, TargetBalance}
  const RequiredKeys: set<Key> := {Description, Strategy, Iban, AccountType}
  /** The keys the record constructor still accepts through `**kwargs`. */
  const KeywordKeys: set<Key> := RequiredKeys + {Percentage, Priority}

  /** The value stored under `key`, or `Null` when there is none. */
  function Get(doc: Document, key: Key): Value {
    if key in doc then doc[key] else Null
  }

  /** The record's text fields, where present, hold text. */
  predicate TextFieldsHoldText(kwargs: Document) {
    && (Description in kwargs ==> kwargs[Description].Text?)
    && (Strategy in kwargs ==> kwargs[Strategy].Text?)
    && (Iban in kwargs ==> kwargs[Iban].Text?)
    && (AccountType in kwargs ==> kwargs[AccountType].Text?)
  }

  /** The names that have a `Key` constructor of their own, as the store spells them. */
  const NamedKeys: set<string> := {
    "description", "strategy", "iban", "account_type", "percentage", "target_balance",
    "fixed_amount", "max_amount", "min_amount", "priority", "current_balance", "id"}

  /**
   * Every key is spelled one way only (an `Other` never carries a named
   * key's name), text fields hold text and numeric fields hold numbers or null.
   */
  predicate WellTyped(doc: Document) {
    && (forall name :: name in NamedKeys ==> Other(name) !in doc)
    && TextFieldsHoldText(doc)
    && !Get(doc, MaxAmount).Text? && !Get(doc, MinAmount).Text?
    && !Get(doc, FixedAmount).Text? && !Get(doc, TargetBalance).Text?
    && !Get(doc, Percentage).Text? && !Get(doc, Priority).Text? && !Get(doc, Id).Text?
  }

  /** `Decimal(value) if value else None` of `pop_value_to_decimal`. */
  function DecimalOrNone(v: Value): (r: Option<int>)
    requires !v.Text?
    ensures r.Some? <==> v.Number? && v.n != 0
    ensures r.Some? ==> v == Number(r.value)
  {
    if Truthy(v) then Some(v.n) else None
  }

  /** A keyword the constructor takes as it is: `None` when absent or null, so a stored 0 stays 0. */
  function NumberOrNone(kwargs: Document, key: Key): (r: Option<int>)
    ensures r.Some? <==> key in kwargs && kwargs[key].Number?
    ensures r.Some? ==> kwargs[key] == Number(r.value)
  {
    if key in kwargs && kwargs[key].Number? then Some(kwargs[key].n) else None
  }

  /**
   * `Allocation(**kwargs, max_amount=…, …, current_balance=…)`: raises a
   * `TypeError` when a required field is missing or a keyword is one the
   * record does not take or is given twice (`current_balance`).
   */
  function Construct(kwargs: Document, maxAmount: Option<int>, minAmount: Option<int>,
                     fixedAmount: Option<int>, targetBalance: Option<int>,
                     currentBalance: Option<int>): Result<Allocation, TransformError>
    requires TextFieldsHoldText(kwargs)
  {
    if !(RequiredKeys <= kwargs.Keys <= KeywordKeys) then Failure(BadFields)
    else
      Success(Allocation(
        description := kwargs[Description].s,
        strategy := kwargs[Strategy].s,
        iban := kwargs[Iban].s,
        accountType := kwargs[AccountType].s,
        percentage := NumberOrNone(kwargs, Percentage),
        targetBalance := targetBalance,
        fixedAmount := fixedAmount,
        maxAmount := maxAmount,
        minAmount := minAmount,
        priority := NumberOrNone(kwargs, Priority),
        currentBalance := currentBalance))
  }

  /** The record is built exactly when every required keyword is there and no other keyword is, and it carries what it was given. */
  lemma ConstructFields(kwargs: Document, maxAmount: Option<int>, minAmount: Option<int>,
                        fixedAmount: Option<int>, targetBalance: Option<int>, currentBalance: Option<int>)
    requires TextFieldsHoldText(kwargs)
    ensures var r := Construct(kwargs, maxAmount, minAmount, fixedAmount, targetBalance, currentBalance);
      r.Success? <==> RequiredKeys <= kwargs.Keys <= KeywordKeys
    ensures var r := Construct(kwargs, maxAmount, minAmount, fixedAmount, targetBalance, currentBalance);
      r.Success? ==>
      && kwargs[Description] == Text(r.value.description)
      && kwargs[Strategy] == Text(r.value.strategy)
      && kwargs[Iban] == Text(r.value.iban)
      && kwargs[AccountType] == Text(r.value.accountType)
      && r.value.percentage == NumberOrNone(kwargs, Percentage)
      && r.value.priority == NumberOrNone(kwargs, Priority)
      && r.value.maxAmount == maxAmount && r.value.minAmount == minAmount
      && r.value.fixedAmount == fixedAmount && r.value.targetBalance == targetBalance
      && r.value.currentBalance == currentBalance
  {
  }

  /** What is left of the document for `**kwargs` once the amounts and the id are popped and the account's fields written in. */
  function ResidualKeywords(doc: Document, accounts: map<int, Account>): (kwargs: Document)
    requires WellTyped(doc)
    requires Truthy(Get(doc, Id)) ==> Get(doc, Id).n in accounts
    ensures TextFieldsHoldText(kwargs)
  {
    var id := Get(doc, Id);
    var rest := doc - AmountKeys - {Id};
    if Truthy(id)
    then rest[Description := Text(accounts[id.n].description)][Iban := Text(accounts[id.n].iban)]
    else rest
  }

  /**
   * The record a document denotes, stated on the document itself: the four
   * amounts through `DecimalOrNone`, the `id` key consumed, and a truthy
   * `id` replacing description and iban by the account's and supplying its
   * balance.
   */
  function ToAllocation(doc: Document, accounts: map<int, Account>): Result<Allocation, TransformError>
    requires WellTyped(doc)
  {
    var id := Get(doc, Id);
    if Truthy(id) && id.n !in accounts then Failure(UnknownAccount(id.n))
    else
      Construct(ResidualKeywords(doc, accounts),
        DecimalOrNone(Get(doc, MaxAmount)), DecimalOrNone(Get(doc, MinAmount)),
        DecimalOrNone(Get(doc, FixedAmount)), DecimalOrNone(Get(doc, TargetBalance)),
        if Truthy(id) then Some(accounts[id.n].balance) else None)
  }

  /**
   * What `ToAllocation` promises, field by field, in terms of the document:
   * amounts through `DecimalOrNone`, `percentage` and `priority` as stored,
   * the `id` consumed, and a truthy `id` replacing description and iban by
   * the account's and supplying its balance.
   */
  lemma ToAllocationFields(doc: Document, accounts: map<int, Account>)
    requires WellTyped(doc)
    ensures var id, r := Get(doc, Id), ToAllocation(doc, accounts);
      && (Truthy(id) && id.n !in accounts ==> r == Failure(UnknownAccount(id.n)))
      && (r.Success? ==>
          && r.value.maxAmount == DecimalOrNone(Get(doc, MaxAmount))
          && r.value.minAmount == DecimalOrNone(Get(doc, MinAmount))
          && r.value.fixedAmount == DecimalOrNone(Get(doc, FixedAmount))
          && r.value.targetBalance == DecimalOrNone(Get(doc, TargetBalance))
          && r.value.percentage == NumberOrNone(doc, Percentage)
          && r.value.priority == NumberOrNone(doc, Priority)
          && Get(doc, Strategy) == Text(r.value.strategy)
          && Get(doc, AccountType) == Text(r.value.accountType))
      && (Truthy(id) && id.n in accounts ==>
          && (r.Success? <==> Strategy in doc && AccountType in doc && doc.Keys - AmountKeys - {Id} <= KeywordKeys)
          && (r.Success? ==>
              && r.value.description == accounts[id.n].description
              && r.value.iban == accounts[id.n].iban
              && r.value.currentBalance == Some(accounts[id.n].balance)))
      && (!Truthy(id) ==>
          && (r.Success? <==> RequiredKeys <= doc.Keys && doc.Keys - AmountKeys - {Id} <= KeywordKeys)
          && (r.Success? ==>
              && doc[Description] == Text(r.value.description)
              && doc[Iban] == Text(r.value.iban)
              && r.value.currentBalance == None))
  {
    var id := Get(doc, Id);
    if !(Truthy(id) && id.n !in accounts) {
      var kwargs := ResidualKeywords(doc, accounts);
      ConstructFields(kwargs, DecimalOrNone(Get(doc, MaxAmount)), DecimalOrNone(Get(doc, MinAmount)),
        DecimalOrNone(Get(doc, FixedAmount)), DecimalOrNone(Get(doc, TargetBalance)),
        if Truthy(id) then Some(accounts[id.n].balance) else None);
    }
  }

  /** `ToAllocation` on a document whose id resolves is the record built from the residual keywords and the converted amounts. */
  lemma ToAllocationBuilds(doc: Document, accounts: map<int, Account>, kwargs: Document,
                           maxAmount: Option<int>, minAmount: Option<int>, fixedAmount: Option<int>,
                           targetBalance: Option<int>, currentBalance: Option<int>)
    requires WellTyped(doc)
    requires Truthy(Get(doc, Id)) ==> Get(doc, Id).n in accounts
    requires kwargs == ResidualKeywords(doc, accounts)
    requires maxAmount == DecimalOrNone(Get(doc, MaxAmount)) && minAmount == DecimalOrNone(Get(doc, MinAmount))
    requires fixedAmount == DecimalOrNone(Get(doc, FixedAmount)) && targetBalance == DecimalOrNone(Get(doc, TargetBalance))
    requires currentBalance == if Truthy(Get(doc, Id)) then Some(accounts[Get(doc, Id).n].balance) else None
    ensures ToAllocation(doc, accounts) == Construct(kwargs, maxAmount, minAmount, fixedAmount, targetBalance, currentBalance)
  {
  }

  /** Removing one key leaves every other key's value alone. */
  lemma GetOther(doc: Document, removed: Key, key: Key)
    requires removed != key
    ensures Get(doc - {removed}, key) == Get(doc, key)
  {
  }

  /** `pop_value_to_decimal`: removes `key`; a truthy value is converted, anything else gives `None`. */
  method PopValueToDecimal(kwargs: Document, key: Key) returns (rest: Document, value: Option<int>)
    requires !Get(kwargs, key).Text?
    ensures rest == kwargs - {key}
    ensures key !in rest
    ensures value.Some? <==> key in kwargs && Truthy(kwargs[key])
    ensures value.Some? ==> kwargs[key] == Number(value.value)
    ensures value == DecimalOrNone(Get(kwargs, key))
  {
    var v := if key in kwargs then kwargs[key] else Null;
    rest := kwargs - {key};
    value := if Truthy(v) then Some(v.n) else None;
  }

  /** `transform_data`: pops the amounts and the id from the document, then builds the record. */
  method TransformData(doc: Document, accounts: map<int, Account>) returns (r: Result<Allocation, TransformError>)
    requires WellTyped(doc)
    ensures r == ToAllocation(doc, accounts)
  {
    var kwargs := doc;
    var maxAmount, minAmount, fixedAmount, targetBalance;
    kwargs, maxAmount := PopValueToDecimal(kwargs, MaxAmount);
    GetOther(doc, MaxAmount, MinAmount);
    kwargs, minAmount := PopValueToDecimal(kwargs, MinAmount);
    GetOther(doc, MaxAmount, FixedAmount);
    GetOther(doc - {MaxAmount}, MinAmount, FixedAmount);
    kwargs, fixedAmount := PopValueToDecimal(kwargs, FixedAmount);
    assert kwargs == doc - {MaxAmount, MinAmount, FixedAmount};
    assert Get(kwargs, TargetBalance) == Get(doc, TargetBalance);
    kwargs, targetBalance := PopValueToDecimal(kwargs, TargetBalance);
    assert kwargs == doc - AmountKeys;
    var bunqId := if Id in kwargs then kwargs[Id] else Null;
    assert bunqId == Get(doc, Id);
    kwargs := kwargs - {Id};
    assert kwargs == doc - AmountKeys - {Id};
    var currentBalance: Option<int> := None;
    if Truthy(bunqId) {
      if bunqId.n !in accounts {
        assert ToAllocation(doc, accounts) == Failure(UnknownAccount(bunqId.n));
        return Failure(UnknownAccount(bunqId.n));
      }
      var account := accounts[bunqId.n];
      kwargs := kwargs[Description := Text(account.description)];
      kwargs := kwargs[Iban := Text(account.iban)];
      currentBalance := Some(account.balance);
    }
    assert kwargs == ResidualKeywords(doc, accounts);
    assert currentBalance == if Truthy(bunqId) then Some(accounts[bunqId.n].balance) else None;
    ToAllocationBuilds(doc, accounts, kwargs, maxAmount, minAmount, fixedAmount, targetBalance, currentBalance);
    r := Construct(kwargs, maxAmount, minAmount, fixedAmount, targetBalance, currentBalance);
  }

  /**
   * `get_allocations` after the store read: one record per document, in
   * document order; the first document that raises ends the whole call.
   */
  method GetAllocations(docs: seq<Document>, accounts: map<int, Account>) returns (r: Result<seq<Allocation>, TransformError>)
    requires forall i :: 0 <= i < |docs| ==> WellTyped(docs[i])
    ensures r.Success? <==> forall i :: 0 <= i < |docs| ==> ToAllocation(docs[i], accounts).Success?
    ensures r.Success? ==>
      && |r.value| == |docs|
      && forall i :: 0 <= i < |docs| ==> ToAllocation(docs[i], accounts) == Success(r.value[i])
    ensures r.Failure? ==>
      exists i :: 0 <= i < |docs| && ToAllocation(docs[i], accounts) == Failure(r.error)
        && forall j :: 0 <= j < i ==> ToAllocation(docs[j], accounts).Success?
  {
    var records := [];
    for i := 0 to |docs|
      invariant |records| == i
      invariant forall j :: 0 <= j < i ==> ToAllocation(docs[j], accounts) == Success(records[j])
    {
      var x := TransformData(docs[i], accounts);
      if x.Failure? {
        return Failure(x.error);
      }
      records := records + [x.value];
    }
    r := Success(records);
  }
}
