/**
 * The account registry and the structured record an account is saved as
 * (`_to_dict`), with the record-to-account step of `from_json`.
 */
module Persistence {
  import opened Text
  import opened Ledger
  import opened Rules

  /** `cls.__name__` of the class behind each variant: the `account_type` tag. Distinct variants get distinct tags. */
  function TypeTag(v: Variant): (tag: string)
    ensures tag == "BankAccount" <==> v == Standard
    ensures tag == "SaveAccount" <==> v == Savings
    ensures tag == "ProAccount" <==> v == Pro
  {
    match v
    case Standard => "BankAccount"
    case Savings => "SaveAccount"
    case Pro => "ProAccount"
  }

  /** `_register`: map the class's name to the class. */
  function Register(registry: map<string, Variant>, v: Variant): (r: map<string, Variant>)
    ensures r.Keys == registry.Keys + {TypeTag(v)}
    ensures r[TypeTag(v)] == v
    ensures forall tag :: tag in registry && tag != TypeTag(v) ==> r[tag] == registry[tag]
  {
    registry[TypeTag(v) := v]
  }

  /** Registering a class a second time changes nothing. */
  lemma RegisterIdempotent(registry: map<string, Variant>, v: Variant)
    ensures Register(Register(registry, v), v) == Register(registry, v)
  {
  }

  /**
   * `_ACCOUNT_REGISTRY` once the module is loaded: the two decorated subclasses,
   * then the base class added by hand.
   */
  function InitialRegistry(): (r: map<string, Variant>)
    ensures r.Keys == {"BankAccount", "SaveAccount", "ProAccount"}
    ensures forall v: Variant :: TypeTag(v) in r && r[TypeTag(v)] == v
  {
    Register(Register(Register(map[], Savings), Pro), Standard)
  }

  /**
   * The class `from_json` instantiates: `data.get("account_type", "BankAccount")`
   * looked up with `_ACCOUNT_REGISTRY.get(tag, BankAccount)`.
   */
  function LookupVariant(tag: Option<string>): (v: Variant)
    ensures tag.Some? && tag.value in InitialRegistry() ==> TypeTag(v) == tag.value
    ensures !(tag.Some? && tag.value in InitialRegistry()) ==> v == Standard
  {
    var registry := InitialRegistry();
    var name := tag.GetOr("BankAccount");
    if name in registry then registry[name] else Standard
  }

  /**
   * The dictionary an account is saved as. A key that may be absent from a loaded
   * document is an `Option`.
   */
  datatype AccountRecord = AccountRecord(
    accountType: Option<string>,
    accountNumber: Option<string>,
    ownerName: Option<string>,
    balance: Option<real>,
    transactionHistory: Option<seq<Transaction>>)

  /** `_to_dict`. */
  function ToRecord(s: State): (r: AccountRecord)
    ensures r.accountType == Some(TypeTag(s.kind))
    ensures r.accountNumber == Some(s.number) && r.ownerName == Some(s.owner)
    ensures r.balance == Some(s.balance) && r.transactionHistory == Some(s.history)
  {
    AccountRecord(Some(TypeTag(s.kind)), Some(s.number), Some(s.owner), Some(s.balance), Some(s.history))
  }

  /**
   * `from_json` after the JSON text is parsed: pick the class from the registry,
   * read the two mandatory keys, run the constructor's checks on the stored values
   * (defaulting the balance to 0.0) and then install the stored history as it is.
   */
  function Restore(rec: AccountRecord): (r: Result<State>)
    ensures rec.accountNumber.None? ==> r == Failure(KeyError("account_number"))
    ensures rec.accountNumber.Some? && rec.ownerName.None? ==> r == Failure(KeyError("owner_name"))
    ensures rec.accountNumber.Some? && rec.ownerName.Some? &&
            Open(LookupVariant(rec.accountType), rec.accountNumber.value, rec.ownerName.value, rec.balance.GetOr(0.0)).Failure? ==>
              r == Failure(Open(LookupVariant(rec.accountType), rec.accountNumber.value, rec.ownerName.value, rec.balance.GetOr(0.0)).error)
    ensures r.Success? <==>
              && rec.accountNumber.Some? && rec.ownerName.Some?
              && Open(LookupVariant(rec.accountType), rec.accountNumber.value, rec.ownerName.value, rec.balance.GetOr(0.0)).Success?
    ensures r.Success? ==>
              && r.value.kind == LookupVariant(rec.accountType)
              && r.value.number == Strip(rec.accountNumber.value)
              && r.value.owner == Strip(rec.ownerName.value)
              && r.value.balance == rec.balance.GetOr(0.0)
              && r.value.history == rec.transactionHistory.GetOr([])
              && ValidState(r.value)
  {
    var kind := LookupVariant(rec.accountType);
    if rec.accountNumber.None? then Failure(KeyError("account_number"))
    else if rec.ownerName.None? then Failure(KeyError("owner_name"))
    else match Open(kind, rec.accountNumber.value, rec.ownerName.value, rec.balance.GetOr(0.0))
      case Failure(e) => Failure(e)
      case Success(s) => Success(s.(history := rec.transactionHistory.GetOr([])))
  }

  /**
   * Saving and restoring an account with stored names gives back the same variant,
   * names, balance and history exactly when its balance is above -1; otherwise the
   * constructor's balance check rejects the record.
   */
  lemma RoundTrip(s: State)
    requires IsStrippedName(s.number) && IsStrippedName(s.owner)
    ensures Restore(ToRecord(s)).Success? <==> s.balance > -1.0
    ensures s.balance > -1.0 ==> Restore(ToRecord(s)) == Success(s)
    ensures s.balance <= -1.0 ==>
              Restore(ToRecord(s)) == Failure(InvalidAmountError("Initial balance offset", s.balance + 1.0))
  {
  }

  /** A standard or savings account never drops to -1, so it always survives the round trip. */
  lemma RoundTripOfValidAccount(s: State)
    requires ValidState(s) && s.kind != Pro
    ensures Restore(ToRecord(s)) == Success(s)
  {
  }

  /**
   * A pro account whose balance is -1 or lower cannot be restored: a fresh pro account
   * that withdraws 100 is saved with balance -100, which the constructor check refuses.
   */
  lemma OverdrawnProIsNotRestorable(stamp: Stamp)
    ensures var acct := Open(Pro, "P-1", "Ada", 0.0);
            && acct.Success?
            && var w := Withdraw(acct.value, 100.0, stamp);
            && w.Success?
            && ValidState(w.value)
            && Restore(ToRecord(w.value)) == Failure(InvalidAmountError("Initial balance offset", -99.0))
  {
    var number, owner := "P-1", "Ada";
    assert !IsSpace(number[0]) && !IsSpace(number[2]) && !IsSpace(owner[0]) && !IsSpace(owner[2]);
    StripOfTrimmed(number);
    StripOfTrimmed(owner);
    var s0 := State(Pro, number, owner, 0.0, []);
    assert Open(Pro, number, owner, 0.0) == Success(s0);
    var s1 := Debit(s0, 100.0, stamp);
    assert Withdraw(s0, 100.0, stamp) == Success(s1);
    RoundTrip(s1);
  }

  /** A record whose type tag is missing or unknown is restored as a standard account. */
  lemma UnknownTagRestoresStandard(rec: AccountRecord)
    requires rec.accountType.None? || rec.accountType.value !in {"BankAccount", "SaveAccount", "ProAccount"}
    ensures Restore(rec).Success? ==> Restore(rec).value.kind == Standard
  {
  }
}
