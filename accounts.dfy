/**
 * The account object: its balance and its transaction history are fields that
 * `deposit`, `withdraw` and `transfer` update in place. Each method is proved to do
 * what the matching function of module Rules says, so everything proved there about
 * accepted and rejected operations holds of the object.
 */
module Accounts {
  import opened Text
  import opened Ledger
  import Rules
  import Persistence

  /**
   * A method's outcome and new state agree with its specification's result: an
   * accepted operation leaves the state it computes, a rejected one raises its error
   * and leaves the state as it was.
   */
  predicate Reflects(before: Rules.State, spec: Result<Rules.State>, r: Outcome, after: Rules.State)
  {
    match spec
    case Success(s) => r == Pass && after == s
    case Failure(e) => r == Fail(e) && after == before
  }

  class Account {
    const kind: Rules.Variant
    const number: string
    const owner: string
    var balance: real
    var history: seq<Transaction>

    /** The account's observable state. */
    function View(): Rules.State
      reads this
    {
      Rules.State(kind, number, owner, balance, history)
    }

    predicate Valid()
      reads this
    {
      Rules.ValidState(View())
    }

    /** Sets the fields, as `__new__` followed by the field assignments does. */
    constructor Init(s: Rules.State)
      ensures View() == s
    {
      kind, number, owner := s.kind, s.number, s.owner;
      balance, history := s.balance, s.history;
    }

    /** `BankAccount(...)`, `SaveAccount(...)` or `ProAccount(...)`: validate, then store stripped names. */
    static method Open(kind: Rules.Variant, number: string, owner: string, initial: real) returns (r: Result<Account>)
      ensures Rules.Open(kind, number, owner, initial).Failure? ==>
                r == Failure(Rules.Open(kind, number, owner, initial).error)
      ensures Rules.Open(kind, number, owner, initial).Success? ==>
                && r.Success? && fresh(r.value)
                && r.value.View() == Rules.Open(kind, number, owner, initial).value
                && r.value.Valid()
    {
      if Strip(number) == [] {
        return Failure(ValueError("account_number"));
      }
      if Strip(owner) == [] {
        return Failure(ValueError("owner_name"));
      }
      var v := ValidatePositive(initial + 1.0, "Initial balance offset");
      if v.Fail? {
        return Failure(v.error);
      }
      var a := new Account.Init(Rules.State(kind, Strip(number), Strip(owner), initial, []));
      r := Success(a);
    }

    /** `get_balance` and the `balance` property. */
    function GetBalance(): (b: real)
      reads this
      ensures b == View().balance
    {
      balance
    }

    /** `get_transaction_history`: a snapshot of the log, unaffected by later operations. */
    function GetTransactionHistory(): (h: seq<Transaction>)
      reads this
      ensures h == View().history
    {
      history
    }

    /** `_record`: append one entry to the log. */
    method Record(t: Transaction)
      modifies this`history
      ensures history == old(history) + [t]
    {
      history := history + [t];
    }

    /** `deposit` of all three classes (`ProAccount` adds its ceiling). */
    method Deposit(amount: real, stamp: Stamp) returns (r: Outcome)
      modifies this`balance, this`history
      ensures Reflects(old(View()), Rules.Deposit(old(View()), amount, stamp), r, View())
      ensures old(Valid()) ==> Valid()
    {
      ghost var before := View();
      var v := ValidatePositive(amount, "Deposit amount");
      if v.Fail? {
        return v;
      }
      if kind == Rules.Pro && amount > Rules.DepositCeiling {
        return Fail(DepositLimitError(amount));
      }
      balance := balance + amount;
      Record(DepositEntry(stamp.id, stamp.date, amount, balance));
      r := Pass;
      if Rules.ValidState(before) {
        Rules.DepositPreservesValid(before, amount, stamp);
      }
    }

    /** `withdraw` of the three classes. */
    method Withdraw(amount: real, stamp: Stamp) returns (r: Outcome)
      modifies this`balance, this`history
      ensures Reflects(old(View()), Rules.Withdraw(old(View()), amount, stamp), r, View())
      ensures old(Valid()) ==> Valid()
    {
      ghost var before := View();
      var v := ValidatePositive(amount, "Withdrawal amount");
      if v.Fail? {
        return v;
      }
      if kind == Rules.Savings && amount > Rules.WithdrawalCap {
        return Fail(WithdrawalLimitError(amount));
      }
      if kind == Rules.Pro {
        if balance - amount < Rules.OverdraftLimit {
          return Fail(InsufficientFundsError(amount, balance));
        }
      } else if amount > balance {
        return Fail(InsufficientFundsError(amount, balance));
      }
      balance := balance - amount;
      Record(WithdrawalEntry(stamp.id, stamp.date, amount, balance));
      r := Pass;
      if Rules.ValidState(before) {
        Rules.WithdrawPreservesValid(before, amount, stamp);
      }
    }

    /**
     * `transfer`: one atomic step on the two objects. It refuses a non-positive
     * amount, then the source object itself as target, then an amount above the
     * source's balance; otherwise both balances move and both logs get one entry
     * carrying `ref`.
     */
    method Transfer(target: Account, amount: real, outStamp: Stamp, inStamp: Stamp, ref: string) returns (r: Outcome)
      modifies this`balance, this`history, target`balance, target`history
      ensures match Rules.Transfer(old(View()), old(target.View()), target == this, amount, outStamp, inStamp, ref)
              case Success(p) => r == Pass && View() == p.0 && target.View() == p.1
              case Failure(e) => r == Fail(e) && View() == old(View()) && target.View() == old(target.View())
      ensures target != this && old(Valid()) && old(target.Valid()) ==> Valid() && target.Valid()
    {
      ghost var src, dst := View(), target.View();
      var v := ValidatePositive(amount, "Transfer amount");
      if v.Fail? {
        return v;
      }
      if target == this {
        return Fail(BankAccountError);
      }
      if amount > balance {
        return Fail(InsufficientFundsError(amount, balance));
      }
      balance := balance - amount;
      target.balance := target.balance + amount;
      Record(TransferOutEntry(outStamp.id, outStamp.date, amount, target.number, ref, balance));
      target.Record(TransferInEntry(inStamp.id, inStamp.date, amount, number, ref, target.balance));
      r := Pass;
      if Rules.ValidState(src) && Rules.ValidState(dst) {
        Rules.TransferPreservesValid(src, dst, amount, outStamp, inStamp, ref);
      }
    }

    /** `_to_dict`; a valid account's record restores to the same state exactly when its balance is above -1. */
    function ToDict(): (rec: Persistence.AccountRecord)
      reads this
      ensures rec == Persistence.ToRecord(View())
      ensures Valid() ==> (Persistence.Restore(rec) == Success(View()) <==> balance > -1.0)
    {
      if Valid() then
        Persistence.RoundTrip(View());
        Persistence.ToRecord(View())
      else
        Persistence.ToRecord(View())
    }

    /** `from_json` from the parsed record on: rebuild the recorded variant, constructor checks included. */
    static method FromDict(rec: Persistence.AccountRecord) returns (r: Result<Account>)
      ensures Persistence.Restore(rec).Failure? ==> r == Failure(Persistence.Restore(rec).error)
      ensures Persistence.Restore(rec).Success? ==>
                && r.Success? && fresh(r.value)
                && r.value.View() == Persistence.Restore(rec).value
                && r.value.Valid()
    {
      var kind := Persistence.LookupVariant(rec.accountType);
      if rec.accountNumber.None? {
        return Failure(KeyError("account_number"));
      }
      if rec.ownerName.None? {
        return Failure(KeyError("owner_name"));
      }
      var made := Open(kind, rec.accountNumber.value, rec.ownerName.value, rec.balance.GetOr(0.0));
      if made.Failure? {
        return Failure(made.error);
      }
      var a := made.value;
      a.history := rec.transactionHistory.GetOr([]);
      r := Success(a);
    }
  }

  /** A client: a freshly opened standard account holding 100 refuses to withdraw 150. */
  method ExampleRefusedWithdrawal(stamp: Stamp)
  {
    assert !IsSpace("A-1"[0]) && !IsSpace("A-1"[2]) && !IsSpace("Alice"[0]) && !IsSpace("Alice"[4]);
    StripOfTrimmed("A-1");
    StripOfTrimmed("Alice");
    var ra := Account.Open(Rules.Standard, "A-1", "Alice", 100.0);
    var a := ra.value;
    assert a.View() == Rules.State(Rules.Standard, "A-1", "Alice", 100.0, []);
    var w := a.Withdraw(150.0, stamp);
    assert w == Fail(InsufficientFundsError(150.0, 100.0));
    assert a.GetBalance() == 100.0 && a.GetTransactionHistory() == [];
  }

  /**
   * A client: the account then takes a deposit of 50, transfers 100 to a second,
   * empty account, and cannot transfer to itself.
   */
  method ExampleDepositAndTransfer(a: Account, b: Account, s1: Stamp, s2: Stamp, s3: Stamp, s4: Stamp, ref: string)
    requires a != b && a.number == "A-1" && b.number == "B-2" && a.kind == Rules.Standard
    requires a.balance == 100.0 && a.history == [] && b.balance == 0.0 && b.history == []
    modifies a, b
  {
    var d := a.Deposit(50.0, s1);
    var e1 := DepositEntry(s1.id, s1.date, 50.0, 150.0);
    assert d == Pass && a.GetBalance() == 150.0;
    assert a.GetTransactionHistory() == [] + [e1];
    var snapshot := a.GetTransactionHistory();

    var t := a.Transfer(b, 100.0, s2, s3, ref);
    assert t == Pass && a.GetBalance() == 50.0 && b.GetBalance() == 100.0;
    assert a.GetTransactionHistory()[1] == TransferOutEntry(s2.id, s2.date, 100.0, "B-2", ref, 50.0);
    assert b.GetTransactionHistory() == [] + [TransferInEntry(s3.id, s3.date, 100.0, "A-1", ref, 100.0)];
    assert snapshot == [e1];

    var again := a.Transfer(a, 10.0, s4, s4, ref);
    assert again == Fail(BankAccountError) && a.GetBalance() == 50.0;
  }
}
