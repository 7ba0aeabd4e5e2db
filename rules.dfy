/**
 * The business rules of the three account variants, stated on account values.
 * Each function is one operation of the ledger: it either raises (a `Failure`
 * carrying the exception) and changes nothing, or returns the account state the
 * operation leaves behind. The class in module Accounts is proved against these.
 */
module Rules {
  import opened Text
  import opened Ledger

  /** The three account classes: `BankAccount`, `SaveAccount`, `ProAccount`. */
  datatype Variant = Standard | Savings | Pro

  /** `SaveAccount.WITHDRAWAL_LIMIT`. */
  const WithdrawalCap: real := 5000.0
  /** `ProAccount.DEPOSIT_CEILING`. */
  const DepositCeiling: real := 1000000.0
  /** `ProAccount.OVERDRAFT_LIMIT`. */
  const OverdraftLimit: real := -50000.0

  /** The observable state of an account. */
  datatype State = State(kind: Variant, number: string, owner: string, balance: real, history: seq<Transaction>)

  /** A name as the constructor stores it: stripped and not empty. */
  predicate IsStrippedName(s: string)
  {
    s != [] && Strip(s) == s
  }

  /** The lowest balance an account of the variant can reach. */
  predicate AboveFloor(kind: Variant, balance: real)
  {
    if kind == Pro then balance >= OverdraftLimit else balance > -1.0
  }

  /** What every account reachable through the operations below satisfies. */
  predicate ValidState(s: State)
  {
    IsStrippedName(s.number) && IsStrippedName(s.owner) && AboveFloor(s.kind, s.balance)
  }

  /**
   * `BankAccount.__init__` (used by all three classes): both names must contain a
   * non-whitespace character and `balance + 1` must be strictly positive.
   */
  function Open(kind: Variant, number: string, owner: string, balance: real): (r: Result<State>)
    ensures r.Success? <==> !AllSpace(number) && !AllSpace(owner) && balance > -1.0
    ensures AllSpace(number) ==> r == Failure(ValueError("account_number"))
    ensures !AllSpace(number) && AllSpace(owner) ==> r == Failure(ValueError("owner_name"))
    ensures !AllSpace(number) && !AllSpace(owner) && balance <= -1.0 ==>
              r == Failure(InvalidAmountError("Initial balance offset", balance + 1.0))
    ensures r.Success? ==> r.value == State(kind, Strip(number), Strip(owner), balance, [])
    ensures r.Success? ==> ValidState(r.value) && Chained(balance, r.value.history, r.value.balance)
  {
    StripEmptyIffAllSpace(number);
    StripEmptyIffAllSpace(owner);
    StripIdempotent(number);
    StripIdempotent(owner);
    if Strip(number) == [] then Failure(ValueError("account_number"))
    else if Strip(owner) == [] then Failure(ValueError("owner_name"))
    else match ValidatePositive(balance + 1.0, "Initial balance offset")
      case Fail(e) => Failure(e)
      case Pass => Success(State(kind, Strip(number), Strip(owner), balance, []))
  }

  /** `BankAccount.deposit` once the amount is known to be valid. */
  function Credit(s: State, amount: real, stamp: Stamp): (t: State)
  {
    var b := s.balance + amount;
    s.(balance := b, history := s.history + [DepositEntry(stamp.id, stamp.date, amount, b)])
  }

  /** `BankAccount.withdraw` once the amount is known to be allowed. */
  function Debit(s: State, amount: real, stamp: Stamp): (t: State)
  {
    var b := s.balance - amount;
    s.(balance := b, history := s.history + [WithdrawalEntry(stamp.id, stamp.date, amount, b)])
  }

  /** `deposit`, with `ProAccount`'s ceiling checked after the positivity check. */
  function Deposit(s: State, amount: real, stamp: Stamp): (r: Result<State>)
    ensures amount <= 0.0 ==> r == Failure(InvalidAmountError("Deposit amount", amount))
    ensures amount > 0.0 && s.kind == Pro && amount > DepositCeiling ==> r == Failure(DepositLimitError(amount))
    ensures r.Success? <==> amount > 0.0 && (s.kind == Pro ==> amount <= DepositCeiling)
    ensures r.Success? ==>
              && r.value.kind == s.kind && r.value.number == s.number && r.value.owner == s.owner
              && r.value.balance == s.balance + amount
              && r.value.history == s.history + [DepositEntry(stamp.id, stamp.date, amount, r.value.balance)]
  {
    match ValidatePositive(amount, "Deposit amount")
    case Fail(e) => Failure(e)
    case Pass =>
      if s.kind == Pro && amount > DepositCeiling then Failure(DepositLimitError(amount))
      else Success(Credit(s, amount, stamp))
  }

  /** Whether the variant lets `amount` (already known positive) leave the account. */
  predicate WithdrawalAllowed(kind: Variant, balance: real, amount: real)
  {
    match kind
    case Standard => amount <= balance
    case Savings => amount <= WithdrawalCap && amount <= balance
    case Pro => balance - amount >= OverdraftLimit
  }

  /**
   * `withdraw` of the three classes: `BankAccount` refuses `amount > balance`;
   * `SaveAccount` first refuses `amount > 5000` and then applies the base rule;
   * `ProAccount` refuses only a result below the overdraft limit.
   */
  function Withdraw(s: State, amount: real, stamp: Stamp): (r: Result<State>)
    ensures amount <= 0.0 ==> r == Failure(InvalidAmountError("Withdrawal amount", amount))
    ensures amount > 0.0 && s.kind == Savings && amount > WithdrawalCap ==> r == Failure(WithdrawalLimitError(amount))
    ensures amount > 0.0 && !(s.kind == Savings && amount > WithdrawalCap) && r.Failure? ==>
              r.error == InsufficientFundsError(amount, s.balance)
    ensures r.Success? <==> amount > 0.0 && WithdrawalAllowed(s.kind, s.balance, amount)
    ensures r.Success? ==>
              && r.value.kind == s.kind && r.value.number == s.number && r.value.owner == s.owner
              && r.value.balance == s.balance - amount
              && r.value.history == s.history + [WithdrawalEntry(stamp.id, stamp.date, amount, r.value.balance)]
    ensures r.Success? && s.kind != Pro ==> r.value.balance >= 0.0
    ensures r.Success? && s.kind == Pro ==> r.value.balance >= OverdraftLimit
  {
    match ValidatePositive(amount, "Withdrawal amount")
    case Fail(e) => Failure(e)
    case Pass =>
      match s.kind
      case Standard => BaseWithdraw(s, amount, stamp)
      case Savings =>
        if amount > WithdrawalCap then Failure(WithdrawalLimitError(amount))
        else BaseWithdraw(s, amount, stamp)
      case Pro =>
        if s.balance - amount < OverdraftLimit then Failure(InsufficientFundsError(amount, s.balance))
        else Success(Debit(s, amount, stamp))
  }

  /** `BankAccount.withdraw`, which `SaveAccount.withdraw` delegates to. */
  function BaseWithdraw(s: State, amount: real, stamp: Stamp): (r: Result<State>)
    ensures amount <= 0.0 ==> r == Failure(InvalidAmountError("Withdrawal amount", amount))
    ensures amount > 0.0 && amount > s.balance ==> r == Failure(InsufficientFundsError(amount, s.balance))
    ensures r.Success? <==> 0.0 < amount <= s.balance
    ensures r.Success? ==>
              && r.value.kind == s.kind && r.value.number == s.number && r.value.owner == s.owner
              && r.value.balance == s.balance - amount >= 0.0
              && r.value.history == s.history + [WithdrawalEntry(stamp.id, stamp.date, amount, r.value.balance)]
  {
    match ValidatePositive(amount, "Withdrawal amount")
    case Fail(e) => Failure(e)
    case Pass =>
      if amount > s.balance then Failure(InsufficientFundsError(amount, s.balance))
      else Success(Debit(s, amount, stamp))
  }

  /**
   * `transfer` from `src` to `dst`; `sameObject` says whether the target is the
   * source object itself. Only the base funds rule is applied, whatever the variants.
   */
  function Transfer(src: State, dst: State, sameObject: bool, amount: real,
                    outStamp: Stamp, inStamp: Stamp, ref: string): (r: Result<(State, State)>)
    ensures amount <= 0.0 ==> r == Failure(InvalidAmountError("Transfer amount", amount))
    ensures amount > 0.0 && sameObject ==> r == Failure(BankAccountError)
    ensures amount > 0.0 && !sameObject && amount > src.balance ==>
              r == Failure(InsufficientFundsError(amount, src.balance))
    ensures r.Success? <==> amount > 0.0 && !sameObject && amount <= src.balance
    ensures r.Success? ==> r.value.0.balance + r.value.1.balance == src.balance + dst.balance
    ensures r.Success? ==>
              var (src', dst') := r.value;
              && src'.kind == src.kind && src'.number == src.number && src'.owner == src.owner
              && dst'.kind == dst.kind && dst'.number == dst.number && dst'.owner == dst.owner
              && src'.balance == src.balance - amount >= 0.0
              && dst'.balance == dst.balance + amount
              && src'.history == src.history + [TransferOutEntry(outStamp.id, outStamp.date, amount, dst.number, ref, src'.balance)]
              && dst'.history == dst.history + [TransferInEntry(inStamp.id, inStamp.date, amount, src.number, ref, dst'.balance)]
  {
    match ValidatePositive(amount, "Transfer amount")
    case Fail(e) => Failure(e)
    case Pass =>
      if sameObject then Failure(BankAccountError)
      else if amount > src.balance then Failure(InsufficientFundsError(amount, src.balance))
      else
        var b := src.balance - amount;
        var c := dst.balance + amount;
        Success((src.(balance := b, history := src.history + [TransferOutEntry(outStamp.id, outStamp.date, amount, dst.number, ref, b)]),
                 dst.(balance := c, history := dst.history + [TransferInEntry(inStamp.id, inStamp.date, amount, src.number, ref, c)])))
  }

  /** Every accepted operation keeps an account valid. */
  lemma DepositPreservesValid(s: State, amount: real, stamp: Stamp)
    requires ValidState(s)
    ensures Deposit(s, amount, stamp).Success? ==> ValidState(Deposit(s, amount, stamp).value)
  {
  }

  lemma WithdrawPreservesValid(s: State, amount: real, stamp: Stamp)
    requires ValidState(s)
    ensures Withdraw(s, amount, stamp).Success? ==> ValidState(Withdraw(s, amount, stamp).value)
  {
  }

  lemma TransferPreservesValid(s: State, t: State, amount: real, outStamp: Stamp, inStamp: Stamp, ref: string)
    requires ValidState(s) && ValidState(t)
    ensures var r := Transfer(s, t, false, amount, outStamp, inStamp, ref);
            r.Success? ==> ValidState(r.value.0) && ValidState(r.value.1)
  {
  }

  /**
   * An accepted deposit or withdrawal appends exactly one entry whose `balance_after`
   * is the new balance, so a log that replays from `opening` to the balance still does.
   */
  lemma DepositKeepsLogChained(s: State, o: real, amount: real, stamp: Stamp)
    requires Chained(o, s.history, s.balance)
    ensures var r := Deposit(s, amount, stamp);
            r.Success? ==> Chained(o, r.value.history, r.value.balance)
  {
    var r := Deposit(s, amount, stamp);
    if r.Success? {
      var e := DepositEntry(stamp.id, stamp.date, amount, s.balance + amount);
      assert r.value.history == s.history + [e] && r.value.balance == s.balance + Delta(e);
      ChainedAppend(o, s.history, s.balance, e);
    }
  }

  lemma WithdrawKeepsLogChained(s: State, o: real, amount: real, stamp: Stamp)
    requires Chained(o, s.history, s.balance)
    ensures var r := Withdraw(s, amount, stamp);
            r.Success? ==> Chained(o, r.value.history, r.value.balance)
  {
    var r := Withdraw(s, amount, stamp);
    if r.Success? {
      var e := WithdrawalEntry(stamp.id, stamp.date, amount, s.balance - amount);
      assert r.value.history == s.history + [e] && r.value.balance == s.balance + Delta(e);
      ChainedAppend(o, s.history, s.balance, e);
    }
  }

  /** Both legs of an accepted transfer keep their account's log chained. */
  lemma TransferKeepsLogsChained(s: State, t: State, o: real, p: real, amount: real,
                                 outStamp: Stamp, inStamp: Stamp, ref: string)
    requires Chained(o, s.history, s.balance) && Chained(p, t.history, t.balance)
    ensures var r := Transfer(s, t, false, amount, outStamp, inStamp, ref);
            r.Success? ==> Chained(o, r.value.0.history, r.value.0.balance) && Chained(p, r.value.1.history, r.value.1.balance)
  {
    var r := Transfer(s, t, false, amount, outStamp, inStamp, ref);
    if r.Success? {
      var e := TransferOutEntry(outStamp.id, outStamp.date, amount, t.number, ref, s.balance - amount);
      var f := TransferInEntry(inStamp.id, inStamp.date, amount, s.number, ref, t.balance + amount);
      assert r.value.0.history == s.history + [e] && r.value.0.balance == s.balance + Delta(e);
      assert r.value.1.history == t.history + [f] && r.value.1.balance == t.balance + Delta(f);
      ChainedAppend(o, s.history, s.balance, e);
      ChainedAppend(p, t.history, t.balance, f);
    }
  }

  /**
   * The debit leg of a transfer checks only `amount > balance`: a pro account cannot
   * use its overdraft, a savings account is not capped, and the target's deposit
   * ceiling is not checked.
   */
  lemma TransferAppliesOnlyBaseRule(src: State, dst: State, amount: real, stamp: Stamp, inStamp: Stamp, ref: string)
    requires amount > 0.0
    ensures src.kind == Pro && src.balance < amount && src.balance - amount >= OverdraftLimit ==>
              Withdraw(src, amount, stamp).Success? && Transfer(src, dst, false, amount, stamp, inStamp, ref).Failure?
    ensures src.kind == Savings && WithdrawalCap < amount <= src.balance ==>
              Withdraw(src, amount, stamp).Failure? && Transfer(src, dst, false, amount, stamp, inStamp, ref).Success?
    ensures dst.kind == Pro && amount > DepositCeiling && amount <= src.balance ==>
              Deposit(dst, amount, inStamp).Failure? && Transfer(src, dst, false, amount, stamp, inStamp, ref).Success?
  {
  }

  /** A deposit or a withdrawal request, with the stamp its entry would carry. */
  datatype Request = DepositRequest(amount: real, stamp: Stamp) | WithdrawRequest(amount: real, stamp: Stamp)

  /** The amount a request adds to the balance when it is accepted: plus a deposit, minus a withdrawal. */
  function Signed(q: Request): (d: real)
  {
    match q
    case DepositRequest(a, _) => a
    case WithdrawRequest(a, _) => -a
  }

  /** Whether `deposit` or `withdraw` accepts the request on an account in state `s`. */
  predicate Accepts(s: State, q: Request)
  {
    && q.amount > 0.0
    && match q
       case DepositRequest(a, _) => s.kind == Pro ==> a <= DepositCeiling
       case WithdrawRequest(a, _) => WithdrawalAllowed(s.kind, s.balance, a)
  }

  /** The entry an accepted request appends, given the balance after it. */
  function EntryFor(q: Request, balanceAfter: real): (t: Transaction)
    ensures Delta(t) == Signed(q) && t.amount == q.amount && t.balanceAfter == balanceAfter
    ensures t.DepositEntry? <==> q.DepositRequest?
    ensures t.WithdrawalEntry? <==> q.WithdrawRequest?
  {
    match q
    case DepositRequest(a, st) => DepositEntry(st.id, st.date, a, balanceAfter)
    case WithdrawRequest(a, st) => WithdrawalEntry(st.id, st.date, a, balanceAfter)
  }

  /**
   * A request is accepted exactly when its operation allows it; an accepted one moves
   * the balance by the request's signed amount and appends the request's own entry.
   */
  function Apply(s: State, q: Request): (r: Result<State>)
    ensures r.Success? <==> Accepts(s, q)
    ensures r.Success? ==>
              && r.value.kind == s.kind && r.value.number == s.number && r.value.owner == s.owner
              && r.value.balance == s.balance + Signed(q)
              && r.value.history == s.history + [EntryFor(q, r.value.balance)]
  {
    match q
    case DepositRequest(a, st) => Deposit(s, a, st)
    case WithdrawRequest(a, st) => Withdraw(s, a, st)
  }

  /** The account after a series of requests, each rejected one leaving it as it was. */
  function Run(s: State, qs: seq<Request>): (f: State)
    decreases |qs|
  {
    if qs == [] then s
    else
      var s' := Run(s, qs[..|qs| - 1]);
      match Apply(s', qs[|qs| - 1])
      case Success(t) => t
      case Failure(_) => s'
  }

  /**
   * After any series of deposits and withdrawals the old log is a prefix of the new
   * one, and the new entries replay from the old balance to the final balance: the
   * final balance is the initial one plus the deposits minus the withdrawals.
   */
  lemma {:induction false} RunReplaysFromStart(s: State, qs: seq<Request>)
    ensures var f := Run(s, qs);
            && s.history <= f.history
            && Chained(s.balance, f.history[|s.history|..], f.balance)
            && f.kind == s.kind && f.number == s.number && f.owner == s.owner
    decreases |qs|
  {
    if qs == [] {
      assert s.history[|s.history|..] == [];
    } else {
      var s' := Run(s, qs[..|qs| - 1]);
      RunReplaysFromStart(s, qs[..|qs| - 1]);
      var tail := s'.history[|s.history|..];
      var q := qs[|qs| - 1];
      var r := Apply(s', q);
      if r.Success? {
        var t := r.value;
        var e := EntryFor(q, t.balance);
        assert t.history == s'.history + [e];
        assert t.history[|s.history|..] == tail + [e];
        ChainedAppend(s.balance, tail, s'.balance, e);
      }
    }
  }

  /** The signed amounts of the requests that were accepted, each on the state it met. */
  function AcceptedNet(s: State, qs: seq<Request>): (d: real)
    decreases |qs|
  {
    if qs == [] then 0.0
    else
      var q := qs[|qs| - 1];
      AcceptedNet(s, qs[..|qs| - 1]) + (if Accepts(Run(s, qs[..|qs| - 1]), q) then Signed(q) else 0.0)
  }

  /**
   * The final balance after a series of requests is the initial balance plus the
   * accepted deposits minus the accepted withdrawals.
   */
  lemma {:induction false} RunBalanceIsAcceptedNet(s: State, qs: seq<Request>)
    ensures Run(s, qs).balance == s.balance + AcceptedNet(s, qs)
    decreases |qs|
  {
    if qs != [] {
      RunBalanceIsAcceptedNet(s, qs[..|qs| - 1]);
    }
  }
}
