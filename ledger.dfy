/**
 * Errors, amount validation and the per-account transaction log of the bank ledger.
 */
module Ledger {
  import opened Text

  datatype Option<T> = None | Some(value: T) {
    /** `dict.get(key, default)` once the key's presence is modelled by the option. */
    function GetOr(default: T): T {
      match this
      case Some(v) => v
      case None => default
    }
  }

  /** The exceptions the ledger raises, with the operands their messages quote. */
  datatype Error =
    | InvalidAmountError(what: string, amount: real)       // amount not strictly positive
    | InsufficientFundsError(amount: real, balance: real)   // the debit would break the floor
    | WithdrawalLimitError(amount: real)                    // savings cap per withdrawal
    | DepositLimitError(amount: real)                       // pro ceiling per deposit
    | BankAccountError                                      // the base class itself: transfer to the very same object
    | ValueError(field: string)                             // empty account number or owner name
    | KeyError(key: string)                                 // a mandatory key missing from a record

  /** Outcome of an operation that returns nothing or raises. */
  datatype Outcome = Pass | Fail(error: Error)

  /** Outcome of an operation that returns a value or raises. */
  datatype Result<T> = Success(value: T) | Failure(error: Error)

  /** `_validate_positive`: an amount passes exactly when it is strictly positive. */
  function ValidatePositive(amount: real, what: string): (r: Outcome)
    ensures r.Pass? <==> amount > 0.0
    ensures r.Fail? ==> r.error == InvalidAmountError(what, amount)
  {
    if amount <= 0.0 then Fail(InvalidAmountError(what, amount)) else Pass
  }

  /** The `id` (a fresh uuid) and `date` (the current time) that `_record` stamps on an entry. */
  datatype Stamp = Stamp(id: string, date: string)

  /** One entry of an account's transaction history. */
  datatype Transaction =
    | DepositEntry(id: string, date: string, amount: real, balanceAfter: real)
    | WithdrawalEntry(id: string, date: string, amount: real, balanceAfter: real)
    | TransferOutEntry(id: string, date: string, amount: real, toAccount: string, ref: string, balanceAfter: real)
    | TransferInEntry(id: string, date: string, amount: real, fromAccount: string, ref: string, balanceAfter: real)

  /** The entry's `type` field. */
  function TypeName(t: Transaction): (name: string)
  {
    match t
    case DepositEntry(_, _, _, _) => "deposit"
    case WithdrawalEntry(_, _, _, _) => "withdrawal"
    case TransferOutEntry(_, _, _, _, _, _) => "transfer_out"
    case TransferInEntry(_, _, _, _, _, _) => "transfer_in"
  }

  /**
   * The statement prints `-` before an entry whose type contains "out" or is
   * "withdrawal": exactly the withdrawals and the outgoing transfers.
   */
  predicate ShownAsDebit(t: Transaction): (b: bool)
    ensures b <==> t.WithdrawalEntry? || t.TransferOutEntry?
  {
    OutOnlyInTransferOut(t);
    Contains(TypeName(t), "out") || TypeName(t) == "withdrawal"
  }

  /** The change an entry makes to the balance. */
  function Delta(t: Transaction): (d: real)
  {
    match t
    case DepositEntry(_, _, a, _) => a
    case TransferInEntry(_, _, a, _, _, _) => a
    case WithdrawalEntry(_, _, a, _) => -a
    case TransferOutEntry(_, _, a, _, _, _) => -a
  }

  /** A string that lacks one of the pattern's characters does not contain the pattern. */
  lemma {:induction false} MissingCharNotContained(s: string, pat: string, j: nat)
    requires j < |pat| && pat[j] !in s
    ensures !Contains(s, pat)
    decreases |s|
  {
    if |pat| <= |s| {
      assert s[..|pat|][j] == s[j];
      MissingCharNotContained(s[1..], pat, j);
    }
  }

  /** A string contains every pattern that occurs in it at some position. */
  lemma {:induction false} ContainedAt(s: string, pat: string, i: nat)
    requires i + |pat| <= |s| && s[i..i + |pat|] == pat
    ensures Contains(s, pat)
    decreases i
  {
    if i > 0 {
      assert s[1..][i - 1..i - 1 + |pat|] == s[i..i + |pat|];
      ContainedAt(s[1..], pat, i - 1);
    } else {
      assert s[..|pat|] == s[i..i + |pat|];
    }
  }

  /** Of the four type names, only "transfer_out" contains "out". */
  lemma OutOnlyInTransferOut(t: Transaction)
    ensures Contains(TypeName(t), "out") <==> t.TransferOutEntry?
  {
    match t
    case DepositEntry(_, _, _, _) =>
      MissingCharNotContained("deposit", "out", 1);
    case WithdrawalEntry(_, _, _, _) =>
      MissingCharNotContained("withdrawal", "out", 1);
    case TransferOutEntry(_, _, _, _, _, _) =>
      var s := "transfer_out";
      assert s[9..12] == "out";
      ContainedAt(s, "out", 9);
    case TransferInEntry(_, _, _, _, _, _) =>
      MissingCharNotContained("transfer_in", "out", 1);
  }

  /** The statement's sign agrees with the direction in which the entry moved the balance. */
  lemma SignMatchesDelta(t: Transaction)
    requires t.amount > 0.0
    ensures ShownAsDebit(t) <==> Delta(t) < 0.0
  {
  }

  /** Net change recorded by a history: deposits and incoming transfers minus the rest. */
  function Net(h: seq<Transaction>): (d: real)
  {
    if h == [] then 0.0 else Net(h[..|h| - 1]) + Delta(h[|h| - 1])
  }

  /**
   * The log invariant: starting from `opening`, the balance is the opening plus the
   * net change of the log, and every entry's `balance_after` is the balance just after it.
   */
  predicate Chained(opening: real, h: seq<Transaction>, balance: real)
  {
    && balance == opening + Net(h)
    && forall i :: 0 <= i < |h| ==> h[i].balanceAfter == opening + Net(h[..i + 1])
  }

  /** Appending an entry keeps the log chained exactly when its `balance_after` is the new balance. */
  lemma ChainedAppend(opening: real, h: seq<Transaction>, balance: real, t: Transaction)
    requires Chained(opening, h, balance)
    ensures Chained(opening, h + [t], balance + Delta(t)) <==> t.balanceAfter == balance + Delta(t)
  {
    var h' := h + [t];
    assert h'[..|h|] == h;
    assert h'[..|h| + 1] == h';
    forall i | 0 <= i < |h'|
      ensures h'[i].balanceAfter == opening + Net(h'[..i + 1]) <==> (i < |h| || t.balanceAfter == balance + Delta(t))
    {
      if i < |h| {
        assert h'[..i + 1] == h[..i + 1];
      }
    }
  }

  function Min(a: int, b: int): (m: int) { if a <= b then a else b }

  /**
   * The rows a statement shows: `history[-n:] if n else history`, with Python's
   * slicing (a positive `n` keeps the last `n` entries, a negative one drops the first `-n`).
   */
  function StatementRows(h: seq<Transaction>, n: Option<int>): (rows: seq<Transaction>)
    ensures |rows| <= |h| && rows == h[|h| - |rows|..]
    ensures n == None || n == Some(0) ==> rows == h
    ensures n.Some? && n.value > 0 ==> |rows| == Min(n.value, |h|)
    ensures n.Some? && n.value < 0 ==> |rows| == |h| - Min(-n.value, |h|)
  {
    if n.None? || n.value == 0 then h
    else if n.value > 0 then h[|h| - Min(n.value, |h|)..]
    else h[Min(-n.value, |h|)..]
  }
}
