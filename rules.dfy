/** The balance rules of the two account variants, stated on values.
    Amounts are exact reals: the program's `double` rounding is not modelled. */
module AccountRules {

  datatype Option<T> = None | Some(value: T)

  /** What a deposit or a withdrawal reports, in place of its console message. */
  datatype Outcome = Ok | NonPositiveAmount | InsufficientFunds

  /** The balance after one operation, together with what the operation reported. */
  datatype Step = Step(balance: real, outcome: Outcome)

  /** A savings withdrawal: the base step, and whether the large-amount advisory was given. */
  datatype SavingsStep = SavingsStep(advisory: bool, step: Step)

  /** The variant of an account; a savings account carries its interest rate in percent. */
  datatype Kind = Regular | Savings(interestRate: real)

  /** Withdrawals from a savings account above this amount draw an advisory. */
  const AdvisoryThreshold: real := 100000.0

  predicate ValidKind(kind: Kind)
  {
    kind.Savings? ==> kind.interestRate >= 0.0
  }

  /** A negative initial balance or interest rate is replaced by 0; anything else is kept. */
  function ClampNonNegative(x: real): (r: real)
    ensures r >= 0.0
    ensures x >= 0.0 ==> r == x
    ensures x < 0.0 ==> r == 0.0
  {
    if x >= 0.0 then x else 0.0
  }

  /** The deposit rule: only a positive amount is credited. */
  function DepositStep(balance: real, amount: real): (s: Step)
    ensures s.outcome == Ok <==> amount > 0.0
    ensures s.outcome != Ok ==> s.outcome == NonPositiveAmount
    ensures s.balance - balance == (if s.outcome == Ok then amount else 0.0)
    ensures balance >= 0.0 ==> s.balance >= balance
  {
    if amount > 0.0 then Step(balance + amount, Ok) else Step(balance, NonPositiveAmount)
  }

  /** The base withdrawal rule: only 0 < amount <= balance is debited. */
  function WithdrawStep(balance: real, amount: real): (s: Step)
    ensures s.outcome == Ok <==> 0.0 < amount <= balance
    ensures s.outcome == NonPositiveAmount <==> amount <= 0.0
    ensures s.outcome == InsufficientFunds <==> 0.0 < amount && balance < amount
    ensures balance - s.balance == (if s.outcome == Ok then amount else 0.0)
    ensures balance >= 0.0 ==> 0.0 <= s.balance <= balance
  {
    if amount > 0.0 then
      if amount <= balance then Step(balance - amount, Ok)
      else Step(balance, InsufficientFunds)
    else Step(balance, NonPositiveAmount)
  }

  /** The savings withdrawal: the advisory is additive, the balance follows the base rule. */
  function SavingsWithdrawStep(balance: real, amount: real): (r: SavingsStep)
    ensures r.advisory <==> amount > AdvisoryThreshold
    ensures r.step == WithdrawStep(balance, amount)
  {
    SavingsStep(amount > AdvisoryThreshold, WithdrawStep(balance, amount))
  }

  /** Interest for one accrual, also shown as the projected annual income. */
  function Interest(balance: real, rate: real): (r: real)
    ensures balance >= 0.0 && rate >= 0.0 ==> r >= 0.0
    ensures rate == 0.0 || balance == 0.0 ==> r == 0.0
  {
    balance * rate / 100.0
  }

  /** The balance after one accrual of interest. */
  function WithInterest(balance: real, rate: real): (r: real)
    ensures r == balance * (1.0 + rate / 100.0)
    ensures balance >= 0.0 && rate >= 0.0 ==> balance <= r
  {
    balance + Interest(balance, rate)
  }

  /** The operations the program performs on an account handle. `AccrueIfSavings`
      is the guarded call that adds interest only when the handle is a savings account. */
  datatype Op = DepositOp(amount: real) | WithdrawOp(amount: real) | AccrueIfSavings

  /** One operation, dispatched on the variant as the virtual `withdraw` is. */
  function ApplyOp(kind: Kind, balance: real, op: Op): (r: real)
    ensures ValidKind(kind) && balance >= 0.0 ==> r >= 0.0
    ensures op.DepositOp? ==> r == DepositStep(balance, op.amount).balance
    ensures op.WithdrawOp? ==> r == WithdrawStep(balance, op.amount).balance
    ensures op.AccrueIfSavings? && kind.Regular? ==> r == balance
    ensures op.AccrueIfSavings? && kind.Savings? ==> r == WithInterest(balance, kind.interestRate)
  {
    match op
    case DepositOp(amount) => DepositStep(balance, amount).balance
    case WithdrawOp(amount) =>
      if kind.Savings? then SavingsWithdrawStep(balance, amount).step.balance
      else WithdrawStep(balance, amount).balance
    case AccrueIfSavings =>
      if kind.Savings? then WithInterest(balance, kind.interestRate) else balance
  }

  /** The balance after a sequence of operations, applied first to last. */
  function Run(kind: Kind, balance: real, ops: seq<Op>): real
    decreases |ops|
  {
    if ops == [] then balance else Run(kind, ApplyOp(kind, balance, ops[0]), ops[1..])
  }

  /** A balance that starts non-negative stays non-negative under any sequence of operations. */
  lemma {:induction false} RunKeepsNonNegative(kind: Kind, balance: real, ops: seq<Op>)
    requires ValidKind(kind) && balance >= 0.0
    ensures Run(kind, balance, ops) >= 0.0
    decreases |ops|
  {
    if ops != [] {
      RunKeepsNonNegative(kind, ApplyOp(kind, balance, ops[0]), ops[1..]);
    }
  }

  /** Running two sequences one after the other is running their concatenation. */
  lemma {:induction false} RunAppend(kind: Kind, balance: real, ops: seq<Op>, more: seq<Op>)
    ensures Run(kind, balance, ops + more) == Run(kind, Run(kind, balance, ops), more)
    decreases |ops|
  {
    if ops == [] {
      assert ops + more == more;
    } else {
      assert (ops + more)[1..] == ops[1..] + more;
      RunAppend(kind, ApplyOp(kind, balance, ops[0]), ops[1..], more);
    }
  }

  predicate NoWithdrawals(ops: seq<Op>)
  {
    forall i :: 0 <= i < |ops| ==> !ops[i].WithdrawOp?
  }

  predicate NoAccruals(ops: seq<Op>)
  {
    forall i :: 0 <= i < |ops| ==> !ops[i].AccrueIfSavings?
  }

  /** Without withdrawals the balance never goes down: deposits and interest only add. */
  lemma {:induction false} RunWithoutWithdrawalsNeverDecreases(kind: Kind, balance: real, ops: seq<Op>)
    requires ValidKind(kind) && balance >= 0.0 && NoWithdrawals(ops)
    ensures balance <= Run(kind, balance, ops)
    decreases |ops|
  {
    if ops != [] {
      var next := ApplyOp(kind, balance, ops[0]);
      assert !ops[0].WithdrawOp?;
      assert balance <= next;
      assert NoWithdrawals(ops[1..]) by {
        forall i | 0 <= i < |ops[1..]| ensures !ops[1..][i].WithdrawOp? {
          assert ops[1..][i] == ops[i + 1];
        }
      }
      RunWithoutWithdrawalsNeverDecreases(kind, next, ops[1..]);
    }
  }

  /** The savings override of `withdraw` only adds an advisory: apart from accruing interest,
      a savings account and a regular account move their balances identically. */
  lemma {:induction false} SavingsMovesLikeRegular(rate: real, balance: real, ops: seq<Op>)
    requires NoAccruals(ops)
    ensures Run(Savings(rate), balance, ops) == Run(Regular, balance, ops)
    decreases |ops|
  {
    if ops != [] {
      assert !ops[0].AccrueIfSavings?;
      assert ApplyOp(Savings(rate), balance, ops[0]) == ApplyOp(Regular, balance, ops[0]);
      assert NoAccruals(ops[1..]) by {
        forall i | 0 <= i < |ops[1..]| ensures !ops[1..][i].AccrueIfSavings? {
          assert ops[1..][i] == ops[i + 1];
        }
      }
      SavingsMovesLikeRegular(rate, ApplyOp(Regular, balance, ops[0]), ops[1..]);
    }
  }

  /** A round that starts with the guarded accrual and then only deposits and withdraws depends
      on the variant through that accrual alone: afterwards both variants follow the base rules. */
  lemma {:induction false} AccrualThenBaseRules(kind: Kind, balance: real, rest: seq<Op>)
    requires NoAccruals(rest)
    ensures Run(kind, balance, [AccrueIfSavings] + rest)
         == Run(Regular, ApplyOp(kind, balance, AccrueIfSavings), rest)
  {
    var accrued := ApplyOp(kind, balance, AccrueIfSavings);
    RunAppend(kind, balance, [AccrueIfSavings], rest);
    assert Run(kind, balance, [AccrueIfSavings]) == accrued;
    if kind.Savings? {
      SavingsMovesLikeRegular(kind.interestRate, accrued, rest);
    }
  }

  /** A credited deposit is undone exactly by withdrawing the same amount. */
  lemma DepositThenWithdrawRestores(balance: real, amount: real)
    requires balance >= 0.0 && amount > 0.0
    ensures WithdrawStep(DepositStep(balance, amount).balance, amount) == Step(balance, Ok)
  {
  }

  /** A successful withdrawal is undone exactly by depositing the same amount. */
  lemma WithdrawThenDepositRestores(balance: real, amount: real)
    requires WithdrawStep(balance, amount).outcome == Ok
    ensures DepositStep(WithdrawStep(balance, amount).balance, amount) == Step(balance, Ok)
  {
  }

  /** A rejected operation changes nothing, so repeating it is rejected the same way. */
  lemma RejectedWithdrawalIsIdempotent(balance: real, amount: real)
    requires WithdrawStep(balance, amount).outcome != Ok
    ensures WithdrawStep(WithdrawStep(balance, amount).balance, amount) == WithdrawStep(balance, amount)
  {
  }
}
