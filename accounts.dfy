/** The account object. `BankAccount` and its derived `SavingsAccount` become one class whose
    `kind` tells the variant apart; the savings interest rate lives in that tag, since it is
    set once by the savings constructor and never changed afterwards. */
module Accounts {
  import opened AccountRules

  class BankAccount {
    const accountNumber: string
    const ownerName: string
    const kind: Kind
    var balance: real

    /** The object invariant: the balance and the interest rate are never negative. */
    ghost predicate Valid()
      reads this
    {
      balance >= 0.0 && ValidKind(kind)
    }

    /** A regular account; a negative initial balance is clamped to 0. */
    constructor (accNum: string, owner: string, initialBalance: real)
      ensures accountNumber == accNum && ownerName == owner && kind == Regular
      ensures balance == (if initialBalance >= 0.0 then initialBalance else 0.0)
      ensures Valid()
    {
      accountNumber := accNum;
      ownerName := owner;
      kind := Regular;
      balance := ClampNonNegative(initialBalance);
    }

    /** A savings account: the base part is set up first, then a negative rate is clamped to 0. */
    constructor OpenSavings(accNum: string, owner: string, initialBalance: real, rate: real)
      ensures accountNumber == accNum && ownerName == owner
      ensures balance == (if initialBalance >= 0.0 then initialBalance else 0.0)
      ensures kind == Savings(if rate >= 0.0 then rate else 0.0)
      ensures Valid()
    {
      accountNumber := accNum;
      ownerName := owner;
      balance := ClampNonNegative(initialBalance);
      kind := Savings(ClampNonNegative(rate));
    }

    function GetBalance(): (r: real)
      reads this
      ensures Valid() ==> r >= 0.0
    {
      balance
    }

    /** The safe downcast: the interest rate when this is a savings account, nothing otherwise. */
    function SavingsRate(): (r: Option<real>)
      ensures r.Some? <==> kind.Savings?
      ensures r.Some? ==> r.value == kind.interestRate
    {
      if kind.Savings? then Some(kind.interestRate) else None
    }

    /** The projected annual income a savings account displays; it changes nothing. */
    function ProjectedAnnualIncome(): (r: real)
      reads this
      requires kind.Savings?
      ensures Valid() ==> r >= 0.0
      ensures r == balance * kind.interestRate / 100.0
    {
      Interest(balance, kind.interestRate)
    }

    method Deposit(amount: real) returns (outcome: Outcome)
      requires Valid()
      modifies this
      ensures Valid()
      ensures Step(balance, outcome) == DepositStep(old(balance), amount)
      ensures balance == ApplyOp(kind, old(balance), DepositOp(amount))
    {
      if amount > 0.0 {
        balance := balance + amount;
        outcome := Ok;
      } else {
        outcome := NonPositiveAmount;
      }
    }

    /** The base class's `withdraw`, which the savings override defers to. */
    method BaseWithdraw(amount: real) returns (outcome: Outcome)
      requires Valid()
      modifies this
      ensures Valid()
      ensures Step(balance, outcome) == WithdrawStep(old(balance), amount)
    {
      if amount > 0.0 {
        if amount <= balance {
          balance := balance - amount;
          outcome := Ok;
        } else {
          outcome := InsufficientFunds;
        }
      } else {
        outcome := NonPositiveAmount;
      }
    }

    /** The virtual `withdraw`: a savings account first gives its advisory for large amounts,
        then either variant applies the base rule. */
    method Withdraw(amount: real) returns (outcome: Outcome, advisory: bool)
      requires Valid()
      modifies this
      ensures Valid()
      ensures advisory <==> kind.Savings? && amount > AdvisoryThreshold
      ensures kind.Savings? ==>
        SavingsStep(advisory, Step(balance, outcome)) == SavingsWithdrawStep(old(balance), amount)
      ensures Step(balance, outcome) == WithdrawStep(old(balance), amount)
      ensures balance == ApplyOp(kind, old(balance), WithdrawOp(amount))
    {
      advisory := false;
      if kind.Savings? {
        advisory := amount > AdvisoryThreshold;
      }
      outcome := BaseWithdraw(amount);
    }

    /** Adds one accrual of interest to the balance and returns the interest credited. */
    method AddInterest() returns (interest: real)
      requires Valid() && kind.Savings?
      modifies this
      ensures Valid()
      ensures interest == old(ProjectedAnnualIncome())
      ensures balance == old(balance) + interest
      ensures balance == old(balance) * (1.0 + kind.interestRate / 100.0)
      ensures old(balance) <= balance
      ensures balance == ApplyOp(kind, old(balance), AccrueIfSavings)
    {
      interest := Interest(balance, kind.interestRate);
      balance := balance + interest;
    }
  }
}
