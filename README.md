# Bank accounts: a regular account and a savings account

A model of the two account classes of `bankWork_task2.cpp` and of the fixed demonstration its
`main` runs.

- A **bank account** has an account number, an owner name and a balance. A negative initial
  balance is clamped to 0. `deposit` credits only a positive amount. `withdraw` debits only an
  amount with 0 < amount ≤ balance. Every other request leaves the balance alone and reports an
  error.
- A **savings account** is a bank account with an interest rate in percent. A negative rate is
  clamped to 0. `addInterest` adds `balance * rate / 100` to the balance. Its `withdraw` override
  gives an advisory for amounts over 100000 and then always applies the base rule.

Layout:

- `rules.dfy`, module `AccountRules`: the rules as functions on values. It has the outcome tags
  that replace the console messages (`Ok`, `NonPositiveAmount`, `InsufficientFunds`), the variant
  tag `Kind = Regular | Savings(interestRate)`, and one step function per operation. It also has
  `Run`, which applies a sequence of operations to a balance, and the lemmas about it.
- `accounts.dfy`, module `Accounts`: class `BankAccount`. Both C++ classes become this one class,
  and its `kind` tells them apart. Its methods change `balance` in place, as the source does. Each
  method's `ensures` ties the new balance and the reported outcome to the step functions. The
  object invariant `Valid()` (balance ≥ 0 and rate ≥ 0) is set up by both constructors and kept
  by every method, for the finite amounts the model works with.
- `demo.dfy`, module `Demo`: the three scenarios of `main`, with the balances they reach. This
  includes the loop over the array of base-typed handles, where interest is added only when the
  downcast to a savings account succeeds.

Amounts are exact `real`s. Virtual dispatch of `withdraw` is a branch on `kind`. The
`dynamic_cast` is `SavingsRate()`, which returns `Some(rate)` only for a savings account. The
interest rate is a constant of the `Savings` tag: the source sets it in the savings constructor
and never changes it afterwards, so "the rate is unchanged" holds by construction.

## Model

| member | source | states |
|---|---|---|
| AccountRules.ClampNonNegative | bankWork_task2.cpp:20-25 | the clamp used for the initial balance and the rate: the result is never negative, equals the input when that is ≥ 0, and is exactly 0 otherwise |
| Accounts.BankAccount.constructor | bankWork_task2.cpp:16-26 | number and owner are stored unchanged; balance is the initial balance when ≥ 0 and 0 otherwise; the account is regular and satisfies the invariant |
| Accounts.BankAccount.OpenSavings | bankWork_task2.cpp:82-91 | balance follows the base constructor's rule; the rate is `rate` when ≥ 0 and 0 otherwise; the invariant holds |
| Accounts.BankAccount.GetBalance | bankWork_task2.cpp:65-67 | reads the balance without changing anything; it is non-negative on a valid account |
| AccountRules.DepositStep | bankWork_task2.cpp:29-37 | success exactly when amount > 0, and then the balance grows by exactly `amount`; otherwise `NonPositiveAmount` and the balance is unchanged |
| Accounts.BankAccount.Deposit | bankWork_task2.cpp:29-37 | the new balance and the reported outcome are those of `DepositStep` on the old balance; the invariant is kept |
| AccountRules.WithdrawStep | bankWork_task2.cpp:40-54 | success exactly when 0 < amount ≤ balance, and then the balance drops by exactly `amount`; `NonPositiveAmount` exactly when amount ≤ 0; `InsufficientFunds` exactly when 0 < amount and amount > balance; a rejected request changes nothing; a non-negative balance stays non-negative |
| Accounts.BankAccount.BaseWithdraw | bankWork_task2.cpp:40-54 | the base `withdraw`: new balance and outcome are those of `WithdrawStep`; the invariant is kept |
| AccountRules.SavingsWithdrawStep | bankWork_task2.cpp:110-117 | the advisory is given exactly when amount > 100000, and the balance step is exactly the base rule's, whether or not the advisory is given |
| Accounts.BankAccount.Withdraw | bankWork_task2.cpp:110-117 | the virtual `withdraw`: the advisory is given only by a savings account and only above 100000, and for a savings account advisory, new balance and outcome are exactly `SavingsWithdrawStep` on the old balance; for both variants the new balance and outcome are the base rule's; the invariant is kept |
| AccountRules.Interest | bankWork_task2.cpp:95 | the interest of one accrual is non-negative for a non-negative balance and rate, and 0 when either is 0 |
| AccountRules.WithInterest | bankWork_task2.cpp:94-96 | the balance after accrual is `balance * (1 + rate / 100)` and never below the old balance when both are non-negative |
| Accounts.BankAccount.AddInterest | bankWork_task2.cpp:94-99 | the interest credited equals the projected annual income shown just before; the balance becomes `old * (1 + rate / 100)`, never decreases and stays non-negative; the rate is unchanged |
| Accounts.BankAccount.ProjectedAnnualIncome | bankWork_task2.cpp:105-106 | the projected annual income `balance * rate / 100` of a savings account, non-negative on a valid account |
| Accounts.BankAccount.SavingsRate | bankWork_task2.cpp:198-199 | the downcast succeeds exactly for a savings account and then yields its rate |
| AccountRules.ApplyOp | bankWork_task2.cpp:198-206 | one operation through a base-typed handle: deposits and withdrawals move the balance by the base rules for both variants, the guarded accrual leaves a regular account alone and gives a savings account exactly one accrual of interest (`WithInterest`), and a non-negative balance stays non-negative |
| AccountRules.RunKeepsNonNegative | bankWork_task2.cpp:20-54 | a balance that starts non-negative is non-negative after any sequence of deposits, withdrawals and accruals |
| AccountRules.RunAppend | bankWork_task2.cpp:204-206 | applying two sequences of operations in turn is the same as applying their concatenation |
| AccountRules.AccrualThenBaseRules | bankWork_task2.cpp:198-206 | in a round that starts with the guarded accrual and then only deposits and withdraws, the variant matters only through that accrual: afterwards the balance moves as a regular account's would |
| AccountRules.RunWithoutWithdrawalsNeverDecreases | bankWork_task2.cpp:29-99 | with no withdrawals, deposits and accruals never lower a non-negative balance |
| AccountRules.SavingsMovesLikeRegular | bankWork_task2.cpp:110-117 | apart from accruals, a savings account and a regular account end with the same balance after the same operations: the override changes nothing about the balance |
| AccountRules.DepositThenWithdrawRestores | bankWork_task2.cpp:29-45 | a credited deposit followed by a withdrawal of the same amount succeeds and restores the balance |
| AccountRules.WithdrawThenDepositRestores | bankWork_task2.cpp:29-45 | a successful withdrawal followed by a deposit of the same amount succeeds and restores the balance |
| AccountRules.RejectedWithdrawalIsIdempotent | bankWork_task2.cpp:41-53 | a rejected withdrawal leaves the balance as it was, so repeating it is rejected in the same way |
| Demo.RegularAccountDemo | bankWork_task2.cpp:129-147 | 50000 → deposit 15000.50 → 65000.50 → withdraw 8000.75 → 56999.75 → withdraw 70000 refused with `InsufficientFunds`, balance still 56999.75 |
| Demo.SavingsAccountDemo | bankWork_task2.cpp:153-182 | 100000 at 5.5% → interest 5500 → 105500 → 135500 → 120500 → withdraw 120000 with advisory, accepted → 500 → interest 27.5 → 527.5 |
| Demo.ProcessEach | bankWork_task2.cpp:193-208 | every account in the array ends at the balance of "accrue if savings, deposit 5000, withdraw 3000" applied to its own old balance, which equals the base rules applied after the guarded accrual; every account stays valid |
| Demo.MixedCollectionDemo | bankWork_task2.cpp:188-208 | the downcast tells the regular handle from the savings handle; the balances end at 27000 and 80150 |

## Left out

- Console output: all messages, the Russian texts and the `fixed`/`setprecision` formatting. Operations return an outcome tag, plus an advisory flag for `withdraw`, instead of printing.
- `displayInfo` of both classes only prints. Its one computed figure, the projected annual income, is `ProjectedAnnualIncome`.
- The diagnostic printed when a constructor clamps a negative balance or rate. Dafny constructors have no out-parameters. The clamped values themselves are modelled.
- The destructor's closing message and the `new`/`delete` of the pointer array. With automatic memory management these are lifetime bookkeeping only.
- IEEE `double` arithmetic. Amounts are exact reals, so the stated equalities hold in real arithmetic. They need not hold bit for bit for doubles, for example for the 5.5% and 4.2% interest. Infinities and NaN are not modelled either, and for them the source does not keep `balance >= 0`: `deposit` credits an infinite amount (it is > 0), a following `withdraw` of that infinite amount passes both tests and leaves `inf - inf`, which is NaN; two deposits near the largest double overflow to infinity the same way; a NaN amount is reported as non-positive. The invariant `Valid()`, `RunKeepsNonNegative` and the other non-negativity claims hold for finite amounts only.
- C++ virtual dispatch and `dynamic_cast` as language mechanisms. They are replaced by the `Kind` tag.
- The order in the savings constructor, "base part first, then the rate", is visible in the source only through the order of the two diagnostics. Those are not modelled, so the constructor states only the final state.
