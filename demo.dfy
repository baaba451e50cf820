/** The fixed demonstration the program's entry point runs, with its expected results.
    The console narration and `displayInfo` output are not modelled; each scenario
    returns the balances and the outcomes it would have reported. */
module Demo {
  import opened AccountRules
  import opened Accounts

  /** The operations the mixed-collection loop applies to every handle. */
  const LoopRound: seq<Op> := [AccrueIfSavings, DepositOp(5000.0), WithdrawOp(3000.0)]

  /** A regular account: deposit, a valid withdrawal, then one more than the balance. */
  method RegularAccountDemo() returns (balances: seq<real>, outcomes: seq<Outcome>)
    ensures balances == [50000.0, 65000.5, 56999.75, 56999.75]
    ensures outcomes == [Ok, Ok, InsufficientFunds]
  {
    var account := new BankAccount("40817810099910004312", "Литичевский Федор Александрович", 50000.0);
    balances := [account.GetBalance()];
    var deposited := account.Deposit(15000.5);
    balances := balances + [account.GetBalance()];
    var withdrawn, _ := account.Withdraw(8000.75);
    balances := balances + [account.GetBalance()];
    var refused, _ := account.Withdraw(70000.0);
    balances := balances + [account.GetBalance()];
    outcomes := [deposited, withdrawn, refused];
  }

  /** A savings account at 5.5%: interest, deposit, a small and a large withdrawal, interest. */
  method SavingsAccountDemo() returns (balances: seq<real>, interests: seq<real>, outcomes: seq<Outcome>, advisories: seq<bool>)
    ensures balances == [100000.0, 105500.0, 135500.0, 120500.0, 500.0, 527.5]
    ensures interests == [5500.0, 27.5]
    ensures outcomes == [Ok, Ok, Ok]
    ensures advisories == [false, true]
  {
    var account := new BankAccount.OpenSavings("40817810099910008888", "Александр Левин", 100000.0, 5.5);
    balances := [account.GetBalance()];
    var first := account.AddInterest();
    balances := balances + [account.GetBalance()];
    var deposited := account.Deposit(30000.0);
    balances := balances + [account.GetBalance()];
    var small, smallAdvised := account.Withdraw(15000.0);
    balances := balances + [account.GetBalance()];
    var large, largeAdvised := account.Withdraw(120000.0);
    balances := balances + [account.GetBalance()];
    var second := account.AddInterest();
    balances := balances + [account.GetBalance()];
    interests := [first, second];
    outcomes := [deposited, small, large];
    advisories := [smallAdvised, largeAdvised];
  }

  /** The loop over the array of base-typed handles: interest only where the downcast
      succeeds, then the same deposit and withdrawal for every account. */
  method ProcessEach(accounts: array<BankAccount>)
    requires forall i :: 0 <= i < accounts.Length ==> accounts[i].Valid()
    requires forall i, j :: 0 <= i < j < accounts.Length ==> accounts[i] != accounts[j]
    modifies set i | 0 <= i < accounts.Length :: accounts[i]
    ensures forall i :: 0 <= i < accounts.Length ==> accounts[i].Valid()
    ensures forall i :: 0 <= i < accounts.Length ==>
      accounts[i].balance == Run(accounts[i].kind, old(accounts[i].balance), LoopRound)
    ensures forall i :: 0 <= i < accounts.Length ==>
      accounts[i].balance
        == Run(Regular, ApplyOp(accounts[i].kind, old(accounts[i].balance), AccrueIfSavings), LoopRound[1..])
  {
    for n := 0 to accounts.Length
      invariant forall i :: 0 <= i < accounts.Length ==> accounts[i].Valid()
      invariant forall i :: 0 <= i < n ==>
        accounts[i].balance == Run(accounts[i].kind, old(accounts[i].balance), LoopRound)
      invariant forall i :: n <= i < accounts.Length ==> accounts[i].balance == old(accounts[i].balance)
    {
      var account := accounts[n];
      var rate := account.SavingsRate();
      if rate.Some? {
        var _ := account.AddInterest();
      }
      var _ := account.Deposit(5000.0);
      var _, _ := account.Withdraw(3000.0);
    }
  }

  /** The mixed collection: a regular account at 25000 and a savings account at 75000 and 4.2%. */
  method MixedCollectionDemo() returns (isSavings: seq<bool>, balances: seq<real>)
    ensures isSavings == [false, true]
    ensures balances == [27000.0, 80150.0]
  {
    var regular := new BankAccount("40817810099910001111", "Шевцов Федор", 25000.0);
    var savings := new BankAccount.OpenSavings("40817810099910002222", "Анисимов Арсений", 75000.0, 4.2);
    var accounts := new BankAccount[2][regular, savings];
    isSavings := [accounts[0].SavingsRate().Some?, accounts[1].SavingsRate().Some?];
    ProcessEach(accounts);
    balances := [accounts[0].GetBalance(), accounts[1].GetBalance()];
  }
}
