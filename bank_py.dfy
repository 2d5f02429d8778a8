/** The accounts of bank.py: a base account with guarded deposit, withdraw
    and transfer, a savings account that adds interest, and a checking
    account whose withdraw allows an overdraft. */
module BankPy {
  import opened BankRules

  /** Which class an account was built from, with its extra attribute. */
  datatype Kind = Plain | Savings(interestRate: real) | Checking(overdraftLimit: real)

  /** The `withdraw` the account's class uses. */
  function WithdrawnBy(kind: Kind, balance: real, amount: real): (r: real)
    ensures kind.Checking? ==> r == OverdraftWithdrawn(balance, kind.overdraftLimit, amount)
    ensures !kind.Checking? ==> r == GuardedWithdrawn(balance, amount)
  {
    match kind
    case Checking(limit) => OverdraftWithdrawn(balance, limit, amount)
    case _ => GuardedWithdrawn(balance, amount)
  }

  /** Within a transfer (where balance >= amount) the withdrawal always goes
      through for a positive amount, as long as an overdraft limit is not
      negative; so the pair's total is kept. */
  lemma TransferConserves(kind: Kind, source: real, target: real, amount: real)
    requires 0.0 < amount <= source
    requires kind.Checking? ==> kind.overdraftLimit >= 0.0
    ensures WithdrawnBy(kind, source, amount) + Deposited(target, amount) == source + target
  {
  }

  /** With a negative overdraft limit, a checking account's transfer can
      credit the target without debiting the source. */
  lemma NegativeLimitTransferCreates()
    ensures WithdrawnBy(Checking(-10.0), 5.0, 5.0) + Deposited(0.0, 5.0) > 5.0 + 0.0
  {
  }

  class BankAccount {
    const accountHolder: string
    const accountType: string
    const kind: Kind
    var balance: real

    /** `BankAccount(holder, account_type, balance)`. */
    constructor (accountHolder: string, accountType: string, balance: real)
      ensures this.accountHolder == accountHolder && this.accountType == accountType
      ensures kind == Plain && this.balance == balance
    {
      this.accountHolder := accountHolder;
      this.accountType := accountType;
      kind := Plain;
      this.balance := balance;
    }

    /** `SavingsAccount(holder, balance, interest_rate)`; the source's
        defaults are 0 and 0.05. */
    constructor Savings(accountHolder: string, balance: real, interestRate: real)
      ensures this.accountHolder == accountHolder && accountType == "savings"
      ensures kind == Kind.Savings(interestRate) && this.balance == balance
    {
      this.accountHolder := accountHolder;
      accountType := "savings";
      kind := Kind.Savings(interestRate);
      this.balance := balance;
    }

    /** `CheckingAccount(holder, balance, overdraft_limit)`; the source's
        defaults are 0 and 500. */
    constructor Checking(accountHolder: string, balance: real, overdraftLimit: real)
      ensures this.accountHolder == accountHolder && accountType == "checking"
      ensures kind == Kind.Checking(overdraftLimit) && this.balance == balance
    {
      this.accountHolder := accountHolder;
      accountType := "checking";
      kind := Kind.Checking(overdraftLimit);
      this.balance := balance;
    }

    function GetBalance(): (b: real)
      reads this
      ensures b == balance
    {
      balance
    }

    method Deposit(amount: real)
      modifies this
      ensures balance == Deposited(old(balance), amount)
    {
      if amount > 0.0 {
        balance := balance + amount;
      }
    }

    /** The guarded rule, or the overdraft rule for a checking account. */
    method Withdraw(amount: real)
      modifies this
      ensures balance == WithdrawnBy(kind, old(balance), amount)
    {
      match kind
      case Checking(limit) =>
        if balance + limit >= amount {
          balance := balance - amount;
        }
      case _ =>
        if 0.0 < amount <= balance {
          balance := balance - amount;
        }
    }

    /** Only a savings account has `apply_interest`. */
    method ApplyInterest()
      requires kind.Savings?
      modifies this
      ensures balance == old(balance) * (1.0 + kind.interestRate)
    {
      balance := balance + balance * kind.interestRate;
    }

    /** Moves amount to target when both have the same account type and the
        balance covers it; the withdrawal itself may still refuse. */
    method Transfer(amount: real, target: BankAccount)
      modifies this, target
      ensures !(accountType == target.accountType && old(balance) >= amount) ==>
        balance == old(balance) && target.balance == old(target.balance)
      ensures accountType == target.accountType && old(balance) >= amount && target != this ==>
        balance == WithdrawnBy(kind, old(balance), amount)
        && target.balance == Deposited(old(target.balance), amount)
      ensures accountType == target.accountType && old(balance) >= amount && target == this ==>
        balance == Deposited(WithdrawnBy(kind, old(balance), amount), amount)
      ensures accountType == target.accountType && target != this && 0.0 < amount
              && (kind.Checking? ==> kind.overdraftLimit >= 0.0) ==>
        balance + target.balance == old(balance) + old(target.balance)
    {
      var current := GetBalance();
      if accountType == target.accountType && current >= amount {
        Withdraw(amount);
        target.Deposit(amount);
        if target != this && 0.0 < amount && (kind.Checking? ==> kind.overdraftLimit >= 0.0) {
          TransferConserves(kind, old(balance), old(target.balance), amount);
        }
      }
    }
  }

  /** One pass of `process_accounts` over an account: deposit, then withdraw. */
  function Processed(kind: Kind, balance: real, depositAmount: real, withdrawAmount: real): real {
    WithdrawnBy(kind, Deposited(balance, depositAmount), withdrawAmount)
  }

  /** n passes over the same account. */
  function ProcessedTimes(kind: Kind, balance: real, depositAmount: real, withdrawAmount: real, n: nat): real {
    if n == 0 then balance
    else Processed(kind, ProcessedTimes(kind, balance, depositAmount, withdrawAmount, n - 1), depositAmount, withdrawAmount)
  }

  /** Deposits then withdraws on each listed account, in list order; an
      account listed twice is processed twice. */
  method ProcessAccounts(accounts: seq<BankAccount>, depositAmount: real, withdrawAmount: real)
    modifies set a | a in accounts
    ensures forall a :: a in accounts ==>
      a.balance == ProcessedTimes(a.kind, old(a.balance), depositAmount, withdrawAmount, multiset(accounts)[a])
  {
    for i := 0 to |accounts|
      invariant forall a :: a in accounts ==>
        a.balance == ProcessedTimes(a.kind, old(a.balance), depositAmount, withdrawAmount, multiset(accounts[..i])[a])
    {
      var account := accounts[i];
      assert accounts[..i + 1] == accounts[..i] + [account];
      label head:
      account.Deposit(depositAmount);
      account.Withdraw(withdrawAmount);
      forall a | a in accounts
        ensures a.balance == ProcessedTimes(a.kind, old(a.balance), depositAmount, withdrawAmount,
                                            multiset(accounts[..i + 1])[a])
      {
        var n := multiset(accounts[..i])[a];
        assert old@head(a.balance) == ProcessedTimes(a.kind, old(a.balance), depositAmount, withdrawAmount, n);
        if a == account {
          assert multiset(accounts[..i + 1])[a] == n + 1;
        } else {
          assert multiset(accounts[..i + 1])[a] == n;
        }
      }
    }
    assert accounts[..|accounts|] == accounts;
  }

  /** The script at the end of the module: Alice's savings account refuses
      the 100 withdrawal and ends at 70; Josh's checking account overdraws
      to -55. */
  method Demonstration() returns (alice: BankAccount, josh: BankAccount)
    ensures alice.balance == 70.0
    ensures josh.balance == -55.0
  {
    alice := new BankAccount.Savings("Alice", 50.0, 0.05);
    josh := new BankAccount.Checking("Josh", 25.0, 500.0);
    ProcessAccounts([alice, josh], 20.0, 100.0);
    assert multiset([alice, josh])[alice] == 1;
    assert multiset([alice, josh])[josh] == 1;
  }
}
