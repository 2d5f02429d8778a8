/** The accounts of Java/Questions/BankAccount.java. Savings accounts use
    the base guarded withdraw; the checking account's withdraw is written as
    `deposit(-amount)`, which the deposit guard silently discards for every
    positive amount. */
module BankJava {
  import opened BankRules

  datatype Kind = Savings(interestRate: real) | Checking(overdraftLimit: real)

  /** The checking account's withdraw: when the overdraft covers the amount
      it deposits the negated amount. */
  function CheckingWithdrawn(balance: real, limit: real, amount: real): (r: real)
    ensures balance + limit < amount ==> r == balance
    ensures balance + limit >= amount ==> r == Deposited(balance, -amount)
  {
    if balance + limit >= amount then Deposited(balance, -amount) else balance
  }

  /** No positive withdrawal ever changes a checking balance; only a negative
      amount within the limit does, and it credits the account. */
  lemma CheckingWithdrawIgnored(balance: real, limit: real, amount: real)
    ensures amount > 0.0 ==> CheckingWithdrawn(balance, limit, amount) == balance
    ensures amount < 0.0 && balance + limit >= amount ==>
      CheckingWithdrawn(balance, limit, amount) == balance - amount
  {
  }

  function WithdrawnBy(kind: Kind, balance: real, amount: real): (r: real)
    ensures kind.Savings? ==> r == GuardedWithdrawn(balance, amount)
    ensures kind.Checking? ==> r == CheckingWithdrawn(balance, kind.overdraftLimit, amount)
  {
    match kind
    case Savings(_) => GuardedWithdrawn(balance, amount)
    case Checking(limit) => CheckingWithdrawn(balance, limit, amount)
  }

  /** Between savings accounts a covered positive transfer keeps the total. */
  lemma SavingsTransferConserves(rate: real, source: real, target: real, amount: real)
    requires 0.0 < amount <= source
    ensures WithdrawnBy(Savings(rate), source, amount) + Deposited(target, amount) == source + target
  {
  }

  /** Between checking accounts a covered positive transfer leaves the source
      as it was and credits the target: the total grows by the amount. */
  lemma CheckingTransferCreates(limit: real, source: real, target: real, amount: real)
    requires 0.0 < amount <= source
    ensures WithdrawnBy(Checking(limit), source, amount) == source
    ensures WithdrawnBy(Checking(limit), source, amount) + Deposited(target, amount) == source + target + amount
  {
  }

  /** `applyInterest` deposits balance * rate, so it only has an effect when
      that product is positive. */
  function WithInterest(balance: real, rate: real): (r: real)
    ensures r != balance <==> balance * rate > 0.0
    ensures balance * rate > 0.0 ==> r == balance * (1.0 + rate)
  {
    Deposited(balance, (balance + balance * rate) - balance)
  }

  class BankAccount {
    const accountHolder: string
    const accountType: string
    const kind: Kind
    var balance: real

    constructor Savings(accountHolder: string, balance: real, interestRate: real)
      ensures this.accountHolder == accountHolder && accountType == "savings"
      ensures kind == Kind.Savings(interestRate) && this.balance == balance
    {
      this.accountHolder := accountHolder;
      accountType := "savings";
      kind := Kind.Savings(interestRate);
      this.balance := balance;
    }

    /** The two-argument constructor: a 5% rate. */
    constructor DefaultSavings(accountHolder: string, balance: real)
      ensures this.accountHolder == accountHolder && accountType == "savings"
      ensures kind == Kind.Savings(0.05) && this.balance == balance
    {
      this.accountHolder := accountHolder;
      accountType := "savings";
      kind := Kind.Savings(0.05);
      this.balance := balance;
    }

    constructor Checking(accountHolder: string, balance: real, overdraftLimit: real)
      ensures this.accountHolder == accountHolder && accountType == "checking"
      ensures kind == Kind.Checking(overdraftLimit) && this.balance == balance
    {
      this.accountHolder := accountHolder;
      accountType := "checking";
      kind := Kind.Checking(overdraftLimit);
      this.balance := balance;
    }

    /** The two-argument constructor: a 500 overdraft. */
    constructor DefaultChecking(accountHolder: string, balance: real)
      ensures this.accountHolder == accountHolder && accountType == "checking"
      ensures kind == Kind.Checking(500.0) && this.balance == balance
    {
      this.accountHolder := accountHolder;
      accountType := "checking";
      kind := Kind.Checking(500.0);
      this.balance := balance;
    }

    function GetBalance(): (b: real)
      reads this
      ensures b == balance
    {
      balance
    }

    method Deposit(amount: real)
      modifies this
      ensures balance == Deposited(old(balance), amount)
    {
      if amount > 0.0 {
        balance := balance + amount;
      }
    }

    method Withdraw(amount: real)
      modifies this
      ensures balance == WithdrawnBy(kind, old(balance), amount)
    {
      match kind
      case Savings(_) =>
        if amount > 0.0 && amount <= balance {
          balance := balance - amount;
        }
      case Checking(limit) =>
        if balance + limit >= amount {
          Deposit(-amount);
        }
    }

    /** Only a savings account has `applyInterest`. */
    method ApplyInterest()
      requires kind.Savings?
      modifies this
      ensures balance == WithInterest(old(balance), kind.interestRate)
    {
      var newBalance := GetBalance() + GetBalance() * kind.interestRate;
      Deposit(newBalance - GetBalance());
    }

    /** Withdraws then deposits when the account types are equal and the
        balance covers the amount. */
    method Transfer(amount: real, target: BankAccount)
      modifies this, target
      ensures !(accountType == target.accountType && old(balance) >= amount) ==>
        balance == old(balance) && target.balance == old(target.balance)
      ensures accountType == target.accountType && old(balance) >= amount && target != this ==>
        balance == WithdrawnBy(kind, old(balance), amount)
        && target.balance == Deposited(old(target.balance), amount)
      ensures accountType == target.accountType && old(balance) >= amount && target == this ==>
        balance == Deposited(WithdrawnBy(kind, old(balance), amount), amount)
    {
      if accountType == target.accountType && balance >= amount {
        Withdraw(amount);
        target.Deposit(amount);
      }
    }
  }

  function Processed(kind: Kind, balance: real, depositAmount: real, withdrawAmount: real): real {
    WithdrawnBy(kind, Deposited(balance, depositAmount), withdrawAmount)
  }

  function ProcessedTimes(kind: Kind, balance: real, depositAmount: real, withdrawAmount: real, n: nat): real {
    if n == 0 then balance
    else Processed(kind, ProcessedTimes(kind, balance, depositAmount, withdrawAmount, n - 1), depositAmount, withdrawAmount)
  }

  /** `BankSystem.processAccounts`: deposit then withdraw on each entry, in
      list order. */
  method ProcessAccounts(accounts: seq<BankAccount>, depositAmount: real, withdrawAmount: real)
    modifies set a | a in accounts
    ensures forall a :: a in accounts ==>
      a.balance == ProcessedTimes(a.kind, old(a.balance), depositAmount, withdrawAmount, multiset(accounts)[a])
  {
    for i := 0 to |accounts|
      invariant forall a :: a in accounts ==>
        a.balance == ProcessedTimes(a.kind, old(a.balance), depositAmount, withdrawAmount, multiset(accounts[..i])[a])
    {
      var account := accounts[i];
      assert accounts[..i + 1] == accounts[..i] + [account];
      label head:
      account.Deposit(depositAmount);
      account.Withdraw(withdrawAmount);
      forall a | a in accounts
        ensures a.balance == ProcessedTimes(a.kind, old(a.balance), depositAmount, withdrawAmount,
                                            multiset(accounts[..i + 1])[a])
      {
        var n := multiset(accounts[..i])[a];
        assert old@head(a.balance) == ProcessedTimes(a.kind, old(a.balance), depositAmount, withdrawAmount, n);
        if a == account {
          assert multiset(accounts[..i + 1])[a] == n + 1;
        } else {
          assert multiset(accounts[..i + 1])[a] == n;
        }
      }
    }
    assert accounts[..|accounts|] == accounts;
  }

  /** `BankSystem.main`: Alice's savings refuses the withdrawal and holds 70;
      Josh's checking withdrawal is discarded, so he holds 45, not -55. */
  method Demonstration() returns (alice: BankAccount, josh: BankAccount)
    ensures alice.balance == 70.0
    ensures josh.balance == 45.0
  {
    alice := new BankAccount.DefaultSavings("Alice", 50.0);
    josh := new BankAccount.DefaultChecking("Josh", 25.0);
    ProcessAccounts([alice, josh], 20.0, 100.0);
    assert multiset([alice, josh])[alice] == 1;
    assert multiset([alice, josh])[josh] == 1;
  }
}
