/** The accounts of Python/abstract.py: an abstract account with a guarded
    deposit, a savings account whose withdraw checks only that the balance
    covers the amount, and a checking account with the overdraft rule. */
module BankAbstract {
  import opened BankRules

  datatype Kind = Savings(interestRate: real) | Checking(overdraftLimit: real)

  /** The savings `withdraw`: no positivity check, so a negative amount is
      credited. */
  function SavingsWithdrawn(balance: real, amount: real): (r: real)
    ensures balance >= amount ==> r == balance - amount
    ensures balance < amount ==> r == balance
    ensures r != balance ==> r >= 0.0
    ensures amount < 0.0 && balance >= 0.0 ==> r > balance
  {
    if balance >= amount then balance - amount else balance
  }

  function WithdrawnBy(kind: Kind, balance: real, amount: real): (r: real)
    ensures kind.Savings? ==> r == SavingsWithdrawn(balance, amount)
    ensures kind.Checking? ==> r == OverdraftWithdrawn(balance, kind.overdraftLimit, amount)
  {
    match kind
    case Savings(_) => SavingsWithdrawn(balance, amount)
    case Checking(limit) => OverdraftWithdrawn(balance, limit, amount)
  }

  /** The savings rule differs from the base guarded rule exactly on
      amounts that are not positive (and covered). */
  lemma SavingsVersusGuarded(balance: real, amount: real)
    ensures amount > 0.0 ==> SavingsWithdrawn(balance, amount) == GuardedWithdrawn(balance, amount)
    ensures amount < 0.0 && balance >= amount ==>
      SavingsWithdrawn(balance, amount) != GuardedWithdrawn(balance, amount)
  {
  }

  class BankAccount {
    const accountHolder: string
    const accountType: string
    const kind: Kind
    var balance: real

    /** `SavingsAccount(holder, balance, interest_rate)`; the rate defaults
        to 0.05. */
    constructor Savings(accountHolder: string, balance: real, interestRate: real)
      ensures this.accountHolder == accountHolder && accountType == "savings"
      ensures kind == Kind.Savings(interestRate) && this.balance == balance
    {
      this.accountHolder := accountHolder;
      accountType := "savings";
      kind := Kind.Savings(interestRate);
      this.balance := balance;
    }

    /** `CheckingAccount(holder, balance, overdraft_limit)`; the limit
        defaults to 500. */
    constructor Checking(accountHolder: string, balance: real, overdraftLimit: real)
      ensures this.accountHolder == accountHolder && accountType == "checking"
      ensures kind == Kind.Checking(overdraftLimit) && this.balance == balance
    {
      this.accountHolder := accountHolder;
      accountType := "checking";
      kind := Kind.Checking(overdraftLimit);
      this.balance := balance;
    }

    function GetBalance(): (b: real)
      reads this
      ensures b == balance
    {
      balance
    }

    method Deposit(amount: real)
      modifies this
      ensures balance == Deposited(old(balance), amount)
    {
      if amount > 0.0 {
        balance := balance + amount;
      }
    }

    method Withdraw(amount: real)
      modifies this
      ensures balance == WithdrawnBy(kind, old(balance), amount)
    {
      match kind
      case Savings(_) =>
        if balance >= amount {
          balance := balance - amount;
        }
      case Checking(limit) =>
        if balance + limit >= amount {
          balance := balance - amount;
        }
    }

    /** Multiplies the balance by one plus the rate. */
    method ApplyInterest()
      requires kind.Savings?
      modifies this
      ensures balance == old(balance) * (1.0 + kind.interestRate)
    {
      balance := balance + balance * kind.interestRate;
    }
  }
}
