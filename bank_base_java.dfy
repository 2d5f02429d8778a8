/** The single account class of Java/Questions/Bank.java: holder and type
    are final; deposit, withdraw and transfer are the guarded base rules. */
module BankBaseJava {
  import opened BankRules

  class BankAccount {
    const accountHolder: string
    const accountType: string
    var balance: real

    constructor (accountHolder: string, accountType: string, balance: real)
      ensures this.accountHolder == accountHolder && this.accountType == accountType
      ensures this.balance == balance
    {
      this.accountHolder := accountHolder;
      this.accountType := accountType;
      this.balance := balance;
    }

    function GetBalance(): (b: real)
      reads this
      ensures b == balance
    {
      balance
    }

    function GetAccountHolder(): (h: string)
      ensures h == accountHolder
    {
      accountHolder
    }

    method Deposit(amount: real)
      modifies this
      ensures balance == Deposited(old(balance), amount)
    {
      if amount > 0.0 {
        balance := balance + amount;
      }
    }

    /** Any withdrawal that happens leaves a non-negative balance. */
    method Withdraw(amount: real)
      modifies this
      ensures balance == GuardedWithdrawn(old(balance), amount)
    {
      if amount > 0.0 && amount <= balance {
        balance := balance - amount;
      }
    }

    /** A no-op unless both types are equal and the balance covers the
        amount; between distinct accounts, a positive transfer keeps the
        sum of the two balances. */
    method Transfer(amount: real, target: BankAccount)
      modifies this, target
      ensures !(accountType == target.accountType && old(balance) >= amount) ==>
        balance == old(balance) && target.balance == old(target.balance)
      ensures accountType == target.accountType && old(balance) >= amount && target != this ==>
        balance == GuardedWithdrawn(old(balance), amount)
        && target.balance == Deposited(old(target.balance), amount)
      ensures accountType == target.accountType && old(balance) >= amount && target == this ==>
        balance == Deposited(GuardedWithdrawn(old(balance), amount), amount)
      ensures target != this && 0.0 < amount ==>
        balance + target.balance == old(balance) + old(target.balance)
    {
      if accountType == target.accountType && balance >= amount {
        Withdraw(amount);
        target.Deposit(amount);
        if target != this && 0.0 < amount {
          GuardedTransferConserves(old(balance), old(target.balance), amount);
        }
      }
    }
  }
}
