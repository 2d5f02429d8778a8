/** The balance rules the four bank-account programs are built from, as
    functions of the balance before the call. Balances are `real`: the
    sources use Python numbers and Java doubles, whose rounding is not
    modelled. */
module BankRules {

  /** `deposit`: only a positive amount is credited. */
  function Deposited(balance: real, amount: real): (r: real)
    ensures amount > 0.0 ==> r == balance + amount
    ensures amount <= 0.0 ==> r == balance
    ensures r >= balance
  {
    if amount > 0.0 then balance + amount else balance
  }

  /** The base `withdraw`: subtracts only when 0 < amount <= balance. */
  function GuardedWithdrawn(balance: real, amount: real): (r: real)
    ensures 0.0 < amount <= balance ==> r == balance - amount
    ensures !(0.0 < amount <= balance) ==> r == balance
    ensures r <= balance
    ensures r != balance ==> r >= 0.0
  {
    if 0.0 < amount <= balance then balance - amount else balance
  }

  /** The overdraft `withdraw`: subtracts whenever the balance plus the limit
      covers the amount, with no check that the amount is positive. */
  function OverdraftWithdrawn(balance: real, limit: real, amount: real): (r: real)
    ensures balance + limit >= amount ==> r == balance - amount
    ensures balance + limit < amount ==> r == balance
    ensures r != balance ==> r >= -limit
  {
    if balance + limit >= amount then balance - amount else balance
  }

  /** A negative "withdrawal" under the overdraft rule raises the balance. */
  lemma OverdraftNegativeAmountCredits(balance: real, limit: real, amount: real)
    requires amount < 0.0 && limit >= 0.0 && balance >= 0.0
    ensures OverdraftWithdrawn(balance, limit, amount) == balance - amount > balance
  {
  }

  /** Money withdrawn by the guarded rule and deposited elsewhere is neither
      created nor destroyed. */
  lemma GuardedTransferConserves(source: real, target: real, amount: real)
    requires 0.0 < amount <= source
    ensures GuardedWithdrawn(source, amount) + Deposited(target, amount) == source + target
  {
  }
}
