/** The deposit accounts of the banking library: one class with a variant tag
    stands for the BankAccount hierarchy, and `Withdraw` dispatches on the tag
    the way the virtual `withdraw` dispatches on the dynamic type (only
    Checking overrides it). */
module Accounts {

  /** CheckingAccount's constructor fixes its overdraft limit. */
  const OverdraftLimit: real := 1000.0
  /** Default interest rate of a SavingsAccount, in percent per year. */
  const DefaultSavingsRate: real := 5.0
  /** Default term of a FixedDepositAccount, in months. */
  const DefaultFixedDepositTerm: int := 0
  /** The rate a FixedDepositAccount always pays, whatever else is stored. */
  const FixedDepositAnnualRate: real := 7.0

  datatype AccountKind =
    | Plain
    | Savings(interestRate: real)
    | Checking(overdraftLimit: real)
    | FixedDeposit(term: int)

  /** What Checking's checkOverdraft reports. */
  datatype OverdraftReport = OverdraftReport(totalAvailable: real, allowed: bool)

  /** The lowest balance a withdrawal may leave: zero under the base rule,
      minus the overdraft limit for Checking. */
  function BalanceFloor(kind: AccountKind): real
  {
    if kind.Checking? then -kind.overdraftLimit else 0.0
  }

  /** Whether `withdraw` takes the money: BankAccount::withdraw for the base
      class, Savings and FixedDeposit, the CheckingAccount override for
      Checking. Exactly the
      positive amounts that keep the balance at or above the floor. */
  predicate WithdrawAccepted(kind: AccountKind, balance: real, amount: real): (ok: bool)
    ensures ok <==> 0.0 < amount && BalanceFloor(kind) <= balance - amount
  {
    match kind
    case Checking(limit) => amount > 0.0 && amount <= balance + limit
    case _ => amount > 0.0 && amount <= balance
  }

  /** Simple annual interest on `balance` at `ratePercent` per cent. */
  function AnnualInterest(balance: real, ratePercent: real): real
  {
    balance * ratePercent / 100.0
  }

  class Account {
    const accountNumber: string
    const accountHolderName: string
    const kind: AccountKind
    var balance: real

    /** The balance is within what withdrawals may reach. */
    ghost predicate AboveFloor()
      reads this
    {
      BalanceFloor(kind) <= balance
    }

    /** A BankAccount of the base class. */
    constructor Open(accountNumber: string := "", holderName: string := "", balance: real := 0.0)
      ensures this.accountNumber == accountNumber && this.accountHolderName == holderName
      ensures this.balance == balance && kind == Plain
    {
      this.accountNumber := accountNumber;
      this.accountHolderName := holderName;
      this.balance := balance;
      this.kind := Plain;
    }

    constructor OpenSavings(accountNumber: string := "", holderName: string := "", balance: real := 0.0,
                            interestRate: real := DefaultSavingsRate)
      ensures this.accountNumber == accountNumber && this.accountHolderName == holderName
      ensures this.balance == balance && kind == Savings(interestRate)
    {
      this.accountNumber := accountNumber;
      this.accountHolderName := holderName;
      this.balance := balance;
      this.kind := Savings(interestRate);
    }

    constructor OpenChecking(accountNumber: string := "", holderName: string := "", balance: real := 0.0)
      ensures this.accountNumber == accountNumber && this.accountHolderName == holderName
      ensures this.balance == balance && kind == Checking(OverdraftLimit)
    {
      this.accountNumber := accountNumber;
      this.accountHolderName := holderName;
      this.balance := balance;
      this.kind := Checking(OverdraftLimit);
    }

    constructor OpenFixedDeposit(accountNumber: string := "", holderName: string := "", balance: real := 0.0,
                                 term: int := DefaultFixedDepositTerm)
      ensures this.accountNumber == accountNumber && this.accountHolderName == holderName
      ensures this.balance == balance && kind == FixedDeposit(term)
    {
      this.accountNumber := accountNumber;
      this.accountHolderName := holderName;
      this.balance := balance;
      this.kind := FixedDeposit(term);
    }

    /** A positive amount is added; anything else is refused and changes nothing. */
    method Deposit(amount: real)
      modifies this
      ensures balance == if amount > 0.0 then old(balance) + amount else old(balance)
      ensures old(AboveFloor()) ==> AboveFloor()
    {
      if amount > 0.0 {
        balance := balance + amount;
      }
    }

    /** The money leaves exactly when the variant's rule accepts it; a refused
        withdrawal changes nothing. */
    method Withdraw(amount: real)
      modifies this
      ensures balance == if WithdrawAccepted(kind, old(balance), amount) then old(balance) - amount else old(balance)
      ensures old(AboveFloor()) ==> AboveFloor()
    {
      match kind
      case Checking(overdraftLimit) =>
        var totalAvailable := balance + overdraftLimit;
        if amount > 0.0 && amount <= totalAvailable {
          balance := balance - amount;
        }
      case _ =>
        if amount > 0.0 && amount <= balance {
          balance := balance - amount;
        }
    }

    /** calculateInterest of Savings (at the stored rate) and of FixedDeposit
        (at 7% a year, prorated over the term in months). */
    function CalculateInterest(): (interest: real)
      reads this
      requires kind.Savings? || kind.FixedDeposit?
      ensures kind.Savings? ==> interest == AnnualInterest(balance, kind.interestRate)
      ensures kind.FixedDeposit? ==>
        interest == AnnualInterest(balance, FixedDepositAnnualRate) * (kind.term as real) / 12.0
    {
      match kind
      case Savings(interestRate) => balance * interestRate / 100.0
      case FixedDeposit(term) => balance * 7.0 * (term as real) / 1200.0
    }

    /** Checking's checkOverdraft: the funds reachable with the overdraft and
        whether taking `amount` would stay within the limit. It agrees with
        `withdraw` on positive amounts only: it also says "allowed" for the
        zero and negative amounts that `withdraw` refuses. */
    function CheckOverdraft(amount: real): (report: OverdraftReport)
      reads this
      requires kind.Checking?
      ensures report.totalAvailable == balance + kind.overdraftLimit
      ensures report.allowed <==> BalanceFloor(kind) <= balance - amount
      ensures WithdrawAccepted(kind, balance, amount) <==> report.allowed && amount > 0.0
    {
      var totalAvailable := balance + kind.overdraftLimit;
      OverdraftReport(totalAvailable, amount <= totalAvailable)
    }
  }

  /** The boundary of the overdraft rule: from 200, withdrawing 1200 is taken
      and leaves -1000; withdrawing 1200.01 is refused. */
  lemma CheckingOverdraftBoundary()
    ensures WithdrawAccepted(Checking(OverdraftLimit), 200.0, 1200.0)
    ensures 200.0 - 1200.0 == BalanceFloor(Checking(OverdraftLimit))
    ensures !WithdrawAccepted(Checking(OverdraftLimit), 200.0, 1200.01)
  {
  }
}
