/** The older standalone program with unguarded accounts: the base deposit
    and withdraw apply any amount, only Checking refuses a withdrawal (one
    beyond its overdraft), and `main` accepts an account only after its
    input loops pass. Calls go through the static type, so a Checking
    object uses its own withdraw. */
module StandaloneBankingSystem {
  import opened CType

  const OverdraftLimit: real := 1000.0
  const DefaultSavingsRate: real := 5.0
  const DefaultTerm: int := 0
  const AccountNumberLength: int := 12
  /** The rate FixedDepositAccount pays, in percent per year. */
  const FixedDepositAnnualRate: real := 7.0

  datatype AccountKind =
    | Savings(interestRate: real)
    | Checking(overdraftLimit: real)
    | FixedDeposit(term: int)

  /** What checkOverdraft prints: the funds reachable with the overdraft,
      and "Withdrawal allowed." or "Overdraft exceeded.". */
  datatype OverdraftReport = OverdraftReport(totalAvailable: real, allowed: bool)

  /** The balance a withdrawal leaves. The base class subtracts whatever it
      is given; Checking leaves the balance alone exactly when the amount is
      beyond the balance plus the overdraft limit. */
  function Debit(kind: AccountKind, balance: real, amount: real): (b: real)
    ensures !kind.Checking? ==> b + amount == balance
    ensures kind.Checking? && amount > balance + kind.overdraftLimit ==> b == balance
    ensures kind.Checking? && amount <= balance + kind.overdraftLimit ==>
      b + amount == balance && b >= -kind.overdraftLimit
  {
    match kind
    case Checking(limit) =>
      var totalAvailable := balance + limit;
      var flag := if amount > totalAvailable then 1 else 0;
      if flag == 0 then balance - amount else balance
    case _ => balance - amount
  }

  /** Simple annual interest on `balance` at `ratePercent` per cent. */
  function AnnualInterest(balance: real, ratePercent: real): real
  {
    balance * ratePercent / 100.0
  }

  class Account {
    const accountNumber: string
    const accountHolderName: string
    const kind: AccountKind
    var balance: real

    constructor OpenSavings(accountNumber: string := "", holderName: string := "", balance: real := 0.0,
                            rate: real := DefaultSavingsRate)
      ensures this.accountNumber == accountNumber && this.accountHolderName == holderName
      ensures this.balance == balance && kind == Savings(rate)
    {
      this.accountNumber := accountNumber;
      this.accountHolderName := holderName;
      this.balance := balance;
      this.kind := Savings(rate);
    }

    constructor OpenChecking(accountNumber: string := "", holderName: string := "", balance: real := 0.0)
      ensures this.accountNumber == accountNumber && this.accountHolderName == holderName
      ensures this.balance == balance && kind == Checking(OverdraftLimit)
    {
      this.accountNumber := accountNumber;
      this.accountHolderName := holderName;
      this.balance := balance;
      this.kind := Checking(OverdraftLimit);
    }

    constructor OpenFixedDeposit(accountNumber: string := "", holderName: string := "", balance: real := 0.0,
                                 term: int := DefaultTerm)
      ensures this.accountNumber == accountNumber && this.accountHolderName == holderName
      ensures this.balance == balance && kind == FixedDeposit(term)
    {
      this.accountNumber := accountNumber;
      this.accountHolderName := holderName;
      this.balance := balance;
      this.kind := FixedDeposit(term);
    }

    /** Any amount is added, zero and negative ones included. */
    method Deposit(amount: real)
      modifies this
      ensures balance == old(balance) + amount
    {
      balance := balance + amount;
    }

    /** The base withdraw, or Checking's override for a Checking account. */
    method Withdraw(amount: real)
      modifies this
      ensures balance == Debit(kind, old(balance), amount)
    {
      match kind
      case Checking(overdraftLimit) =>
        var totalAvailable := balance + overdraftLimit;
        var flag := if amount > totalAvailable then 1 else 0;
        if flag == 0 {
          balance := balance - amount;
        }
      case _ =>
        balance := balance - amount;
    }

    /** calculateInterest of Savings (at its rate) and of FixedDeposit (at
        7% a year, prorated over the term in months). */
    function CalculateInterest(): (interest: real)
      reads this
      requires kind.Savings? || kind.FixedDeposit?
      ensures kind.Savings? ==> interest == AnnualInterest(balance, kind.interestRate)
      ensures kind.FixedDeposit? ==>
        interest == AnnualInterest(balance, FixedDepositAnnualRate) * (kind.term as real) / 12.0
    {
      match kind
      case Savings(interestRate) => balance * interestRate / 100.0
      case FixedDeposit(term) => balance * 7.0 * (term as real) / 1200.0
    }

    /** Checking's checkOverdraft: it says "allowed" exactly for the amounts
        the Checking withdraw takes, and changes nothing. */
    function CheckOverdraft(amount: real): (report: OverdraftReport)
      reads this
      requires kind.Checking?
      ensures report.totalAvailable == balance + kind.overdraftLimit
      ensures report.allowed <==> amount <= report.totalAvailable
      ensures Debit(kind, balance, amount) == if report.allowed then balance - amount else balance
    {
      var totalAvailable := balance + kind.overdraftLimit;
      var flag := if amount > totalAvailable then 1 else 0;
      OverdraftReport(totalAvailable, flag == 0)
    }
  }

  /** A Checking account at or above minus its limit stays there, whatever
      is withdrawn. */
  lemma CheckingKeepsFloor(balance: real, amount: real)
    requires balance >= -OverdraftLimit
    ensures Debit(Checking(OverdraftLimit), balance, amount) >= -OverdraftLimit
  {
  }

  /** Withdrawing what was just deposited restores the balance: always for
      the base rule, and for Checking whenever the balance was within the
      overdraft limit. */
  lemma WithdrawUndoesDeposit(kind: AccountKind, balance: real, amount: real)
    requires kind.Checking? ==> balance >= -kind.overdraftLimit
    ensures Debit(kind, balance + amount, amount) == balance
  {
  }

  /** The base rule has no guard: withdrawing 150 from 100 in a Savings
      account leaves -50, and withdrawing -50 from 100 in a FixedDeposit
      account adds 50. */
  lemma UnguardedBaseRule()
    ensures Debit(Savings(DefaultSavingsRate), 100.0, 150.0) == -50.0
    ensures Debit(FixedDeposit(DefaultTerm), 100.0, -50.0) == 150.0
  {
  }

  // ---------------------------------------------------------------------
  // What main accepts before it opens the account

  predicate AccountNumberAccepted(accountNumber: string)
  {
    |accountNumber| == AccountNumberLength
  }

  /** Every character is a letter: spaces are refused and the empty name
      passes. */
  predicate NameAccepted(name: string)
  {
    forall i :: 0 <= i < |name| ==> IsAlpha(name[i])
  }

  predicate BalanceAccepted(balance: real)
  {
    balance >= 0.0
  }

  /** The account number loop takes exactly twelve characters, and the
      balance loop takes zero but no negative amount. */
  lemma NumberAndBalanceRules()
    ensures AccountNumberAccepted("ACC000000001")
    ensures !AccountNumberAccepted("ACC00000001") && !AccountNumberAccepted("ACC0000000001")
    ensures BalanceAccepted(0.0) && !BalanceAccepted(-0.01)
  {
  }

  /** The body of the name loop: a scan that stops at the first non-letter. */
  method ValidateName(name: string) returns (valid: bool)
    ensures valid == NameAccepted(name)
  {
    valid := true;
    var i := 0;
    while i < |name|
      invariant 0 <= i <= |name|
      invariant valid
      invariant forall k :: 0 <= k < i ==> IsAlpha(name[k])
    {
      if !IsAlpha(name[i]) {
        valid := false;
        break;
      }
      i := i + 1;
    }
  }

  lemma NameRules()
    ensures NameAccepted("")
    ensures NameAccepted("Ann")
    ensures !NameAccepted("Ann Lee")
  {
    assert !IsAlpha("Ann Lee"[3]);
  }

  /** The account-type switch of main; a choice other than 1 to 3 ends the
      program without an account. */
  method OpenAccount(accountType: int, accountNumber: string, holderName: string, balance: real,
                     rate: real, term: int)
    returns (account: Account?)
    requires AccountNumberAccepted(accountNumber) && NameAccepted(holderName) && BalanceAccepted(balance)
    ensures account == null <==> !(1 <= accountType <= 3)
    ensures account != null ==>
      && fresh(account)
      && account.accountNumber == accountNumber && account.accountHolderName == holderName
      && account.balance == balance
      && account.kind == (if accountType == 1 then Savings(rate)
                          else if accountType == 2 then Checking(OverdraftLimit)
                          else FixedDeposit(term))
  {
    if accountType == 1 {
      account := new Account.OpenSavings(accountNumber, holderName, balance, rate);
    } else if accountType == 2 {
      account := new Account.OpenChecking(accountNumber, holderName, balance);
    } else if accountType == 3 {
      account := new Account.OpenFixedDeposit(accountNumber, holderName, balance, term);
    } else {
      account := null;
    }
  }
}
