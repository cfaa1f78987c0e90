/** The older standalone program with guarded base operations and a broken
    Checking override: Checking's withdraw hands the amount to the base
    withdraw only when it exceeds the balance plus the overdraft, which the
    base then refuses, and checkOverdraft says "allowed" for exactly those
    amounts. Calls go through the static type, so a Checking object uses its
    own withdraw. */
module StandaloneBanking {

  const OverdraftLimit: int := 1000
  const DefaultSavingsRate: real := 7.7
  const DefaultTerm: int := 0
  /** The rate FixedDepositAccount pays, in percent per year. */
  const FixedDepositAnnualRate: real := 7.0

  datatype AccountKind =
    | Plain
    | Savings(interestRate: real)
    | Checking(overdraftLimit: int)
    | FixedDeposit(term: int)

  /** What checkOverdraft prints after the total: "Withdrawal allowed.",
      "Overdraft exceeded." or nothing. The second sits under `case 2` of a
      flag that is only ever 0 or 1. */
  datatype OverdraftMessage = WithdrawalAllowed | OverdraftExceeded | NoMessage

  /** The balance the base withdraw leaves: a positive amount up to the
      balance is taken, anything else is refused. */
  function BaseDebit(balance: real, amount: real): (b: real)
    ensures 0.0 < amount <= balance ==> b + amount == balance
    ensures !(0.0 < amount <= balance) ==> b == balance
    ensures balance >= 0.0 ==> b >= 0.0
  {
    if amount > 0.0 && amount <= balance then balance - amount else balance
  }

  /** The balance a withdrawal leaves, by variant. */
  function Debit(kind: AccountKind, balance: real, amount: real): (b: real)
    ensures kind.Checking? && kind.overdraftLimit >= 0 ==> b == balance
    ensures !kind.Checking? ==> b == BaseDebit(balance, amount)
  {
    match kind
    case Checking(limit) =>
      var totalAccessible := balance + (limit as real);
      var tA := if amount > totalAccessible then 1 else 0;
      if tA == 1 then BaseDebit(balance, amount) else balance
    case _ => BaseDebit(balance, amount)
  }

  function AnnualInterest(balance: real, ratePercent: real): real
  {
    balance * ratePercent / 100.0
  }

  class Account {
    /** An `int` account number in this program, not a string. */
    const accountNumber: int
    const accountHolder: string
    const kind: AccountKind
    var balance: real

    /** BankAccount itself, the only type main creates. */
    constructor Open(accountNumber: int, name: string, initialBalance: real)
      ensures this.accountNumber == accountNumber && accountHolder == name
      ensures balance == initialBalance && kind == Plain
    {
      this.accountNumber := accountNumber;
      accountHolder := name;
      balance := initialBalance;
      kind := Plain;
    }

    constructor OpenSavings(accountNumber: int, name: string, initialBalance: real,
                            rate: real := DefaultSavingsRate)
      ensures this.accountNumber == accountNumber && accountHolder == name
      ensures balance == initialBalance && kind == Savings(rate)
    {
      this.accountNumber := accountNumber;
      accountHolder := name;
      balance := initialBalance;
      kind := Savings(rate);
    }

    constructor OpenChecking(accountNumber: int, name: string, initialBalance: real)
      ensures this.accountNumber == accountNumber && accountHolder == name
      ensures balance == initialBalance && kind == Checking(OverdraftLimit)
    {
      this.accountNumber := accountNumber;
      accountHolder := name;
      balance := initialBalance;
      kind := Checking(OverdraftLimit);
    }

    constructor OpenFixedDeposit(accountNumber: int, name: string, initialBalance: real,
                                 term: int := DefaultTerm)
      ensures this.accountNumber == accountNumber && accountHolder == name
      ensures balance == initialBalance && kind == FixedDeposit(term)
    {
      this.accountNumber := accountNumber;
      accountHolder := name;
      balance := initialBalance;
      kind := FixedDeposit(term);
    }

    /** A positive amount is added; anything else is refused. */
    method Deposit(amount: real)
      modifies this
      ensures balance == if amount > 0.0 then old(balance) + amount else old(balance)
      ensures old(balance) >= 0.0 ==> balance >= 0.0
    {
      if amount > 0.0 {
        balance := balance + amount;
      }
    }

    /** BankAccount::withdraw. */
    method BaseWithdraw(amount: real)
      modifies this
      ensures balance == BaseDebit(old(balance), amount)
    {
      if amount > 0.0 && amount <= balance {
        balance := balance - amount;
      }
    }

    /** withdraw as called on the account's own type: Checking's override
        forwards only the amounts beyond balance plus overdraft. */
    method Withdraw(amount: real)
      modifies this
      ensures balance == Debit(kind, old(balance), amount)
    {
      match kind
      case Checking(overdraftLimit) =>
        var totalAccessible := balance + (overdraftLimit as real);
        var tA := if amount > totalAccessible then 1 else 0;
        if tA == 1 {
          BaseWithdraw(amount);
        }
      case _ =>
        BaseWithdraw(amount);
    }

    /** SavingAccount's calculateInterest and FixedDepositAccount's
        clculateInterrst (so spelled in the program). */
    function CalculateInterest(): (interest: real)
      reads this
      requires kind.Savings? || kind.FixedDeposit?
      ensures kind.Savings? ==> interest == AnnualInterest(balance, kind.interestRate)
      ensures kind.FixedDeposit? ==>
        interest == AnnualInterest(balance, FixedDepositAnnualRate) * (kind.term as real) / 12.0
    {
      match kind
      case Savings(interestRate) => balance * interestRate / 100.0
      case FixedDeposit(term) => balance * 7.0 * (term as real) / 1200.0
    }

    /** Checking's checkOverdraft. It says "allowed" exactly when the amount
        is beyond what the overdraft reaches, never says "exceeded", and
        changes nothing. */
    function CheckOverdraft(amount: real): (message: OverdraftMessage)
      reads this
      requires kind.Checking?
      ensures message == WithdrawalAllowed <==> amount > balance + (kind.overdraftLimit as real)
      ensures message != OverdraftExceeded
    {
      var totalAccessible := balance + (kind.overdraftLimit as real);
      var tA := if amount > totalAccessible then 1 else 0;
      if tA == 1 then WithdrawalAllowed else NoMessage
    }
  }

  /** Whatever the amount, a withdrawal from a Checking account with the
      standard limit leaves the balance where it was; in particular an
      amount checkOverdraft calls "allowed" is refused. */
  lemma CheckingWithdrawNeverTakes(balance: real, amount: real)
    ensures Debit(Checking(OverdraftLimit), balance, amount) == balance
  {
  }

  /** The guarded operations keep a non-negative balance non-negative. */
  lemma BaseRuleKeepsNonNegative(kind: AccountKind, balance: real, amount: real)
    requires balance >= 0.0
    ensures Debit(kind, balance, amount) >= 0.0
  {
  }

  /** Withdrawing what was just deposited restores the balance, for every
      variant but Checking. */
  lemma WithdrawUndoesDeposit(kind: AccountKind, balance: real, amount: real)
    requires !kind.Checking? && amount > 0.0 && balance >= 0.0
    ensures Debit(kind, balance + amount, amount) == balance
  {
  }
}
