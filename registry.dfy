/** The registry (BankingSystem): the ordered accounts and loans, first-match
    lookups, loan-id generation from the shared counter, the input checks,
    and the operations that touch an account and a loan together. The
    interactive prompts are replaced by parameters; a prompt that repeats
    until the input is valid becomes a precondition. */
module Registry {
  import opened CType
  import opened Accounts
  import opened Loans

  /** The loan-id counter's initial value. */
  const FirstLoanNumber: nat := 1001
  const LoanIdPrefix: string := "LOAN"
  const AccountNumberLength: int := 12

  datatype CreateOutcome = Created | DuplicateAccount | InvalidAccountType

  datatype LoanApplication =
    | Approved(loanId: string)
    | AccountNotFound
    | InvalidLoanAmount
    | InvalidLoanTerm

  datatype PaymentOutcome =
    | NoLoans
    | LoanNotFound
    | LoanClosed
    | InsufficientFunds
    | InvalidPaymentAmount
    | PaymentApplied

  // ---------------------------------------------------------------------
  // Loan identifiers: "LOAN" followed by the counter in decimal (to_string)

  function DigitChar(d: nat): char
    requires d < 10
  {
    (48 + d) as char
  }

  predicate AllDigits(s: string)
  {
    forall i :: 0 <= i < |s| ==> '0' <= s[i] <= '9'
  }

  /** to_string of a non-negative number. */
  function DecimalString(n: nat): (s: string)
    ensures |s| >= 1 && AllDigits(s)
    ensures s[0] == '0' <==> n == 0
  {
    if n < 10 then [DigitChar(n)] else DecimalString(n / 10) + [DigitChar(n % 10)]
  }

  /** Reads a string of decimal digits back as a number. */
  function ParseDecimal(s: string): nat
    requires |s| >= 1 && AllDigits(s)
  {
    var last := (s[|s| - 1] as int) - 48;
    if |s| == 1 then last else 10 * ParseDecimal(s[..|s| - 1]) + last
  }

  lemma {:induction false} ParseDecimalString(n: nat)
    ensures ParseDecimal(DecimalString(n)) == n
  {
    if n >= 10 {
      ParseDecimalString(n / 10);
      var s := DecimalString(n);
      assert s[..|s| - 1] == DecimalString(n / 10);
      assert s[|s| - 1] == DigitChar(n % 10);
    }
  }

  function LoanId(n: nat): string
  {
    LoanIdPrefix + DecimalString(n)
  }

  /** Different counter values give different loan ids. */
  lemma LoanIdInjective(m: nat, n: nat)
    ensures LoanId(m) == LoanId(n) ==> m == n
  {
    if LoanId(m) == LoanId(n) {
      assert DecimalString(m) == LoanId(m)[|LoanIdPrefix|..];
      assert DecimalString(n) == LoanId(n)[|LoanIdPrefix|..];
      ParseDecimalString(m);
      ParseDecimalString(n);
    }
  }

  /** Loans numbered by a strictly increasing sequence carry distinct ids. */
  lemma DistinctLoanIds(loans: seq<LoanAccount>, numbers: seq<nat>)
    requires |numbers| == |loans|
    requires forall i, j :: 0 <= i < j < |numbers| ==> numbers[i] < numbers[j]
    requires forall i :: 0 <= i < |loans| ==> loans[i].loanId == LoanId(numbers[i])
    ensures forall i, j :: 0 <= i < j < |loans| ==> loans[i].loanId != loans[j].loanId
  {
    forall i, j | 0 <= i < j < |loans|
      ensures loans[i].loanId != loans[j].loanId
    {
      LoanIdInjective(numbers[i], numbers[j]);
    }
  }

  // ---------------------------------------------------------------------
  // Input checks

  /** validateAccountNumber. */
  predicate ValidAccountNumber(accountNumber: string)
  {
    |accountNumber| == AccountNumberLength
  }

  /** What validateName accepts: a non-empty name of letters and spaces. */
  predicate ValidName(name: string)
  {
    |name| > 0 && forall i :: 0 <= i < |name| ==> IsAlpha(name[i]) || name[i] == ' '
  }

  /** validateName: the loop over the characters. */
  method ValidateName(name: string) returns (ok: bool)
    ensures ok == ValidName(name)
  {
    if |name| == 0 {
      return false;
    }
    var i := 0;
    while i < |name|
      invariant 0 <= i <= |name|
      invariant forall k :: 0 <= k < i ==> IsAlpha(name[k]) || name[k] == ' '
    {
      var c := name[i];
      if !IsAlpha(c) && c != ' ' {
        return false;
      }
      i := i + 1;
    }
    return true;
  }

  /** The loan type and default annual rate of a menu choice; any choice
      other than 1 to 4 falls back to a Personal loan. */
  function LoanTypeFor(choice: int): (t: (LoanType, real))
    ensures AdvertisedRate(t.0).0 <= t.1 <= AdvertisedRate(t.0).1
    ensures choice == 1 ==> t == (Personal, 12.0)
    ensures choice == 2 ==> t == (Home, 7.5)
    ensures choice == 3 ==> t == (Car, 9.5)
    ensures choice == 4 ==> t == (Business, 14.0)
    ensures choice < 1 || choice > 4 ==> t == (Personal, 12.0)
    ensures t.1 > 0.0
  {
    if choice == 1 then (Personal, 12.0)
    else if choice == 2 then (Home, 7.5)
    else if choice == 3 then (Car, 9.5)
    else if choice == 4 then (Business, 14.0)
    else (Personal, 12.0)
  }

  /** The interest band the loan menu advertises for each type. */
  function AdvertisedRate(t: LoanType): (real, real)
  {
    match t
    case Personal => (8.0, 15.0)
    case Home => (6.0, 9.0)
    case Car => (7.0, 12.0)
    case Business => (10.0, 18.0)
  }

  /** The account variant of a menu choice 1 to 3. */
  function KindFor(accountType: int, interestRate: real, term: int): (kind: AccountKind)
    requires 1 <= accountType <= 3
    ensures kind.Savings? <==> accountType == 1
    ensures kind.Checking? <==> accountType == 2
    ensures kind.FixedDeposit? <==> accountType == 3
    ensures kind.Savings? ==> kind.interestRate == interestRate
    ensures kind.Checking? ==> kind.overdraftLimit == OverdraftLimit
    ensures kind.FixedDeposit? ==> kind.term == term
  {
    if accountType == 1 then Savings(interestRate)
    else if accountType == 2 then Checking(OverdraftLimit)
    else FixedDeposit(term)
  }

  /** The account-type switch of createAccount, for a choice 1 to 3. */
  method NewAccount(accountType: int, accountNumber: string, holderName: string, initialBalance: real,
                    interestRate: real, term: int)
    returns (account: Account)
    requires 1 <= accountType <= 3
    ensures fresh(account)
    ensures account.accountNumber == accountNumber && account.accountHolderName == holderName
    ensures account.balance == initialBalance && account.kind == KindFor(accountType, interestRate, term)
  {
    if accountType == 1 {
      account := new Account.OpenSavings(accountNumber, holderName, initialBalance, interestRate);
    } else if accountType == 2 {
      account := new Account.OpenChecking(accountNumber, holderName, initialBalance);
    } else {
      account := new Account.OpenFixedDeposit(accountNumber, holderName, initialBalance, term);
    }
  }

  // ---------------------------------------------------------------------
  // First-match lookups

  /** Position of the first account with this number, or |accounts| if none. */
  function AccountIndex(accounts: seq<Account>, accountNumber: string): (k: nat)
    ensures k <= |accounts|
    ensures k < |accounts| ==> accounts[k].accountNumber == accountNumber
    ensures forall j :: 0 <= j < k ==> accounts[j].accountNumber != accountNumber
  {
    if |accounts| == 0 then 0
    else if accounts[0].accountNumber == accountNumber then 0
    else 1 + AccountIndex(accounts[1..], accountNumber)
  }

  /** Position of the first loan with this id, or |loans| if none. */
  function LoanIndex(loans: seq<LoanAccount>, loanId: string): (k: nat)
    ensures k <= |loans|
    ensures k < |loans| ==> loans[k].loanId == loanId
    ensures forall j :: 0 <= j < k ==> loans[j].loanId != loanId
  {
    if |loans| == 0 then 0
    else if loans[0].loanId == loanId then 0
    else 1 + LoanIndex(loans[1..], loanId)
  }

  /** Appending an account does not move an earlier first match. */
  lemma AccountIndexAppend(accounts: seq<Account>, a: Account, accountNumber: string)
    requires AccountIndex(accounts, accountNumber) < |accounts|
    ensures AccountIndex(accounts + [a], accountNumber) == AccountIndex(accounts, accountNumber)
  {
    var k := AccountIndex(accounts, accountNumber);
    var k' := AccountIndex(accounts + [a], accountNumber);
    assert (accounts + [a])[k] == accounts[k];
    if k' < k {
      assert (accounts + [a])[k'] == accounts[k'];
    }
  }

  /** With unique account numbers, the first match is the only match. */
  lemma UniqueAccountIndex(accounts: seq<Account>, k: nat)
    requires k < |accounts|
    requires forall i, j :: 0 <= i < j < |accounts| ==> accounts[i].accountNumber != accounts[j].accountNumber
    ensures AccountIndex(accounts, accounts[k].accountNumber) == k
  {
  }

  // ---------------------------------------------------------------------
  // The registry

  /** What every account in the registry satisfies: it passed the input
      checks, and a Checking account has the standard overdraft limit. */
  predicate Opened(a: Account)
  {
    && ValidAccountNumber(a.accountNumber)
    && ValidName(a.accountHolderName)
    && (a.kind.Checking? ==> a.kind.overdraftLimit == OverdraftLimit)
  }

  /** What every loan in the registry satisfies: it was approved by
      applyForLoan and is consistent. */
  ghost predicate Issued(l: LoanAccount)
    reads l
  {
    l.Valid() && l.principalAmount > 0.0 && l.interestRate > 0.0
  }


  /** No two accounts share a number. */
  predicate UniqueAccountNumbers(accounts: seq<Account>)
  {
    forall i, j :: 0 <= i < j < |accounts| ==> accounts[i].accountNumber != accounts[j].accountNumber
  }

  /** Each loan's id was made from the counter value at the same position;
      the values strictly increase and are all below the counter. */
  predicate Numbered(loans: seq<LoanAccount>, numbers: seq<nat>, next: nat)
  {
    && |numbers| == |loans|
    && (forall i :: 0 <= i < |loans| ==> loans[i].loanId == LoanId(numbers[i]))
    && (forall i, j :: 0 <= i < j < |loans| ==> numbers[i] < numbers[j])
    && (forall i :: 0 <= i < |loans| ==> numbers[i] < next)
  }

  /** Every loan's account number names an account of the registry. */
  predicate Linked(accounts: seq<Account>, loans: seq<LoanAccount>)
  {
    forall i :: 0 <= i < |loans| ==> AccountIndex(accounts, loans[i].accountNumber) < |accounts|
  }

  /** The registry invariant, over the registry's collections and counter. */
  ghost predicate Invariant(accounts: seq<Account>, loans: seq<LoanAccount>, numbers: seq<nat>, next: nat)
    reads loans
  {
    && UniqueAccountNumbers(accounts)
    && (forall i :: 0 <= i < |accounts| ==> Opened(accounts[i]))
    && Numbered(loans, numbers, next)
    && (forall i :: 0 <= i < |loans| ==> Issued(loans[i]))
    && Linked(accounts, loans)
  }

  /** Every account of a registry has a number of exactly twelve characters,
      and no two share one. */
  lemma RegisteredNumbersValid(accounts: seq<Account>, loans: seq<LoanAccount>, numbers: seq<nat>, next: nat)
    requires Invariant(accounts, loans, numbers, next)
    ensures forall i :: 0 <= i < |accounts| ==> |accounts[i].accountNumber| == AccountNumberLength
    ensures forall i, j :: 0 <= i < j < |accounts| ==> accounts[i].accountNumber != accounts[j].accountNumber
  {
    forall i | 0 <= i < |accounts|
      ensures |accounts[i].accountNumber| == AccountNumberLength
    {
      assert Opened(accounts[i]);
    }
  }

  /** Appending an account with a new number keeps the invariant. */
  lemma InvariantAfterOpen(accounts: seq<Account>, a: Account, loans: seq<LoanAccount>, numbers: seq<nat>, next: nat)
    requires Invariant(accounts, loans, numbers, next)
    requires Opened(a) && AccountIndex(accounts, a.accountNumber) == |accounts|
    ensures Invariant(accounts + [a], loans, numbers, next)
  {
    UniqueAfterOpen(accounts, a);
    OpenedAfterOpen(accounts, a);
    LinkedAfterOpen(accounts, a, loans);
  }

  lemma UniqueAfterOpen(accounts: seq<Account>, a: Account)
    requires UniqueAccountNumbers(accounts) && AccountIndex(accounts, a.accountNumber) == |accounts|
    ensures UniqueAccountNumbers(accounts + [a])
  {
    var accounts' := accounts + [a];
    forall i, j | 0 <= i < j < |accounts'|
      ensures accounts'[i].accountNumber != accounts'[j].accountNumber
    {
      if j == |accounts| {
        assert accounts'[i] == accounts[i];
      } else {
        assert accounts'[i] == accounts[i] && accounts'[j] == accounts[j];
      }
    }
  }

  lemma OpenedAfterOpen(accounts: seq<Account>, a: Account)
    requires forall i :: 0 <= i < |accounts| ==> Opened(accounts[i])
    requires Opened(a)
    ensures forall i :: 0 <= i < |accounts + [a]| ==> Opened((accounts + [a])[i])
  {
    var accounts' := accounts + [a];
    forall i | 0 <= i < |accounts'|
      ensures Opened(accounts'[i])
    {
      if i < |accounts| {
        assert accounts'[i] == accounts[i];
      }
    }
  }

  lemma LinkedAfterOpen(accounts: seq<Account>, a: Account, loans: seq<LoanAccount>)
    requires Linked(accounts, loans)
    ensures Linked(accounts + [a], loans)
  {
    forall i | 0 <= i < |loans|
      ensures AccountIndex(accounts + [a], loans[i].accountNumber) < |accounts| + 1
    {
      AccountIndexAppend(accounts, a, loans[i].accountNumber);
    }
  }

  /** Appending a loan whose id was made from the counter, after the
      counter moved past it, keeps the invariant. */
  lemma InvariantAfterIssue(accounts: seq<Account>, loans: seq<LoanAccount>, numbers: seq<nat>,
                            n: nat, l: LoanAccount)
    requires Invariant(accounts, loans, numbers, n)
    requires Issued(l) && l.loanId == LoanId(n)
    requires AccountIndex(accounts, l.accountNumber) < |accounts|
    ensures Invariant(accounts, loans + [l], numbers + [n], n + 1)
  {
    NumberedAfterIssue(loans, numbers, n, l);
    IssuedAfterIssue(loans, l);
    LinkedAfterIssue(accounts, loans, l);
  }

  lemma NumberedAfterIssue(loans: seq<LoanAccount>, numbers: seq<nat>, n: nat, l: LoanAccount)
    requires Numbered(loans, numbers, n) && l.loanId == LoanId(n)
    ensures Numbered(loans + [l], numbers + [n], n + 1)
  {
    var loans', numbers' := loans + [l], numbers + [n];
    forall i | 0 <= i < |loans'|
      ensures loans'[i].loanId == LoanId(numbers'[i]) && numbers'[i] < n + 1
    {
      if i < |loans| {
        assert loans'[i] == loans[i] && numbers'[i] == numbers[i];
      }
    }
    forall i, j | 0 <= i < j < |loans'|
      ensures numbers'[i] < numbers'[j]
    {
      assert numbers'[i] == numbers[i];
    }
  }

  lemma IssuedAfterIssue(loans: seq<LoanAccount>, l: LoanAccount)
    requires forall i :: 0 <= i < |loans| ==> Issued(loans[i])
    requires Issued(l)
    ensures forall i :: 0 <= i < |loans + [l]| ==> Issued((loans + [l])[i])
  {
    var loans' := loans + [l];
    forall i | 0 <= i < |loans'|
      ensures Issued(loans'[i])
    {
      if i < |loans| {
        assert loans'[i] == loans[i];
      }
    }
  }

  lemma LinkedAfterIssue(accounts: seq<Account>, loans: seq<LoanAccount>, l: LoanAccount)
    requires Linked(accounts, loans) && AccountIndex(accounts, l.accountNumber) < |accounts|
    ensures Linked(accounts, loans + [l])
  {
    var loans' := loans + [l];
    forall i | 0 <= i < |loans'|
      ensures AccountIndex(accounts, loans'[i].accountNumber) < |accounts|
    {
      if i < |loans| {
        assert loans'[i] == loans[i];
      }
    }
  }

  /** The loan as the LoanAccount constructor leaves it. */
  ghost predicate Originated(l: LoanAccount, loanId: string, accountNumber: string, borrowerName: string,
                             principal: real, interestRate: real, termMonths: int, loanType: LoanType, now: int)
    reads l
  {
    && l.loanId == loanId && l.accountNumber == accountNumber && l.borrowerName == borrowerName
    && l.principalAmount == principal && l.interestRate == interestRate && l.termMonths == termMonths
    && l.loanType == loanType && l.startDate == now
    && l.State() == LoanState(principal, 0, true, [])
  }

  /** nextLoanId, a static member shared by every registry: one object that
      registries hold a reference to. */
  class LoanIdCounter {
    var next: nat

    constructor ()
      ensures next == FirstLoanNumber
    {
      next := FirstLoanNumber;
    }
  }

  class BankingSystem {
    var accounts: seq<Account>
    var loans: seq<LoanAccount>
    const loanIds: LoanIdCounter
    /** The counter value each loan's id was made from. */
    ghost var loanNumbers: seq<nat>

    ghost predicate Valid()
      reads this, loanIds, loans
    {
      Invariant(accounts, loans, loanNumbers, loanIds.next)
    }

    constructor (counter: LoanIdCounter)
      ensures Valid()
      ensures accounts == [] && loans == [] && loanIds == counter
    {
      accounts := [];
      loans := [];
      loanIds := counter;
      loanNumbers := [];
    }

    /** findAccount: the first account with this number, or null. */
    method FindAccount(accountNumber: string) returns (account: Account?)
      ensures var k := AccountIndex(accounts, accountNumber);
              account == if k < |accounts| then accounts[k] else null
    {
      var i := 0;
      while i < |accounts|
        invariant 0 <= i <= |accounts|
        invariant forall j :: 0 <= j < i ==> accounts[j].accountNumber != accountNumber
      {
        if accounts[i].accountNumber == accountNumber {
          AccountIndexIs(accounts, accountNumber, i);
          return accounts[i];
        }
        i := i + 1;
      }
      AccountIndexIs(accounts, accountNumber, i);
      return null;
    }

    /** findLoan: the first loan with this id, or null. */
    method FindLoan(loanId: string) returns (loan: LoanAccount?)
      ensures var k := LoanIndex(loans, loanId);
              loan == if k < |loans| then loans[k] else null
    {
      var i := 0;
      while i < |loans|
        invariant 0 <= i <= |loans|
        invariant forall j :: 0 <= j < i ==> loans[j].loanId != loanId
      {
        if loans[i].loanId == loanId {
          LoanIndexIs(loans, loanId, i);
          return loans[i];
        }
        i := i + 1;
      }
      LoanIndexIs(loans, loanId, i);
      return null;
    }

    /** generateLoanId: the counter's value in a "LOAN" id, then the counter
        moves on by one. */
    method GenerateLoanId() returns (id: string)
      modifies loanIds
      ensures id == LoanId(old(loanIds.next))
      ensures loanIds.next == old(loanIds.next) + 1
    {
      id := LoanIdPrefix + DecimalString(loanIds.next);
      loanIds.next := loanIds.next + 1;
    }

    /** createAccount. The account number, name and initial balance are the
        values the re-prompting loops finally accepted; the name and balance
        are asked for only once the number is known to be new. */
    method CreateAccount(accountType: int, accountNumber: string, holderName: string,
                         initialBalance: real, interestRate: real, term: int)
      returns (outcome: CreateOutcome)
      requires Valid()
      requires ValidAccountNumber(accountNumber)
      requires AccountIndex(accounts, accountNumber) == |accounts| ==>
                 ValidName(holderName) && initialBalance >= 0.0
      modifies this
      ensures Valid()
      ensures loans == old(loans)
      ensures outcome == DuplicateAccount <==> AccountIndex(old(accounts), accountNumber) < |old(accounts)|
      ensures outcome == InvalidAccountType <==>
        AccountIndex(old(accounts), accountNumber) == |old(accounts)| && !(1 <= accountType <= 3)
      ensures outcome != Created ==> accounts == old(accounts)
      ensures outcome == Created ==>
        && |accounts| == |old(accounts)| + 1
        && accounts[..|old(accounts)|] == old(accounts)
        && var a := accounts[|old(accounts)|];
           && fresh(a)
           && a.accountNumber == accountNumber && a.accountHolderName == holderName
           && a.balance == initialBalance && a.kind == KindFor(accountType, interestRate, term)
    {
      if AccountIndex(accounts, accountNumber) < |accounts| {
        return DuplicateAccount;
      }
      if !(1 <= accountType <= 3) {
        return InvalidAccountType;
      }
      var account := NewAccount(accountType, accountNumber, holderName, initialBalance, interestRate, term);
      InvariantAfterOpen(accounts, account, loans, loanNumbers, loanIds.next);
      accounts := accounts + [account];
      return Created;
    }

    /** applyForLoan. The principal is credited to the linked account, and a
        loan id is drawn only once every check has passed. */
    method ApplyForLoan(accountNumber: string, borrowerName: string, loanTypeChoice: int,
                        principal: real, customRate: real, termMonths: int, now: int)
      returns (outcome: LoanApplication)
      requires Valid()
      modifies this, loanIds, accounts
      ensures Valid()
      ensures accounts == old(accounts)
      ensures outcome == AccountNotFound <==> AccountIndex(accounts, accountNumber) == |accounts|
      ensures outcome == InvalidLoanAmount <==>
        AccountIndex(accounts, accountNumber) < |accounts| && principal <= 0.0
      ensures outcome == InvalidLoanTerm <==>
        AccountIndex(accounts, accountNumber) < |accounts| && principal > 0.0 && termMonths <= 0
      ensures !outcome.Approved? ==>
        loans == old(loans) && loanIds.next == old(loanIds.next) && unchanged(accounts)
      ensures outcome.Approved? ==>
        var k := AccountIndex(accounts, accountNumber);
        var (loanType, defaultRate) := LoanTypeFor(loanTypeChoice);
        && outcome.loanId == LoanId(old(loanIds.next))
        && loanIds.next == old(loanIds.next) + 1
        && |loans| == |old(loans)| + 1
        && loans == old(loans) + [loans[|old(loans)|]]
        && fresh(loans[|old(loans)|])
        && Originated(loans[|old(loans)|], outcome.loanId, accountNumber, borrowerName, principal,
                      if customRate > 0.0 then customRate else defaultRate, termMonths, loanType, now)
        && accounts[k].balance == old(accounts[k].balance) + principal
        && forall i :: 0 <= i < |accounts| && i != k ==> unchanged(accounts[i])
    {
      var k := AccountIndex(accounts, accountNumber);
      if k == |accounts| {
        return AccountNotFound;
      }
      var account := accounts[k];
      var (loanType, interestRate) := LoanTypeFor(loanTypeChoice);
      if principal <= 0.0 {
        return InvalidLoanAmount;
      }
      if customRate > 0.0 {
        interestRate := customRate;
      }
      if termMonths <= 0 {
        return InvalidLoanTerm;
      }
      var loanId, _ := IssueLoan(k, account, borrowerName, principal, interestRate, termMonths, loanType, now);
      account.Deposit(principal);
      DistinctAccountObjects(accounts, k);
      return Approved(loanId);
    }

    /** The approval steps of applyForLoan before the principal is
        credited: draw the id and record the new loan. */
    method IssueLoan(ghost k: nat, account: Account, borrowerName: string, principal: real,
                     interestRate: real, termMonths: int, loanType: LoanType, now: int)
      returns (loanId: string, newLoan: LoanAccount)
      requires Valid()
      requires k < |accounts| && account == accounts[k]
      requires principal > 0.0 && interestRate > 0.0 && termMonths > 0
      modifies this, loanIds
      ensures Valid()
      ensures accounts == old(accounts)
      ensures loanId == LoanId(old(loanIds.next))
      ensures loanIds.next == old(loanIds.next) + 1
      ensures loans == old(loans) + [newLoan]
      ensures fresh(newLoan)
      ensures Originated(newLoan, loanId, account.accountNumber, borrowerName, principal,
                         interestRate, termMonths, loanType, now)
    {
      ghost var number := loanIds.next;
      UniqueAccountIndex(accounts, k);
      loanId := GenerateLoanId();
      newLoan := new LoanAccount(loanId, account.accountNumber, borrowerName, principal,
                                     interestRate, termMonths, loanType, now);
      InvariantAfterIssue(accounts, loans, loanNumbers, number, newLoan);
      loans := loans + [newLoan];
      loanNumbers := loanNumbers + [number];
    }

    /** makeLoanPayment. The linked account is checked against its plain
        balance (the overdraft is not counted) and debited the full amount
        entered, although the loan may apply less of it. */
    method MakeLoanPayment(loanId: string, amount: real, now: int) returns (outcome: PaymentOutcome)
      requires Valid()
      modifies accounts, loans
      ensures Valid()
      ensures outcome == NoLoans <==> |loans| == 0
      ensures outcome == LoanNotFound <==> |loans| > 0 && LoanIndex(loans, loanId) == |loans|
      ensures var k := LoanIndex(loans, loanId);
        outcome == LoanClosed <==> k < |loans| && !old(loans[k].isActive)
      ensures var k := LoanIndex(loans, loanId);
        outcome == InsufficientFunds <==>
          k < |loans| && old(loans[k].isActive)
          && old(accounts[AccountIndex(accounts, loans[k].accountNumber)].balance) < amount
      ensures !(outcome == InvalidPaymentAmount || outcome == PaymentApplied) ==>
        unchanged(accounts) && unchanged(loans)
      ensures outcome == InvalidPaymentAmount || outcome == PaymentApplied ==>
        var k := LoanIndex(loans, loanId);
        var a := AccountIndex(accounts, loans[k].accountNumber);
        && (outcome == PaymentApplied <==> amount > 0.0)
        && accounts[a].balance == old(accounts[a].balance) - (if amount > 0.0 then amount else 0.0)
        && loans[k].State() == Pay(old(loans[k].State()), loans[k].interestRate, amount, now)
        && (forall i :: 0 <= i < |accounts| && i != a ==> unchanged(accounts[i]))
        && (forall i :: 0 <= i < |loans| && i != k ==> unchanged(loans[i]))
    {
      if |loans| == 0 {
        return NoLoans;
      }
      var k := LoanIndex(loans, loanId);
      if k == |loans| {
        return LoanNotFound;
      }
      var loan := loans[k];
      if !loan.isActive {
        return LoanClosed;
      }
      var a := AccountIndex(accounts, loan.accountNumber);
      var account := if a < |accounts| then accounts[a] else null;
      if account != null && account.balance < amount {
        return InsufficientFunds;
      }
      Settle(loan, k, accounts[a], a, amount, now);
      if amount <= 0.0 {
        return InvalidPaymentAmount;
      }
      return PaymentApplied;
    }

    /** The last steps of makeLoanPayment: the account is debited, then the
        loan takes the payment. */
    method Settle(loan: LoanAccount, ghost k: nat, account: Account, ghost a: nat, amount: real, now: int)
      requires Valid()
      requires k < |loans| && loan == loans[k] && loan.isActive
      requires a < |accounts| && account == accounts[a]
      requires account.balance >= amount
      modifies account, loan
      ensures Valid()
      ensures accounts[a].balance == old(accounts[a].balance) - (if amount > 0.0 then amount else 0.0)
      ensures loans[k].State() == Pay(old(loans[k].State()), loans[k].interestRate, amount, now)
      ensures forall i :: 0 <= i < |accounts| && i != a ==> unchanged(accounts[i])
      ensures forall i :: 0 <= i < |loans| && i != k ==> unchanged(loans[i])
    {
      account.Withdraw(amount);
      loan.MakePayment(amount, now);
      DistinctAccountObjects(accounts, a);
      DistinctLoanObjects(k);
    }

    /** The loan at position k is no other position's loan. */
    lemma DistinctLoanObjects(k: nat)
      requires k < |loans|
      requires |loanNumbers| == |loans|
      requires forall i :: 0 <= i < |loans| ==> loans[i].loanId == LoanId(loanNumbers[i])
      requires forall i, j :: 0 <= i < j < |loans| ==> loanNumbers[i] < loanNumbers[j]
      ensures forall i :: 0 <= i < |loans| && i != k ==> loans[i] != loans[k]
    {
      DistinctLoanIds(loans, loanNumbers);
    }
  }

  /** The account at position k is no other position's account. */
  lemma DistinctAccountObjects(accounts: seq<Account>, k: nat)
    requires k < |accounts|
    requires forall i, j :: 0 <= i < j < |accounts| ==> accounts[i].accountNumber != accounts[j].accountNumber
    ensures forall i :: 0 <= i < |accounts| && i != k ==> accounts[i] != accounts[k]
  {
  }

  lemma AccountIndexIs(accounts: seq<Account>, accountNumber: string, i: nat)
    requires i <= |accounts|
    requires forall j :: 0 <= j < i ==> accounts[j].accountNumber != accountNumber
    requires i < |accounts| ==> accounts[i].accountNumber == accountNumber
    ensures AccountIndex(accounts, accountNumber) == i
  {
  }

  lemma LoanIndexIs(loans: seq<LoanAccount>, loanId: string, i: nat)
    requires i <= |loans|
    requires forall j :: 0 <= j < i ==> loans[j].loanId != loanId
    requires i < |loans| ==> loans[i].loanId == loanId
    ensures LoanIndex(loans, loanId) == i
  {
  }
}
