# Banking system ledger and loan engine, modelled in Dafny

This project models the in-memory core of a small C++ banking program. It proves
what the code does to balances, loans and the registry that holds them.

- **Accounts** (`accounts.dfy`) covers the account hierarchy of the banking
  library: a base account with Savings, Checking and FixedDeposit variants.
  One `Account` class with a variant tag (`AccountKind`) stands for the
  hierarchy. `Withdraw` dispatches on the tag the way the virtual `withdraw`
  dispatches on the dynamic type. Only Checking overrides it, with a 1000
  overdraft allowance.
- **Loans** (`loans.dfy`) covers `LoanAccount`:
  - origination by the standard amortisation formula;
  - the Active/Closed payment state machine;
  - total interest and remaining payments;
  - the six-payment schedule projection;
  - the overdue heuristic.

  The mutable part of a loan is the value `LoanState`. `Pay` and `Close` are
  its transition functions. The class methods are proved to follow them.
- **Registry** (`registry.dfy`) covers `BankingSystem`:
  - ordered sequences of accounts and loans with first-match lookup;
  - the loan-id counter, starting at 1001, one object that callers hand to
    every registry;
  - the input checks;
  - account creation, loan application and loan payment.

  A registry invariant is preserved by every operation. It says:
  - account numbers are unique;
  - every account passed the input checks;
  - every loan id was drawn from the counter, so ids are distinct;
  - every loan is consistent and names an existing account.
- **StandaloneBankingSystem** (`standalone_bankingsystem.dfy`) models the older
  standalone program. Its deposit and withdraw are unguarded. It also keeps
  the input rules its `main` enforces before opening an account.
- **StandaloneBanking** (`standalone_banking.dfy`) models the other older
  program. Its base operations are guarded. Its Checking withdraw can never
  take money, and its checkOverdraft reports "allowed" exactly when the
  overdraft would be exceeded.
- **CType** (`ctype.dfy`) defines `isalpha` on ASCII letters.

Modelling choices:
- Money is exact `real`.
- `pow(1 + r, n)` is the recursive `Loans.Pow`.
- The clock reading is a parameter `now`, in seconds.
- Each interactive operation takes the values it reads from the console as
  parameters.
- A prompt that repeats until its input is valid becomes a precondition.
  An example is the account number, name and balance of `createAccount`.
- Checks that make the operation return early are modelled as outcomes:
  `CreateOutcome`, `LoanApplication` and `PaymentOutcome`.

The program's behaviours that stand out are modelled as written and stated as
lemmas:
- **Paying at least the remaining balance of an interest-bearing loan need
  not clear it.** The amount is clamped to the balance, and the month's
  interest is then taken off the payment. When the annual rate is at most
  1200% and that month's interest (balance * rate / 1200) is above the 0.01
  payoff threshold, exactly that interest is left and the loan stays open
  (`Loans.ClampedPaymentLeavesInterest`). When the interest is at most 0.01,
  the loan closes.
- **A payment that covers no more than the interest changes only the count
  and the history** (`Loans.InterestOnlyPaymentKeepsBalance`). As a result,
  an interest-only payment made once the term's payments are all made takes
  getRemainingPayments to -1 (`Loans.PaymentsCanOverrunTerm`).
- **The linked account is debited the full amount entered, even when the
  loan applies less** (`Registry.BankingSystem.MakeLoanPayment`). The funds
  check compares against the plain balance, without the overdraft.
- **The loan-id counter moves only once every check of a loan application
  has passed** (`Registry.BankingSystem.ApplyForLoan`).

## Model

| member | source | states |
|---|---|---|
| Accounts.Account.Open | enhanced_banking_system.h:26 | A base account holds the given number, holder and balance; all three default to empty or zero. |
| Accounts.Account.OpenSavings | enhanced_banking_system.h:43 | A Savings account stores its rate, 5.0 by default. |
| Accounts.Account.OpenChecking | banking_system_lib.cpp:58-59 | A Checking account always gets the 1000 overdraft limit. |
| Accounts.Account.OpenFixedDeposit | enhanced_banking_system.h:66 | A FixedDeposit account stores its term, 0 months by default. |
| Accounts.Account.Deposit | banking_system_lib.cpp:10-18 | A positive amount raises the balance by exactly that amount. Any other amount leaves it unchanged. The balance floor is kept. |
| Accounts.WithdrawAccepted | banking_system_lib.cpp:20-28 | A withdrawal is accepted if and only if the amount is positive and leaves the balance at or above the variant's floor. The floor is 0 for the base rule and minus the overdraft limit for Checking. |
| Accounts.Account.Withdraw | banking_system_lib.cpp:20-73 | The virtual withdraw. Under the base rule (Savings, FixedDeposit) the amount leaves exactly when 0 < amount <= balance. Under Checking's override it leaves exactly when 0 < amount <= balance + limit, so the balance never goes below -limit. A refusal changes nothing, and a balance within the floor stays within it. |
| Accounts.Account.CalculateInterest | banking_system_lib.cpp:45-101 | Savings interest is the balance times the stored rate over 100. FixedDeposit interest is the annual interest at 7% prorated over the term in months. |
| Accounts.Account.CheckOverdraft | banking_system_lib.cpp:75-85 | Reports balance + limit. It says "allowed" if and only if the amount keeps the balance at or above the floor. It agrees with withdraw exactly on positive amounts. |
| Accounts.CheckingOverdraftBoundary | banking_system_lib.cpp:61-73 | From 200, withdrawing 1200 is accepted and reaches -1000 exactly. Withdrawing 1200.01 is refused. |
| Loans.MonthlyPayment | banking_system_lib.cpp:120-128 | With a positive rate the payment satisfies the amortisation equation and is positive for a positive principal. Otherwise payment times term equals the principal. |
| Loans.PowAboveOne | banking_system_lib.cpp:123-124 | (1 + r)^n > 1 for r > 0 and n >= 1, so the formula's divisor is positive. |
| Loans.FullTermClearsBalance | banking_system_lib.cpp:120-128 | For rate >= 0, paying the computed instalment for the whole term brings the projected balance to exactly 0. |
| Loans.ProjectedBalanceClosedForm | banking_system_lib.cpp:216-219 | Closed form of the balance after k projected instalments. |
| Loans.PaybackCoversPrincipal | banking_system_lib.cpp:173-175 | With a positive rate the instalments over the term repay at least the principal. |
| Loans.TotalInterest | banking_system_lib.cpp:173-175 | Total interest plus principal equals the instalments over the term. It is zero without a rate and non-negative with one. |
| Loans.Breakdown | banking_system_lib.cpp:141-151 | The applied amount is the smaller of the amount and the remaining balance. Interest is charged on the balance before the payment. The principal portion is the rest of the payment, floored at zero. |
| Loans.Pay | banking_system_lib.cpp:130-170 | A closed loan, or an amount <= 0, changes nothing. Otherwise the count grows by one and the history by one entry carrying the clamped amount. The new balance is the old balance less the principal portion of the Breakdown, snapped to 0 when that is at most 0.01; the loan stays active exactly when it is above 0.01. The balance does not increase and is never negative. |
| Loans.Close | banking_system_lib.cpp:264-268 | Closing makes the loan inactive with balance 0. Count and history are kept. |
| Loans.PayKeepsConsistent | banking_system_lib.cpp:130-170 | A payment keeps the loan consistent: 0 <= balance <= principal, the count equals the history length, and a closed loan has balance 0. |
| Loans.CloseIdempotent | banking_system_lib.cpp:264-268 | Closing keeps consistency. Closing twice is closing once. |
| Loans.ClosedLoanIsTerminal | banking_system_lib.cpp:131-134 | A closed loan accepts no payment of any amount. |
| Loans.ClampedPaymentLeavesInterest | banking_system_lib.cpp:141-153 | For an annual rate in (0, 1200] and a month's interest balance * rate / 1200 above 0.01, paying at least the remaining balance leaves exactly that interest, and the loan stays active. |
| Loans.InterestOnlyPaymentKeepsBalance | banking_system_lib.cpp:147-154 | A payment no larger than the interest due leaves the balance unchanged and still counts as a payment. |
| Loans.PaymentsCanOverrunTerm | banking_system_lib.cpp:147-154 | A consistent active loan whose payments already equal the term takes an interest-only payment, stays active and consistent, and is left with -1 remaining payments. |
| Loans.ScheduledPaymentFollowsProjection | banking_system_lib.cpp:216-219 | Paying one instalment that covers the interest moves the real balance exactly as the schedule projects. |
| Loans.PersonalLoanExample | demo_script.cpp:18 | The 5000, 12%, 24-month loan has an instalment of about 235.37. After one payment about 4814.63 remains. |
| Loans.LoanAccount.constructor | banking_system_lib.cpp:110-118 | A new loan holds its origination fields and remaining = principal, with no payments, active and no history. Its instalment comes from the amortisation formula. |
| Loans.LoanAccount.MakePayment | banking_system_lib.cpp:130-171 | The loan's state moves exactly as Pay says, and consistency is kept. |
| Loans.LoanAccount.TotalInterestAmount | banking_system_lib.cpp:173-175 | The total interest depends only on principal, rate and term. |
| Loans.LoanAccount.RemainingPayments | banking_system_lib.cpp:181-183 | For a consistent loan, the term less the number of recorded payments. It is at most the term and is not floored at zero. |
| Loans.LoanAccount.PaymentSchedule | banking_system_lib.cpp:205-226 | The projection yields min(6, remaining payments) entries. Entry k is the k-th step of the projected balance from the current balance. Nothing is changed. |
| Loans.LoanAccount.IsOverdue | banking_system_lib.cpp:257-262 | A loan is overdue if and only if it is active and more than one 30-day month per payment made plus one has elapsed since origination. |
| Loans.LoanAccount.CloseLoan | banking_system_lib.cpp:264-268 | The loan's state moves exactly as Close says, and consistency is kept. |
| Registry.DecimalString | banking_system_lib.cpp:588 | to_string of a counter value is a non-empty string of digits, with a leading 0 only for the number 0. |
| Registry.ParseDecimalString | banking_system_lib.cpp:588 | Reading the decimal string back gives the number. |
| Registry.LoanIdInjective | banking_system_lib.cpp:587-589 | Different counter values give different loan ids. |
| Registry.DistinctLoanIds | banking_system_lib.cpp:587-589 | Loans numbered by a strictly increasing sequence have pairwise distinct ids. |
| Registry.ValidateName | banking_system_lib.cpp:595-603 | A name is accepted if and only if it is non-empty and made only of letters and spaces. |
| Registry.RegisteredNumbersValid | banking_system_lib.cpp:591-593 | Every account in a registry has a number of exactly twelve characters, as validateAccountNumber demands, and no two accounts share a number. |
| Registry.LoanTypeFor | banking_system_lib.cpp:412-421 | Choice 1 is Personal at 12%, 2 Home at 7.5%, 3 Car at 9.5% and 4 Business at 14%, each inside the band the menu advertises. Any other choice falls back to Personal at 12%. |
| Registry.NewAccount | banking_system_lib.cpp:326-345 | Choice 1 opens a Savings account at the entered rate, 2 a Checking account with the 1000 limit, 3 a FixedDeposit account for the entered term, each fresh with the given number, holder and balance. |
| Registry.KindFor | banking_system_lib.cpp:326-345 | Choice 1 is Savings at the entered rate, 2 Checking with the 1000 limit, and 3 FixedDeposit for the entered term, and no choice gives another variant. |
| Registry.AccountIndex | banking_system_lib.cpp:358-365 | The position of the first account with the number, or the length when none has it. |
| Registry.LoanIndex | banking_system_lib.cpp:578-585 | The position of the first loan with the id, or the length when none has it. |
| Registry.AccountIndexAppend | banking_system_lib.cpp:351-352 | Appending an account does not move an earlier first match. |
| Registry.UniqueAccountIndex | banking_system_lib.cpp:301-304 | With unique numbers, the first match of an account's number is that account. |
| Registry.InvariantAfterOpen | banking_system_lib.cpp:351-352 | Appending a validated account with a new number keeps the registry invariant. |
| Registry.InvariantAfterIssue | banking_system_lib.cpp:448-450 | Appending a consistent loan made from the counter's value, for an existing account, keeps the invariant once the counter has moved on. |
| Registry.LoanIdCounter.constructor | banking_system_lib.cpp:4 | The loan-id counter starts at 1001. |
| Registry.BankingSystem.constructor | enhanced_banking_system.h:123-125 | A registry starts with no accounts and no loans, sharing the given counter, and satisfies the invariant. |
| Registry.BankingSystem.FindAccount | banking_system_lib.cpp:358-365 | The loop returns the first account with the number, or null. |
| Registry.BankingSystem.FindLoan | banking_system_lib.cpp:578-585 | The loop returns the first loan with the id, or null. |
| Registry.BankingSystem.GenerateLoanId | banking_system_lib.cpp:587-589 | Returns "LOAN" followed by the counter's value and raises the counter by exactly one. |
| Registry.BankingSystem.CreateAccount | banking_system_lib.cpp:277-356 | A duplicate number, or else an account type outside 1 to 3, leaves the accounts unchanged. Otherwise exactly one new account of the chosen variant is appended with its number, holder and balance. The invariant is kept and the loans are untouched. |
| Registry.BankingSystem.ApplyForLoan | banking_system_lib.cpp:381-460 | A missing account, a principal <= 0 or a term <= 0 changes nothing, counter included. Otherwise one new active loan is appended: its id is taken from the counter, its rate is the custom rate if positive and else the type's default. The principal is credited to that account only, and the invariant is kept. |
| Registry.BankingSystem.IssueLoan | banking_system_lib.cpp:447-450 | Draws the next id and appends a freshly originated loan. The invariant is kept. |
| Registry.BankingSystem.MakeLoanPayment | banking_system_lib.cpp:462-504 | No loans, an unknown id, a closed loan, or a balance below the amount each change nothing. Otherwise the linked account is debited the full positive amount entered, and the loan moves as Pay says. No other account or loan changes, and the invariant is kept. |
| Registry.BankingSystem.Settle | banking_system_lib.cpp:499-503 | Debits the linked account and then applies the payment to the loan, touching nothing else. The registry invariant guarantees the linked account exists, so the null test of line 500 always passes. |
| StandaloneBankingSystem.Debit | bankingsystem.cpp:22-76 | The base withdraw subtracts any amount: balance after plus amount equals balance before. Checking refuses exactly the amounts beyond balance + 1000 and otherwise subtracts, staying at or above -1000. |
| StandaloneBankingSystem.Account.OpenSavings | bankingsystem.cpp:43-46 | A Savings account with the given fields; the rate defaults to 5.0. |
| StandaloneBankingSystem.Account.OpenChecking | bankingsystem.cpp:59-62 | A Checking account with the 1000 overdraft limit. |
| StandaloneBankingSystem.Account.OpenFixedDeposit | bankingsystem.cpp:103-106 | A FixedDeposit account; the term defaults to 0. |
| StandaloneBankingSystem.Account.Deposit | bankingsystem.cpp:17-20 | Any amount is added, zero and negative included. |
| StandaloneBankingSystem.Account.Withdraw | bankingsystem.cpp:64-76 | The balance becomes what Debit gives for the account's variant. |
| StandaloneBankingSystem.Account.CalculateInterest | bankingsystem.cpp:48-111 | Savings interest is the balance times the rate over 100. FixedDeposit interest is 7% a year prorated over the term. |
| StandaloneBankingSystem.Account.CheckOverdraft | bankingsystem.cpp:77-90 | Reports balance + 1000. It says "allowed" if and only if the amount is within that total, which is exactly when withdraw takes it. |
| StandaloneBankingSystem.CheckingKeepsFloor | bankingsystem.cpp:64-76 | A Checking balance at or above -1000 stays there whatever is withdrawn. |
| StandaloneBankingSystem.WithdrawUndoesDeposit | bankingsystem.cpp:17-25 | Withdrawing what was just deposited restores the balance. For Checking this needs a balance within the overdraft. |
| StandaloneBankingSystem.UnguardedBaseRule | bankingsystem.cpp:22-25 | The base withdraw has no guard: withdrawing 150 from 100 in Savings leaves -50, and withdrawing -50 from 100 in FixedDeposit leaves 150. |
| StandaloneBankingSystem.ValidateName | bankingsystem.cpp:140-152 | The scan accepts a name if and only if every character is a letter. |
| StandaloneBankingSystem.NameRules | bankingsystem.cpp:145-151 | The empty name is accepted and a name containing a space is refused. |
| StandaloneBankingSystem.NumberAndBalanceRules | bankingsystem.cpp:137-160 | The account number loop accepts twelve characters and refuses eleven or thirteen. The balance loop accepts 0 and refuses -0.01. |
| StandaloneBankingSystem.OpenAccount | bankingsystem.cpp:162-185 | An account is opened if and only if the type is 1 to 3, with the variant chosen and the accepted inputs. |
| StandaloneBanking.BaseDebit | banking.cpp:25-32 | The base withdraw takes exactly the amounts with 0 < amount <= balance. It keeps a non-negative balance non-negative. |
| StandaloneBanking.Debit | banking.cpp:76-90 | A Checking withdrawal with a non-negative limit leaves the balance unchanged. The other variants use the base rule. |
| StandaloneBanking.Account.Open | banking.cpp:11-16 | A base account with an integer number, holder and balance. |
| StandaloneBanking.Account.OpenSavings | banking.cpp:49-51 | A Savings account whose rate defaults to 7.7. |
| StandaloneBanking.Account.OpenChecking | banking.cpp:72-74 | A Checking account with the 1000 overdraft limit. |
| StandaloneBanking.Account.OpenFixedDeposit | banking.cpp:116-118 | A FixedDeposit account whose term defaults to 0. |
| StandaloneBanking.Account.Deposit | banking.cpp:17-24 | A positive amount is added; anything else changes nothing. |
| StandaloneBanking.Account.BaseWithdraw | banking.cpp:25-32 | The balance becomes what the guarded base rule gives. |
| StandaloneBanking.Account.Withdraw | banking.cpp:76-90 | The override forwards only amounts beyond balance + limit, and the base refuses those. The balance becomes what Debit gives. |
| StandaloneBanking.Account.CalculateInterest | banking.cpp:53-122 | Savings interest is the balance times the rate over 100. FixedDeposit interest (clculateInterrst) is 7% a year prorated over the term. |
| StandaloneBanking.Account.CheckOverdraft | banking.cpp:92-108 | Says "allowed" if and only if the amount exceeds balance + limit. It never says "exceeded", because the case 2 branch cannot be reached. |
| StandaloneBanking.CheckingWithdrawNeverTakes | banking.cpp:76-90 | A Checking withdrawal never changes the balance, including the amounts checkOverdraft calls allowed. |
| StandaloneBanking.BaseRuleKeepsNonNegative | banking.cpp:25-32 | A non-negative balance stays non-negative under every variant's withdraw. |
| StandaloneBanking.WithdrawUndoesDeposit | banking.cpp:17-32 | For the variants other than Checking, withdrawing a just-deposited positive amount restores the balance. |

## Left out

- Console output, formatting and menus are presentation only and are not modelled. This covers every `display*` function, `displayMainMenu`, `displayLoanMenu`, `run` and every `main` menu loop. `displayPaymentHistory` prints only and is left out too.
- The console prompts and re-prompt loops are left out. Their accepted values become parameters and preconditions: the account number, name and balance in `createAccount`, and the input loops of the standalone `main`.
- `time(0)`, `ctime` and `difftime` are replaced by the parameter `now`. It feeds the payment timestamp, the start date and `isOverdue`.
- IEEE `double` rounding and the library `pow` are not modelled. Money is exact `real` and the power is exact; the 0.01 payoff snap is kept as written.
- The `run` dispatch through `dynamic_cast` is UI dispatch. The variant tag of `Account` takes its place.
- The destructor's `delete` of the accounts is memory management and is not modelled.
- demo_script.cpp is a printing driver with `rand()`. Only its 5000 / 12% / 24-month scenario appears, as `Loans.PersonalLoanExample`.
- The getters return fields directly. The model reads the fields.
- Registry.BankingSystem.FindAccount and Registry.BankingSystem.FindLoan: the other registry operations do the lookup with `AccountIndex` and `LoanIndex`, which these loops are proved to compute, instead of calling the loops.
- Loans.LoanAccount.constructor: requires principal >= 0 and term > 0. The header's default term of 0 makes `calculateMonthlyPayment` divide by zero, and every caller passes a positive term. So the header's defaults (rate 0.0, term 0, type "Personal") are not modelled.
- Registry.LoanIdCounter: the counter is an unbounded `nat`, so the wrap-around of the C++ `int` past its maximum is not modelled. The static member becomes one counter object that the `BankingSystem` constructor takes as a parameter. Sharing it among registries, as the static member is shared, relies on callers passing the same counter to each.
- Registry.BankingSystem.Valid: the invariant does not include the balance floor of each account. That floor is kept by `Accounts.Account.Deposit` and `Withdraw` themselves.
- Strings are sequences of `char`. `isalpha` is taken as the ASCII letters of the C locale.
- The loan type is a datatype rather than the strings "Personal", "Home", "Car" and "Business".
- StandaloneBanking.Account.CalculateInterest: banking.cpp's two interest functions have different names (`calculateInterest`, `clculateInterrst`). They are one member here, selected by the account's variant.
