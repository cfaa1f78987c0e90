/** The loan engine: origination by the standard amortisation formula, the
    Active/Closed payment state machine, and the read-only projections
    (total interest, remaining payments, the next-six-payments schedule and
    the overdue heuristic). Money is exact `real`; `pow` is `Pow`. */
module Loans {

  /** Below this remaining balance a payment closes the loan. */
  const PayoffThreshold: real := 0.01
  /** The schedule projection shows at most this many future payments. */
  const ScheduleHorizon: int := 6
  /** The overdue heuristic's month: 30 days of 24 hours. */
  const SecondsPerMonth: int := 30 * 24 * 3600

  datatype LoanType = Personal | Home | Car | Business

  /** One entry of the payment history: when, and how much was applied. */
  datatype PaymentRecord = PaymentRecord(time: int, amount: real)

  /** The part of a loan that payments and closure change. */
  datatype LoanState = LoanState(remaining: real, paymentsMade: int, active: bool, history: seq<PaymentRecord>)

  /** One projected future payment. */
  datatype ScheduleEntry = ScheduleEntry(number: int, interest: real, principal: real, balance: real)

  /** How one accepted payment is split. */
  datatype PaymentBreakdown = PaymentBreakdown(applied: real, interest: real, principalPortion: real)

  function Min(a: int, b: int): int { if a <= b then a else b }

  /** Annual percentage rate to monthly decimal rate. */
  function MonthlyRate(annualRate: real): real { annualRate / 1200.0 }

  function Pow(b: real, n: nat): real
  {
    if n == 0 then 1.0 else b * Pow(b, n - 1)
  }

  lemma {:induction false} PowAtLeastOne(b: real, n: nat)
    requires b >= 1.0
    ensures Pow(b, n) >= 1.0
  {
    if n > 0 {
      PowAtLeastOne(b, n - 1);
      var p := Pow(b, n - 1);
      assert b * p - p == (b - 1.0) * p;
      assert (b - 1.0) * p >= 0.0;
    }
  }

  lemma {:induction false} PowAboveOne(b: real, n: nat)
    requires b > 1.0 && n >= 1
    ensures Pow(b, n) > 1.0
  {
    PowAtLeastOne(b, n - 1);
    var p := Pow(b, n - 1);
    assert b * p - p == (b - 1.0) * p;
    assert (b - 1.0) * p > 0.0;
  }

  lemma {:induction false} PowAdd(b: real, m: nat, n: nat)
    ensures Pow(b, m + n) == Pow(b, m) * Pow(b, n)
  {
    if m > 0 {
      PowAdd(b, m - 1, n);
      assert Pow(b, m + n) == b * Pow(b, m - 1 + n);
    }
  }

  /** a <= b and c >= 0 give a c <= b c. */
  lemma MulRightMonotone(a: real, b: real, c: real)
    requires a <= b && 0.0 <= c
    ensures a * c <= b * c
  {
    assert b * c - a * c == (b - a) * c;
  }

  /** (b^n - 1) <= n ((b - 1) b^n) for b >= 1: the growth bound behind the
      non-negative total interest. */
  lemma {:induction false} PowGrowthBound(b: real, n: nat)
    requires b >= 1.0
    ensures Pow(b, n) - 1.0 <= (n as real) * ((b - 1.0) * Pow(b, n))
  {
    if n > 0 {
      PowGrowthBound(b, n - 1);
      PowAtLeastOne(b, n - 1);
      var p := Pow(b, n - 1);
      var m := (n - 1) as real;
      var q := (b - 1.0) * p;
      assert Pow(b, n) == b * p;
      MulRightMonotone(0.0, b - 1.0, p);
      assert b * p - 1.0 == q + (p - 1.0);
      assert p - 1.0 <= m * q;
      assert b * p - 1.0 <= (n as real) * q;
      assert (b - 1.0) * (b * p) == b * q;
      MulRightMonotone(1.0, b, q);
      MulRightMonotone(q, b * q, n as real);
      assert (n as real) * q <= (n as real) * (b * q);
    }
  }

  /** LoanAccount::calculateMonthlyPayment: the amortisation formula for a
      positive rate, straight-line repayment otherwise. */
  function MonthlyPayment(principal: real, annualRate: real, termMonths: int): (payment: real)
    requires termMonths > 0
    ensures annualRate > 0.0 && principal > 0.0 ==> payment > 0.0
    ensures annualRate <= 0.0 ==> payment * (termMonths as real) == principal
    ensures annualRate > 0.0 ==>
      payment * (Pow(1.0 + MonthlyRate(annualRate), termMonths) - 1.0)
        == principal * MonthlyRate(annualRate) * Pow(1.0 + MonthlyRate(annualRate), termMonths)
  {
    if annualRate > 0.0 then
      var monthlyRate := MonthlyRate(annualRate);
      var temp := Pow(1.0 + monthlyRate, termMonths);
      PowAboveOne(1.0 + monthlyRate, termMonths);
      assert principal * monthlyRate * temp / (temp - 1.0) * (temp - 1.0) == principal * monthlyRate * temp;
      assert principal > 0.0 ==> principal * monthlyRate * temp > 0.0;
      (principal * monthlyRate * temp) / (temp - 1.0)
    else
      principal / (termMonths as real)
  }

  /** The balance a schedule projection reaches after k payments of `payment`:
      each step charges `monthlyRate` interest on the running balance and
      takes the rest of the payment off the principal. */
  function ProjectedBalance(balance: real, monthlyRate: real, payment: real, k: nat): real
  {
    if k == 0 then balance
    else
      var before := ProjectedBalance(balance, monthlyRate, payment, k - 1);
      before - (payment - before * monthlyRate)
  }

  /** Closed form of the projection: r B_k = r B (1+r)^k - payment ((1+r)^k - 1). */
  lemma {:induction false} ProjectedBalanceClosedForm(balance: real, r: real, payment: real, k: nat)
    ensures r * ProjectedBalance(balance, r, payment, k)
      == r * balance * Pow(1.0 + r, k) - payment * (Pow(1.0 + r, k) - 1.0)
  {
    if k == 0 {
      ClosedFormBase(balance, r, payment, ProjectedBalance(balance, r, payment, k), Pow(1.0 + r, k));
    } else {
      ProjectedBalanceClosedForm(balance, r, payment, k - 1);
      ClosedFormStep(balance, r, payment, ProjectedBalance(balance, r, payment, k - 1), Pow(1.0 + r, k - 1),
                     ProjectedBalance(balance, r, payment, k), Pow(1.0 + r, k));
    }
  }

  lemma ClosedFormBase(balance: real, r: real, payment: real, after: real, y: real)
    requires after == balance && y == 1.0
    ensures r * after == r * balance * y - payment * (y - 1.0)
  {
  }

  /** One step of the closed form, with the powers and the balances
      abstracted: `before`/`x` at step k - 1, `after`/`y` at step k. */
  lemma ClosedFormStep(balance: real, r: real, payment: real, before: real, x: real, after: real, y: real)
    requires r * before == r * balance * x - payment * (x - 1.0)
    requires after == before - (payment - before * r) && y == (1.0 + r) * x
    ensures r * after == r * balance * y - payment * (y - 1.0)
  {
    var z := r * before;
    assert r * after == (1.0 + r) * z - r * payment;
    assert (1.0 + r) * z == (1.0 + r) * (r * balance * x) - (1.0 + r) * (payment * (x - 1.0));
    assert (1.0 + r) * (r * balance * x) == r * balance * y;
    assert (1.0 + r) * (payment * (x - 1.0)) + r * payment == payment * (y - 1.0);
  }

  /** With no interest the projection is straight-line. */
  lemma {:induction false} ProjectedBalanceZeroRate(balance: real, payment: real, k: nat)
    ensures ProjectedBalance(balance, 0.0, payment, k) == balance - (k as real) * payment
  {
    if k > 0 {
      ProjectedBalanceZeroRate(balance, payment, k - 1);
    }
  }

  /** The amortisation formula is the payment that clears the principal in
      exactly `termMonths` projected payments (rate 0 included). */
  lemma FullTermClearsBalance(principal: real, annualRate: real, termMonths: int)
    requires termMonths > 0 && annualRate >= 0.0
    ensures ProjectedBalance(principal, MonthlyRate(annualRate),
                             MonthlyPayment(principal, annualRate, termMonths), termMonths) == 0.0
  {
    var payment := MonthlyPayment(principal, annualRate, termMonths);
    var r := MonthlyRate(annualRate);
    if annualRate > 0.0 {
      ProjectedBalanceClosedForm(principal, r, payment, termMonths);
      var bal := ProjectedBalance(principal, r, payment, termMonths);
      assert r * bal == 0.0;
      assert r > 0.0;
    } else {
      assert r == 0.0;
      ProjectedBalanceZeroRate(principal, payment, termMonths);
    }
  }

  /** With a positive rate the instalments repay at least the principal. */
  lemma PaybackCoversPrincipal(principal: real, annualRate: real, termMonths: int)
    requires termMonths > 0 && annualRate > 0.0 && principal >= 0.0
    ensures MonthlyPayment(principal, annualRate, termMonths) * (termMonths as real) >= principal
  {
    var payment := MonthlyPayment(principal, annualRate, termMonths);
    var r := MonthlyRate(annualRate);
    var x := Pow(1.0 + r, termMonths);
    var n := termMonths as real;
    PowAboveOne(1.0 + r, termMonths);
    PowGrowthBound(1.0 + r, termMonths);
    assert payment * (x - 1.0) == principal * r * x;
    PaybackStep(payment, principal, r, x, n);
  }

  /** A product that is non-negative with a positive factor has a non-negative other factor. */
  lemma NonNegativeFactor(a: real, c: real)
    requires c > 0.0 && a * c >= 0.0
    ensures a >= 0.0
  {
    assert a == (a * c) / c;
  }

  /** The arithmetic of PaybackCoversPrincipal, with the powers abstracted. */
  lemma PaybackStep(payment: real, principal: real, r: real, x: real, n: real)
    requires x > 1.0 && principal >= 0.0
    requires x - 1.0 <= n * (r * x)
    requires payment * (x - 1.0) == principal * r * x
    ensures payment * n >= principal
  {
    MulRightMonotone(x - 1.0, n * (r * x), principal);
    assert (payment * n - principal) * (x - 1.0) == principal * (n * (r * x)) - principal * (x - 1.0);
    NonNegativeFactor(payment * n - principal, x - 1.0);
  }

  /** LoanAccount::calculateTotalInterest, on the origination parameters only. */
  function TotalInterest(principal: real, annualRate: real, termMonths: int): (interest: real)
    requires termMonths > 0
    ensures annualRate <= 0.0 ==> interest == 0.0
    ensures annualRate > 0.0 && principal >= 0.0 ==> interest >= 0.0
    ensures MonthlyPayment(principal, annualRate, termMonths) * (termMonths as real) == principal + interest
  {
    var total := MonthlyPayment(principal, annualRate, termMonths) * (termMonths as real);
    assert annualRate > 0.0 && principal >= 0.0 ==> total >= principal by {
      if annualRate > 0.0 && principal >= 0.0 {
        PaybackCoversPrincipal(principal, annualRate, termMonths);
      }
    }
    total - principal
  }

  /** The split of one accepted payment: the amount is clamped to the
      remaining balance, interest is charged on the pre-payment balance and
      the principal portion is floored at zero. */
  function Breakdown(remaining: real, annualRate: real, amount: real): (b: PaymentBreakdown)
    ensures b.applied <= amount && b.applied <= remaining
    ensures b.applied == amount || b.applied == remaining
    ensures b.interest == remaining * MonthlyRate(annualRate)
    ensures b.principalPortion >= 0.0
    ensures b.interest <= b.applied ==> b.interest + b.principalPortion == b.applied
    ensures b.interest > b.applied ==> b.principalPortion == 0.0
  {
    var applied := if amount > remaining then remaining else amount;
    var interestPortion := remaining * MonthlyRate(annualRate);
    var principalPortion := applied - interestPortion;
    PaymentBreakdown(applied, interestPortion, if principalPortion < 0.0 then 0.0 else principalPortion)
  }

  /** LoanAccount::makePayment on the loan's mutable state. */
  function Pay(s: LoanState, annualRate: real, amount: real, now: int): (t: LoanState)
    ensures !s.active || amount <= 0.0 ==> t == s
    ensures s.active && amount > 0.0 ==>
      && t.paymentsMade == s.paymentsMade + 1
      && t.history == s.history + [PaymentRecord(now, if amount > s.remaining then s.remaining else amount)]
      && t.remaining >= 0.0
      && (s.remaining >= 0.0 ==> t.remaining <= s.remaining)
      && (t.active <==> t.remaining > PayoffThreshold)
      && (!t.active ==> t.remaining == 0.0)
    ensures s.active && amount > 0.0 ==>
      var left := s.remaining - Breakdown(s.remaining, annualRate, amount).principalPortion;
      && t.remaining == (if left <= PayoffThreshold then 0.0 else left)
      && (t.active <==> left > PayoffThreshold)
  {
    if !s.active || amount <= 0.0 then s
    else
      var b := Breakdown(s.remaining, annualRate, amount);
      var left := s.remaining - b.principalPortion;
      var history := s.history + [PaymentRecord(now, b.applied)];
      if left <= PayoffThreshold then LoanState(0.0, s.paymentsMade + 1, false, history)
      else LoanState(left, s.paymentsMade + 1, true, history)
  }

  /** LoanAccount::closeLoan on the loan's mutable state. */
  function Close(s: LoanState): (t: LoanState)
    ensures !t.active && t.remaining == 0.0
    ensures t.paymentsMade == s.paymentsMade && t.history == s.history
  {
    s.(active := false, remaining := 0.0)
  }

  /** What holds of every loan state reachable from origination with a
      non-negative principal. */
  ghost predicate Consistent(s: LoanState, principal: real)
  {
    && 0.0 <= s.remaining <= principal
    && s.paymentsMade == |s.history|
    && (!s.active ==> s.remaining == 0.0)
    && (s.active && s.paymentsMade > 0 ==> s.remaining > PayoffThreshold)
  }

  lemma PayKeepsConsistent(s: LoanState, principal: real, annualRate: real, amount: real, now: int)
    requires Consistent(s, principal)
    ensures Consistent(Pay(s, annualRate, amount, now), principal)
  {
  }

  lemma CloseIdempotent(s: LoanState, principal: real)
    requires Consistent(s, principal)
    ensures Consistent(Close(s), principal)
    ensures Close(Close(s)) == Close(s)
  {
  }

  /** A closed loan accepts no payment, whatever the amount. */
  lemma ClosedLoanIsTerminal(s: LoanState, annualRate: real, amount: real, now: int)
    ensures Pay(Close(s), annualRate, amount, now) == Close(s)
  {
  }

  /** Paying at least the remaining balance of an interest-bearing loan does
      not clear it: the amount is clamped to the balance and the interest on
      that balance is then taken off the payment, so the loan stays open with
      exactly the interest left over (when that exceeds the payoff threshold). */
  lemma ClampedPaymentLeavesInterest(s: LoanState, annualRate: real, amount: real, now: int)
    requires s.active && s.remaining > 0.0 && amount >= s.remaining
    requires 0.0 < annualRate <= 1200.0
    requires s.remaining * MonthlyRate(annualRate) > PayoffThreshold
    ensures Pay(s, annualRate, amount, now).remaining == s.remaining * MonthlyRate(annualRate)
    ensures Pay(s, annualRate, amount, now).active
  {
    var r := MonthlyRate(annualRate);
    assert s.remaining * r <= s.remaining * 1.0;
  }

  /** A payment that does not exceed the interest due changes nothing but the
      count and the history, so the payment count can run past the term and
      getRemainingPayments can go below zero. */
  lemma InterestOnlyPaymentKeepsBalance(s: LoanState, annualRate: real, amount: real, now: int)
    requires s.active && s.remaining > PayoffThreshold
    requires 0.0 < amount <= s.remaining * MonthlyRate(annualRate)
    ensures Pay(s, annualRate, amount, now).remaining == s.remaining
    ensures Pay(s, annualRate, amount, now).active
    ensures Pay(s, annualRate, amount, now).paymentsMade == s.paymentsMade + 1
  {
  }

  /** The term less the payments made, as getRemainingPayments reports it. */
  function PaymentsLeft(termMonths: int, s: LoanState): int
  {
    termMonths - s.paymentsMade
  }

  /** Once the term's payments are made, an interest-only payment still
      counts and leaves the loan open, so the remaining payments go negative. */
  lemma PaymentsCanOverrunTerm(s: LoanState, principal: real, annualRate: real, termMonths: int,
                               amount: real, now: int)
    requires Consistent(s, principal) && s.active && s.remaining > PayoffThreshold
    requires s.paymentsMade == termMonths
    requires 0.0 < amount <= s.remaining * MonthlyRate(annualRate)
    ensures Pay(s, annualRate, amount, now).active
    ensures PaymentsLeft(termMonths, Pay(s, annualRate, amount, now)) == -1
    ensures Consistent(Pay(s, annualRate, amount, now), principal)
  {
    InterestOnlyPaymentKeepsBalance(s, annualRate, amount, now);
    PayKeepsConsistent(s, principal, annualRate, amount, now);
  }

  /** A payment of one scheduled instalment that covers the interest and not
      the whole balance moves the balance exactly as the schedule projects. */
  lemma ScheduledPaymentFollowsProjection(s: LoanState, annualRate: real, payment: real, now: int)
    requires s.active && 0.0 < payment <= s.remaining
    requires s.remaining * MonthlyRate(annualRate) <= payment
    requires ProjectedBalance(s.remaining, MonthlyRate(annualRate), payment, 1) > PayoffThreshold
    ensures Pay(s, annualRate, payment, now).remaining
         == ProjectedBalance(s.remaining, MonthlyRate(annualRate), payment, 1)
    ensures Pay(s, annualRate, payment, now).active
  {
  }

  /** The 5000 at 12% over 24 months scenario of the demonstration driver:
      an instalment of about 235.37, and about 4814.63 left after paying it once. */
  lemma PersonalLoanExample(now: int)
    ensures 235.36 < MonthlyPayment(5000.0, 12.0, 24) < 235.38
    ensures var s := Pay(LoanState(5000.0, 0, true, []), 12.0, MonthlyPayment(5000.0, 12.0, 24), now);
            4814.62 < s.remaining < 4814.64 && s.paymentsMade == 1 && s.active
  {
    assert MonthlyRate(12.0) == 0.01;
    assert Pow(1.01, 3) == 1.030301;
    PowAdd(1.01, 3, 3);
    PowAdd(1.01, 6, 6);
    PowAdd(1.01, 12, 12);
    var x := Pow(1.01, 24);
    assert 1.2697 < x < 1.2698;
    var payment := MonthlyPayment(5000.0, 12.0, 24);
    assert payment == 5000.0 * 0.01 * x / (x - 1.0);
    assert 235.36 < payment < 235.38;
  }

  /** Projected schedule entry k (0-based) after `paymentsMade` payments. */
  function ProjectedEntry(balance: real, monthlyRate: real, payment: real, paymentsMade: int, k: nat): ScheduleEntry
  {
    var before := ProjectedBalance(balance, monthlyRate, payment, k);
    ScheduleEntry(paymentsMade + k + 1, before * monthlyRate, payment - before * monthlyRate,
                  ProjectedBalance(balance, monthlyRate, payment, k + 1))
  }

  /** Entry k of the projection, from the balance reached after k steps. */
  lemma ProjectedEntryStep(balance: real, monthlyRate: real, payment: real, paymentsMade: int, k: nat, before: real)
    requires before == ProjectedBalance(balance, monthlyRate, payment, k)
    ensures ProjectedBalance(balance, monthlyRate, payment, k + 1) == before - (payment - before * monthlyRate)
    ensures ProjectedEntry(balance, monthlyRate, payment, paymentsMade, k)
      == ScheduleEntry(paymentsMade + k + 1, before * monthlyRate, payment - before * monthlyRate,
                       before - (payment - before * monthlyRate))
  {
  }

  /** How many entries the schedule shows for a number of remaining payments. */
  function ScheduleLength(remainingPayments: int): (n: nat)
    ensures n <= ScheduleHorizon
    ensures remainingPayments <= 0 ==> n == 0
    ensures remainingPayments > 0 ==> n == Min(ScheduleHorizon, remainingPayments)
  {
    if remainingPayments > 0 then Min(ScheduleHorizon, remainingPayments) else 0
  }

  /** A tracked loan (LoanAccount). The origination fields never change
      after construction, so they are `const`. */
  class LoanAccount {
    const loanId: string
    const accountNumber: string
    const borrowerName: string
    const principalAmount: real
    const interestRate: real
    const termMonths: int
    const monthlyPayment: real
    const loanType: LoanType
    const startDate: int
    var remainingAmount: real
    var paymentsMade: int
    var isActive: bool
    var paymentHistory: seq<PaymentRecord>

    function State(): LoanState
      reads this
    {
      LoanState(remainingAmount, paymentsMade, isActive, paymentHistory)
    }

    ghost predicate Valid()
      reads this
    {
      && termMonths > 0
      && monthlyPayment == MonthlyPayment(principalAmount, interestRate, termMonths)
      && Consistent(State(), principalAmount)
    }

    /** Origination at time `now`; `calculateMonthlyPayment` fixes the instalment. */
    constructor (loanId: string, accountNumber: string, borrowerName: string, principal: real,
                 interestRate: real, termMonths: int, loanType: LoanType, now: int)
      requires principal >= 0.0 && termMonths > 0
      ensures Valid()
      ensures this.loanId == loanId && this.accountNumber == accountNumber
      ensures this.borrowerName == borrowerName && this.principalAmount == principal
      ensures this.interestRate == interestRate && this.termMonths == termMonths
      ensures this.loanType == loanType && this.startDate == now
      ensures State() == LoanState(principal, 0, true, [])
    {
      this.loanId := loanId;
      this.accountNumber := accountNumber;
      this.borrowerName := borrowerName;
      this.principalAmount := principal;
      this.remainingAmount := principal;
      this.interestRate := interestRate;
      this.termMonths := termMonths;
      this.paymentsMade := 0;
      this.loanType := loanType;
      this.isActive := true;
      this.startDate := now;
      this.paymentHistory := [];
      this.monthlyPayment := MonthlyPayment(principal, interestRate, termMonths);
    }

    method MakePayment(amount: real, now: int)
      requires Valid()
      modifies this
      ensures Valid()
      ensures State() == Pay(old(State()), interestRate, amount, now)
    {
      if !isActive {
        return;
      }
      if amount <= 0.0 {
        return;
      }
      ghost var before := State();
      PayKeepsConsistent(before, principalAmount, interestRate, amount, now);
      var paid := amount;
      if paid > remainingAmount {
        paid := remainingAmount;
      }
      var monthlyRate := interestRate / 1200.0;
      var interestPortion := remainingAmount * monthlyRate;
      var principalPortion := paid - interestPortion;
      if principalPortion < 0.0 {
        principalPortion := 0.0;
      }
      ghost var split := Breakdown(remainingAmount, interestRate, amount);
      assert paid == split.applied && principalPortion == split.principalPortion;
      ghost var after := Pay(before, interestRate, amount, now);
      remainingAmount := remainingAmount - principalPortion;
      paymentsMade := paymentsMade + 1;
      paymentHistory := paymentHistory + [PaymentRecord(now, paid)];
      if remainingAmount <= PayoffThreshold {
        remainingAmount := 0.0;
        isActive := false;
      }
      assert State() == after;
    }

    function TotalInterestAmount(): (interest: real)
      reads this
      requires Valid()
      ensures interest == TotalInterest(principalAmount, interestRate, termMonths)
    {
      monthlyPayment * (termMonths as real) - principalAmount
    }

    /** getRemainingPayments: not floored at zero. */
    function RemainingPayments(): (n: int)
      reads this
      ensures Valid() ==> n == termMonths - |paymentHistory| && n <= termMonths
    {
      PaymentsLeft(termMonths, State())
    }

    /** The computation of displayPaymentSchedule: the next
        min(6, remaining payments) instalments of `monthlyPayment`, simulated
        on a scratch copy of the balance. Nothing is changed. */
    method PaymentSchedule() returns (entries: seq<ScheduleEntry>)
      ensures |entries| == ScheduleLength(RemainingPayments())
      ensures forall k :: 0 <= k < |entries| ==>
        entries[k] == ProjectedEntry(remainingAmount, MonthlyRate(interestRate), monthlyPayment, paymentsMade, k)
    {
      entries := [];
      var remainingPayments := termMonths - paymentsMade;
      if remainingPayments > 0 {
        var count := Min(ScheduleHorizon, remainingPayments);
        var tempBalance := remainingAmount;
        var monthlyRate := interestRate / 1200.0;
        var i := 1;
        while i <= count
          invariant 1 <= i <= count + 1
          invariant |entries| == i - 1
          invariant tempBalance == ProjectedBalance(remainingAmount, monthlyRate, monthlyPayment, i - 1)
          invariant forall k :: 0 <= k < i - 1 ==>
            entries[k] == ProjectedEntry(remainingAmount, monthlyRate, monthlyPayment, paymentsMade, k)
        {
          ProjectedEntryStep(remainingAmount, monthlyRate, monthlyPayment, paymentsMade, i - 1, tempBalance);
          var interestPortion := tempBalance * monthlyRate;
          var principalPortion := monthlyPayment - interestPortion;
          tempBalance := tempBalance - principalPortion;
          entries := entries + [ScheduleEntry(paymentsMade + i, interestPortion, principalPortion, tempBalance)];
          i := i + 1;
        }
      }
    }

    /** isOverdue, with the clock reading passed in as `now`. */
    function IsOverdue(now: int): (overdue: bool)
      reads this
      ensures overdue <==> isActive && now - startDate > (paymentsMade + 1) * SecondsPerMonth
    {
      var monthsElapsed := (now - startDate) as real / (SecondsPerMonth as real);
      assert monthsElapsed > (paymentsMade + 1) as real
         <==> ((now - startDate) as real) > ((paymentsMade + 1) as real) * (SecondsPerMonth as real);
      (monthsElapsed > (paymentsMade + 1) as real) && isActive
    }

    method CloseLoan()
      requires Valid()
      modifies this
      ensures Valid()
      ensures State() == Close(old(State()))
    {
      isActive := false;
      remainingAmount := 0.0;
    }
  }
}
