/**
 * A salary record and the three SalaryController operations that derive its
 * payment status: `store`, `update` and `pay`.
 */
module Payroll {
  import opened Options

  /** The payment tier stored in a salary's `status` column. */
  datatype PayStatus = Unpaid | Pending | Paid

  /**
   * The one rule behind the three copies of the status ternary: `paid` once the
   * paid amount reaches the base salary (tested first), else `pending` if
   * anything was paid, else `unpaid`.
   */
  function PayStatusFor(paidAmount: real, baseSalary: real): (s: PayStatus)
    ensures s == Paid <==> paidAmount >= baseSalary
    ensures s == Pending <==> 0.0 < paidAmount < baseSalary
    ensures s == Unpaid <==> paidAmount <= 0.0 && paidAmount < baseSalary
  {
    if paidAmount >= baseSalary then Paid else if paidAmount > 0.0 then Pending else Unpaid
  }

  /** For a positive base salary the tiers are the three ranges of the paid amount. */
  lemma TiersForPositiveBase(paidAmount: real, baseSalary: real)
    requires baseSalary > 0.0
    ensures PayStatusFor(paidAmount, baseSalary) == Unpaid <==> paidAmount <= 0.0
    ensures PayStatusFor(paidAmount, baseSalary) == Pending <==> 0.0 < paidAmount < baseSalary
    ensures PayStatusFor(paidAmount, baseSalary) == Paid <==> baseSalary <= paidAmount
  {
  }

  /** The validated fields of a `store` request; absent (or null) fields are None. */
  datatype StoreRequest = StoreRequest(
    userId: int, baseSalary: real, paidAmount: Option<real>,
    salaryMonth: Option<string>, status: Option<PayStatus>)

  /** The validated fields of an `update` request; absent (or null) fields are None. */
  datatype UpdateRequest = UpdateRequest(
    userId: Option<int>, baseSalary: Option<real>, paidAmount: Option<real>,
    salaryMonth: Option<string>, status: Option<PayStatus>)

  /** The request's `amount` field, as the validator classifies it. */
  datatype AmountField = Missing | NotNumeric | Number(x: real)

  /** The rule `required|numeric|min:0.01`. */
  predicate AmountAccepted(a: AmountField) {
    a.Number? && a.x >= 0.01
  }

  class Salary {
    var userId: int
    var baseSalary: real
    var paidAmount: real
    var salaryMonth: string
    var status: PayStatus

    /** The stored status is the one the rule gives for the stored amounts. */
    ghost predicate StatusCurrent()
      reads this
    {
      status == PayStatusFor(paidAmount, baseSalary)
    }

    constructor Create(userId: int, baseSalary: real, paidAmount: real, salaryMonth: string, status: PayStatus)
      ensures this.userId == userId && this.baseSalary == baseSalary && this.paidAmount == paidAmount
      ensures this.salaryMonth == salaryMonth && this.status == status
    {
      this.userId := userId;
      this.baseSalary := baseSalary;
      this.paidAmount := paidAmount;
      this.salaryMonth := salaryMonth;
      this.status := status;
    }

    /**
     * `update`: fill the given fields, then recompute the status from the
     * filled amounts only when the request carried an amount field.
     */
    method Update(req: UpdateRequest)
      modifies this
      ensures userId == req.userId.GetOr(old(userId))
      ensures baseSalary == req.baseSalary.GetOr(old(baseSalary))
      ensures paidAmount == req.paidAmount.GetOr(old(paidAmount))
      ensures salaryMonth == req.salaryMonth.GetOr(old(salaryMonth))
      ensures req.paidAmount.Some? || req.baseSalary.Some? ==> StatusCurrent()
      ensures req.paidAmount.None? && req.baseSalary.None? ==> status == req.status.GetOr(old(status))
    {
      userId := req.userId.GetOr(userId);
      baseSalary := req.baseSalary.GetOr(baseSalary);
      paidAmount := req.paidAmount.GetOr(paidAmount);
      salaryMonth := req.salaryMonth.GetOr(salaryMonth);
      status := req.status.GetOr(status);
      if req.paidAmount.Some? || req.baseSalary.Some? {
        status := if paidAmount >= baseSalary then Paid else if paidAmount > 0.0 then Pending else Unpaid;
      }
    }

    /**
     * `pay`: add an accepted amount, with no cap, and recompute the status.
     * A rejected amount changes nothing and nothing is saved.
     */
    method Pay(amount: AmountField) returns (accepted: bool)
      modifies this
      ensures accepted == AmountAccepted(amount)
      ensures !accepted ==> unchanged(this)
      ensures accepted ==> paidAmount == old(paidAmount) + amount.x && paidAmount > old(paidAmount)
      ensures accepted ==> StatusCurrent()
      ensures baseSalary == old(baseSalary) && userId == old(userId) && salaryMonth == old(salaryMonth)
    {
      if !AmountAccepted(amount) {
        return false;
      }
      paidAmount := paidAmount + amount.x;
      status := if paidAmount >= baseSalary then Paid else if paidAmount > 0.0 then Pending else Unpaid;
      accepted := true;
    }
  }

  /**
   * `store`: default the paid amount to 0 and the month to the current one,
   * and derive the status only when the request gave none.
   */
  method Store(req: StoreRequest, currentMonth: string) returns (s: Salary)
    ensures fresh(s)
    ensures s.userId == req.userId && s.baseSalary == req.baseSalary
    ensures s.paidAmount == req.paidAmount.GetOr(0.0)
    ensures s.salaryMonth == req.salaryMonth.GetOr(currentMonth)
    ensures req.status.Some? ==> s.status == req.status.value
    ensures req.status.None? ==> s.StatusCurrent()
  {
    var paidAmount := req.paidAmount.GetOr(0.0);
    var salaryMonth := req.salaryMonth.GetOr(currentMonth);
    var status := if req.status.Some? then req.status.value
                  else if paidAmount >= req.baseSalary then Paid
                  else if paidAmount > 0.0 then Pending else Unpaid;
    s := new Salary.Create(req.userId, req.baseSalary, paidAmount, salaryMonth, status);
  }

  /** Paying the rest of the salary, or more, yields `paid`; stopping short yields `pending`. */
  method PaymentScenarios()
  {
    var s := Store(StoreRequest(7, 1000.0, None, None, None), "2024-01");
    assert s.salaryMonth == "2024-01";
    assert s.paidAmount == 0.0 && s.status == Unpaid;
    var ok := s.Pay(Number(400.0));
    assert ok && s.paidAmount == 400.0 && s.status == Pending;
    ok := s.Pay(Number(599.99));
    assert s.status == Pending;
    ok := s.Pay(Number(0.01));
    assert s.paidAmount == 1000.0 && s.status == Paid;
    ok := s.Pay(Number(250.0));
    assert s.paidAmount == 1250.0 && s.status == Paid;
    ok := s.Pay(Number(0.0));
    assert !ok && s.paidAmount == 1250.0;
  }
}
