/**
 * Payment records: how POST /api/payments derives the fee fields of a new
 * record, and how the status endpoints change an existing one.
 */
module Ledger {
  import opened Common
  import opened Records

  /**
   * The body of POST /api/payments with its numbers read. `waterFee` and
   * `totalAmount` are `None` when the field is missing or empty.
   */
  datatype PaymentForm = PaymentForm(
    paymentDate: Option<int>,
    rentAmount: real,
    waterFee: Option<real>,
    electricityRate: real,
    previousMeter: int,
    currentMeter: int,
    totalAmount: Option<real>,
    accountLastFive: string)

  /** `water_fee || 0`. */
  function WaterFeeOf(form: PaymentForm): real {
    match form.waterFee
    case None => 0.0
    case Some(w) => w
  }

  /** `total_amount || calculated_total`: a supplied total of 0 is falsy and is replaced too. */
  predicate UsesCalculatedTotal(form: PaymentForm) {
    form.totalAmount.None? || form.totalAmount.value == 0.0
  }

  /** The derived electricity fields agree with the meter readings and the rate. */
  predicate FeesConsistent(p: Payment) {
    p.electricityUsage == p.currentMeter - p.previousMeter
    && p.electricityFee == p.electricityUsage as real * p.electricityRate
  }

  /** The record POST /api/payments appends for `caller`, numbered `id`, at time `now`. */
  function NewPayment(form: PaymentForm, caller: Identity, id: int, now: int): Payment {
    var usage := form.currentMeter - form.previousMeter;
    var fee := usage as real * form.electricityRate;
    var calculated := form.rentAmount + WaterFeeOf(form) + fee;
    var total := if UsesCalculatedTotal(form) then calculated else form.totalAmount.value;
    Payment(id, caller.id, DisplayName(caller), form.paymentDate, form.rentAmount,
            WaterFeeOf(form), form.electricityRate, usage, fee, form.previousMeter,
            form.currentMeter, total, form.accountLastFive, "pending", now, now)
  }

  /**
   * A new payment is pending, belongs to the caller, has consistent fee
   * fields, and its total is rent + water + electricity unless a non-zero
   * total was supplied.
   */
  lemma NewPaymentFields(form: PaymentForm, caller: Identity, id: int, now: int)
    ensures var p := NewPayment(form, caller, id, now);
      && FeesConsistent(p)
      && p.id == id && p.tenantId == caller.id && p.tenantName == DisplayName(caller)
      && p.status == "pending" && p.createdAt == now && p.updatedAt == now
      && p.previousMeter == form.previousMeter && p.currentMeter == form.currentMeter
      && p.rentAmount == form.rentAmount && p.waterFee == WaterFeeOf(form)
      && (UsesCalculatedTotal(form) ==> p.totalAmount == p.rentAmount + p.waterFee + p.electricityFee)
      && (!UsesCalculatedTotal(form) ==> p.totalAmount == form.totalAmount.value)
  {
  }

  /** Rent 15000, water 200, rate 5, meters 100 to 150: 50 units, fee 250, total 15450. */
  lemma WorkedExample(caller: Identity, id: int, now: int)
    ensures var p := NewPayment(PaymentForm(None, 15000.0, Some(200.0), 5.0, 100, 150, None, "12345"), caller, id, now);
      p.electricityUsage == 50 && p.electricityFee == 250.0 && p.totalAmount == 15450.0
  {
  }

  /** The status values the validated endpoint accepts. */
  predicate IsKnownStatus(status: string) {
    status == "pending" || status == "confirmed"
  }

  /** `payment.status = status; payment.updated_at = now`. */
  function WithStatus(p: Payment, status: string, now: int): Payment {
    p.(status := status, updatedAt := now)
  }

  /** A status change leaves the fee fields as they were. */
  lemma StatusChangeKeepsFees(p: Payment, status: string, now: int)
    requires FeesConsistent(p)
    ensures FeesConsistent(WithStatus(p, status, now))
    ensures WithStatus(p, status, now).totalAmount == p.totalAmount
  {
  }

  /** Setting the same status twice keeps only the second call's timestamp. */
  lemma SetStatusTwice(p: Payment, status: string, first: int, second: int)
    ensures WithStatus(WithStatus(p, status, first), status, second) == WithStatus(p, status, second)
  {
  }
}
