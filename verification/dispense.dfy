/** Issuing blood to an admitted patient (the DispenseModal of
    src/pages/PatientManager.jsx): the billing formula, the two-step form
    (details, then QR payment) and its transaction-id input rule. */
module Dispense {
  import opened Wrappers
  import Text

  datatype UsageType = Sold | Donated

  /** The charge for one unit: 1200, plus 500 for a group containing "-",
      plus 800 for platelets. */
  function UnitCharge(bloodGroup: string, component: string): (c: int)
    ensures !Text.Contains(bloodGroup, "-") && component != "Platelets" ==> c == 1200
    ensures Text.Contains(bloodGroup, "-") && component != "Platelets" ==> c == 1700
    ensures !Text.Contains(bloodGroup, "-") && component == "Platelets" ==> c == 2000
    ensures Text.Contains(bloodGroup, "-") && component == "Platelets" ==> c == 2500
  {
    1200 + (if Text.Contains(bloodGroup, "-") then 500 else 0)
         + (if component == "Platelets" then 800 else 0)
  }

  /** The price effect. */
  function DispensePrice(usage: UsageType, bloodGroup: string, component: string, quantity: int): (p: int)
    ensures usage == Donated ==> p == 0
    ensures usage == Sold ==> p == UnitCharge(bloodGroup, component) * quantity
  {
    if usage == Sold then UnitCharge(bloodGroup, component) * quantity else 0
  }

  /** A group containing "-" is never billed less than one without it. */
  lemma NegativeNeverCheaper(neg: string, pos: string, component: string, quantity: nat)
    requires Text.Contains(neg, "-") && !Text.Contains(pos, "-")
    ensures DispensePrice(Sold, neg, component, quantity) == DispensePrice(Sold, pos, component, quantity) + 500 * quantity
  {
  }

  /** The transaction-id field accepts a value only if it matches `^\d{0,12}$`. */
  function TxnInput(current: string, value: string): (r: string)
    ensures Text.AllDigits(value) && |value| <= 12 ==> r == value
    ensures !(Text.AllDigits(value) && |value| <= 12) ==> r == current
  {
    if Text.AllDigits(value) && |value| <= 12 then value else current
  }

  /** The outcome of "Proceed": submit at once (donation), the UPI-id error,
      or the payment step. */
  datatype ProceedOutcome = SubmitNow | UpiMissing | ToPayment

  function Proceed(usage: UsageType, upiId: string): (o: ProceedOutcome)
    ensures o.SubmitNow? <==> usage.Donated?
    ensures o.UpiMissing? <==> usage.Sold? && |upiId| == 0
    ensures o.ToPayment? <==> usage.Sold? && |upiId| > 0
  {
    if usage == Donated then SubmitNow
    else if upiId == "" then UpiMissing
    else ToPayment
  }

  /** The label of the final button. */
  function VerifyLabel(loading: bool): (s: string)
    ensures loading <==> s == "Verifying..."
    ensures !loading <==> s == "Verify & Issue Blood"
  {
    if loading then "Verifying..." else "Verify & Issue Blood"
  }

  /** The body of `dispenseBlood(patient._id, form)`. */
  datatype DispenseCall = DispenseCall(
    patientId: string, bloodGroup: string, component: string, quantity: int,
    usageType: UsageType, price: int, upiId: string, txnId: string)

  /** "Verify & Issue" is disabled while loading or for fewer than ten digits. */
  function VerifyDisabled(loading: bool, txnId: string): (b: bool)
    ensures b <==> loading || |txnId| < 10
  {
    loading || |txnId| < 10
  }

  /** The modal's state: `step` and the `form` record. */
  class DispenseModal {
    const patientId: string
    var step: int
    var bloodGroup: string
    var component: string
    var quantity: int
    var usageType: UsageType
    var price: int
    var upiId: string
    var txnId: string
    var loading: bool

    /** The form's invariant: a known step, a well-formed transaction id, and
        a price that agrees with the billing formula. */
    predicate Valid()
      reads this
    {
      && step in {1, 2}
      && Text.AllDigits(txnId) && |txnId| <= 12
      && price == DispensePrice(usageType, bloodGroup, component, quantity)
    }

    /** The modal as first shown, after the price effect has run once. */
    constructor (patientId: string, patientGroup: string)
      ensures Valid() && this.patientId == patientId
      ensures step == 1 && bloodGroup == patientGroup && component == "Whole Blood"
      ensures quantity == 1 && usageType == Sold && upiId == "" && txnId == "" && !loading
    {
      this.patientId := patientId;
      step := 1;
      bloodGroup := patientGroup;
      component := "Whole Blood";
      quantity := 1;
      usageType := Sold;
      upiId := "";
      txnId := "";
      loading := false;
      price := DispensePrice(Sold, patientGroup, "Whole Blood", 1);
    }

    /** A change to one of the billing inputs, followed by the price effect. */
    method SetBilling(usage: UsageType, group: string, comp: string, qty: int)
      requires Valid()
      modifies this`usageType, this`bloodGroup, this`component, this`quantity, this`price
      ensures Valid()
      ensures usageType == usage && bloodGroup == group && component == comp && quantity == qty
      ensures price == DispensePrice(usage, group, comp, qty)
    {
      usageType, bloodGroup, component, quantity := usage, group, comp, qty;
      price := DispensePrice(usage, group, comp, qty);
    }

    method SetUpiId(value: string)
      requires Valid()
      modifies this`upiId
      ensures Valid() && upiId == value
    {
      upiId := value;
    }

    method HandleTxnInput(value: string)
      requires Valid()
      modifies this`txnId
      ensures Valid()
      ensures txnId == TxnInput(old(txnId), value)
    {
      if Text.AllDigits(value) && |value| <= 12 {
        txnId := value;
      }
    }

    /** `handleProceed`: a donation runs `finalSubmit` at once, so loading
        starts and the form is sent; a sale without a UPI id changes nothing;
        a sale with one moves to the payment step. */
    method HandleProceed() returns (o: ProceedOutcome, call: Option<DispenseCall>)
      requires Valid()
      modifies this`step, this`loading
      ensures Valid()
      ensures o == Proceed(usageType, upiId)
      ensures step == if o == ToPayment then 2 else old(step)
      ensures o == SubmitNow ==> loading && call == Some(DispenseCall(patientId, bloodGroup, component, quantity, usageType, price, upiId, txnId))
      ensures o != SubmitNow ==> loading == old(loading) && call == None
    {
      o := Proceed(usageType, upiId);
      call := None;
      if o == ToPayment {
        step := 2;
      } else if o == SubmitNow {
        var c := FinalSubmit();
        call := Some(c);
      }
    }

    /** `finalSubmit` up to its `await`: loading starts and the form is sent
        as it stands. Reached from "Confirm Donation" and from "Verify &
        Issue". */
    method FinalSubmit() returns (call: DispenseCall)
      requires Valid()
      modifies this`loading
      ensures Valid() && loading
      ensures call == DispenseCall(patientId, bloodGroup, component, quantity, usageType, price, upiId, txnId)
    {
      loading := true;
      call := DispenseCall(patientId, bloodGroup, component, quantity, usageType, price, upiId, txnId);
    }

    /** The `catch` of `finalSubmit`: loading ends and the form stays open.
        On success the modal closes instead. */
    method OnDispenseFailed()
      requires Valid()
      modifies this`loading
      ensures Valid() && !loading
    {
      loading := false;
    }

    /** "Back" returns to the details step. */
    method Back()
      requires Valid()
      modifies this`step
      ensures Valid() && step == 1
    {
      step := 1;
    }
  }

  /** A sale through the payment step: with a UPI id the form moves to the
      QR step; a ten-digit transaction id enables "Verify & Issue"; while the
      call is pending the button reads "Verifying..." and is disabled; a
      failed call enables it again. */
  method SaleScenario(patientId: string, group: string, upi: string, txn: string)
    returns (outcome: ProceedOutcome, call: DispenseCall, pendingLabel: string,
             disabledWhilePending: bool, disabledAfterFailure: bool)
    requires upi != "" && Text.AllDigits(txn) && |txn| == 10
    ensures outcome == ToPayment
    ensures call.usageType == Sold && call.txnId == txn && call.upiId == upi
    ensures call.price == UnitCharge(group, "Whole Blood")
    ensures pendingLabel == "Verifying..." && disabledWhilePending
    ensures !disabledAfterFailure
  {
    var modal := new DispenseModal(patientId, group);
    modal.SetUpiId(upi);
    var noCall;
    outcome, noCall := modal.HandleProceed();
    modal.HandleTxnInput(txn);
    call := modal.FinalSubmit();
    pendingLabel := VerifyLabel(modal.loading);
    disabledWhilePending := VerifyDisabled(modal.loading, modal.txnId);
    modal.OnDispenseFailed();
    disabledAfterFailure := VerifyDisabled(modal.loading, modal.txnId);
  }

  /** A donation: "Confirm Donation" sends the free unit at once, without the
      payment step, and the form is loading while the call is pending. */
  method DonationScenario(patientId: string, group: string)
    returns (outcome: ProceedOutcome, call: Option<DispenseCall>, step: int, pending: bool)
    ensures outcome == SubmitNow && step == 1 && pending
    ensures call == Some(DispenseCall(patientId, group, "Whole Blood", 1, Donated, 0, "", ""))
  {
    var modal := new DispenseModal(patientId, group);
    modal.SetBilling(Donated, group, "Whole Blood", 1);
    outcome, call := modal.HandleProceed();
    step, pending := modal.step, modal.loading;
  }
}
