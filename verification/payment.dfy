/** The receiver's payment form (src/components/common/paymentModal.jsx):
    the transaction-id sanitiser, the submit guard and the submit button rule. */
module Payment {
  import opened Wrappers
  import Text

  datatype PayMethod = Online | COD

  /** A UPI transaction id has exactly this many digits. */
  const TxnLength := 12

  /** What the transaction-id field can hold: digits only, at most twelve. */
  predicate ValidTxn(t: string) {
    Text.AllDigits(t) && |t| <= TxnLength
  }

  /** `handleTxnChange`: strip non-digits; accept the result only if it has at
      most twelve digits, otherwise keep the current value. */
  function TxnChange(current: string, input: string): (r: string)
    ensures |Text.DigitsOnly(input)| <= TxnLength ==> r == Text.DigitsOnly(input)
    ensures |Text.DigitsOnly(input)| > TxnLength ==> r == current
  {
    var value := Text.DigitsOnly(input);
    if |value| <= TxnLength then value else current
  }

  /** Every input change keeps the field valid. */
  lemma TxnChangeKeepsValid(current: string, input: string)
    requires ValidTxn(current)
    ensures ValidTxn(TxnChange(current, input))
  {
  }

  /** Typing a digit-only value of at most twelve digits stores it unchanged. */
  lemma TxnChangeAcceptsDigits(current: string, input: string)
    requires ValidTxn(input)
    ensures TxnChange(current, input) == input
  {
    Text.DigitsOnlyKeepsDigits(input);
  }

  /** The body of the payment call. */
  datatype PaymentCall = PaymentCall(requestId: string, payMethod: PayMethod, transactionId: string)

  datatype SubmitDecision = Blocked | Submit(call: PaymentCall)

  /** `handleSubmit`'s guard: an online payment needs exactly twelve digits;
      cash on delivery goes through whatever the field holds. */
  function DecideSubmit(requestId: string, payMethod: PayMethod, txnId: string): (d: SubmitDecision)
    ensures d.Blocked? <==> payMethod == Online && |txnId| != TxnLength
    ensures d.Submit? ==> d.call == PaymentCall(requestId, payMethod, txnId)
  {
    if payMethod == Online && |txnId| != TxnLength then Blocked
    else Submit(PaymentCall(requestId, payMethod, txnId))
  }

  /** The "Confirm Payment" button is disabled. */
  function SubmitDisabled(loading: bool, payMethod: PayMethod, txnId: string): (b: bool)
    ensures b <==> loading || (payMethod == Online && |txnId| != 12)
    ensures !b ==> DecideSubmit("", payMethod, txnId).Submit?
  {
    loading || (payMethod == Online && |txnId| != TxnLength)
  }

  /** The modal's state. */
  class PaymentModal {
    const requestId: string
    var payMethod: PayMethod
    var txnId: string
    var loading: bool

    predicate Valid()
      reads this
    {
      ValidTxn(txnId)
    }

    /** The method defaults to online payment with an empty field. */
    constructor (requestId: string)
      ensures Valid()
      ensures this.requestId == requestId && payMethod == Online && txnId == "" && !loading
    {
      this.requestId := requestId;
      payMethod := Online;
      txnId := "";
      loading := false;
    }

    method SetMethod(m: PayMethod)
      requires Valid()
      modifies this`payMethod
      ensures Valid() && payMethod == m
    {
      payMethod := m;
    }

    method HandleTxnChange(input: string)
      requires Valid()
      modifies this`txnId
      ensures Valid()
      ensures txnId == TxnChange(old(txnId), input)
    {
      var value := Text.DigitsOnly(input);
      if |value| <= TxnLength {
        txnId := value;
      }
    }

    /** `handleSubmit` up to its `await`: a blocked submission changes
        nothing; otherwise loading starts and the call is made. */
    method HandleSubmit() returns (call: Option<PaymentCall>)
      requires Valid()
      modifies this`loading
      ensures Valid()
      ensures DecideSubmit(requestId, payMethod, txnId).Blocked? ==> call == None && loading == old(loading)
      ensures DecideSubmit(requestId, payMethod, txnId).Submit? ==>
        call == Some(DecideSubmit(requestId, payMethod, txnId).call) && loading
    {
      if payMethod == Online && |txnId| != TxnLength {
        return None;
      }
      loading := true;
      call := Some(PaymentCall(requestId, payMethod, txnId));
    }

    /** The `finally` of `handleSubmit`: loading ends whether the call
        succeeded or failed. */
    method OnSubmitSettled()
      requires Valid()
      modifies this`loading
      ensures Valid() && !loading
    {
      loading := false;
    }
  }

  /** Cash on delivery goes through with an empty field, and while the call
      is pending the button stays disabled. */
  method CashOnDeliveryScenario(requestId: string)
    returns (call: Option<PaymentCall>, disabledWhilePending: bool, disabledAfter: bool)
    ensures call == Some(PaymentCall(requestId, COD, ""))
    ensures disabledWhilePending && !disabledAfter
  {
    var modal := new PaymentModal(requestId);
    modal.SetMethod(COD);
    call := modal.HandleSubmit();
    disabledWhilePending := SubmitDisabled(modal.loading, modal.payMethod, modal.txnId);
    modal.OnSubmitSettled();
    disabledAfter := SubmitDisabled(modal.loading, modal.payMethod, modal.txnId);
  }

  /** An online payment with an empty field is blocked and sends nothing. */
  method EmptyOnlineScenario(requestId: string) returns (call: Option<PaymentCall>, disabled: bool)
    ensures call == None && disabled
  {
    var modal := new PaymentModal(requestId);
    call := modal.HandleSubmit();
    disabled := SubmitDisabled(modal.loading, modal.payMethod, modal.txnId);
  }
}
