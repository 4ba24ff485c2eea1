/** The "Request Blood" form (src/components/common/RequestModal.jsx): the
    recipient list without the user's own hospital, the form fields, the
    estimated price kept in step with the priced fields, and the request
    that is sent. */
module RequestForm {
  import opened Wrappers
  import Seqs
  import Pricing

  /** A hospital of `getHospitalsList`: its `_id` and the `name` the option shows. */
  datatype Hospital = Hospital(id: string, name: string)

  /** The logged-in user as `getCurrentUser` returns it. */
  datatype User = User(id: string, name: string, hospitalName: string)

  /** `list.filter(h => h._id !== currentUser._id)`: every hospital except the
      user's own, in the order received, each as often as it was received. */
  function OtherHospitals(list: seq<Hospital>, userId: string): (r: seq<Hospital>)
    ensures forall h :: h in r <==> h in list && h.id != userId
    ensures forall h :: multiset(r)[h] == if h.id != userId then multiset(list)[h] else 0
    ensures Seqs.IsSubsequence(r, list)
    decreases |list|
  {
    if list == [] then []
    else
      var rest := OtherHospitals(list[1..], userId);
      assert list == [list[0]] + list[1..];
      if list[0].id != userId then [list[0]] + rest
      else
        Seqs.SubsequenceOfTail(rest, list);
        rest
  }

  /** The `formData` state. */
  datatype Form = Form(recipientId: string, patientName: string, bloodGroup: string,
                       requestType: string, quantity: int, priority: string)

  const InitialForm := Form("", "", "A+", "Whole Blood", 1, "Normal")

  /** The text inputs and selects of the form. */
  datatype TextField = RecipientId | PatientName | BloodGroup | RequestType | Priority

  /** A change event: a named text field, or the quantity box. */
  datatype Edit = SetText(field: TextField, value: string) | SetQuantity(n: int)

  /** `formData[name]` for a text field. */
  function TextOf(f: Form, field: TextField): string {
    match field
    case RecipientId => f.recipientId
    case PatientName => f.patientName
    case BloodGroup => f.bloodGroup
    case RequestType => f.requestType
    case Priority => f.priority
  }

  /** `{...formData, [name]: value}`: the named field takes the value and
      every other field keeps its own. */
  function HandleChange(f: Form, e: Edit): (g: Form)
    ensures e.SetQuantity? ==> g.quantity == e.n && forall k :: TextOf(g, k) == TextOf(f, k)
    ensures e.SetText? ==> TextOf(g, e.field) == e.value && g.quantity == f.quantity
    ensures e.SetText? ==> forall k :: k != e.field ==> TextOf(g, k) == TextOf(f, k)
  {
    match e
    case SetQuantity(n) => f.(quantity := n)
    case SetText(field, v) =>
      match field
      case RecipientId => f.(recipientId := v)
      case PatientName => f.(patientName := v)
      case BloodGroup => f.(bloodGroup := v)
      case RequestType => f.(requestType := v)
      case Priority => f.(priority := v)
  }

  /** The estimate for a form. */
  function Estimate(f: Form): int {
    Pricing.CalculateEstimatedPrice(f.bloodGroup, f.quantity, f.requestType)
  }

  /** Whether an edit touches one of the price effect's dependencies. */
  predicate ChangesPrice(e: Edit) {
    e.SetQuantity? || e.field == BloodGroup || e.field == RequestType
  }

  /** Edits to the other fields leave the estimate where it was. */
  lemma OtherEditsKeepEstimate(f: Form, e: Edit)
    requires !ChangesPrice(e)
    ensures Estimate(HandleChange(f, e)) == Estimate(f)
  {
  }

  /** Raising the quantity never lowers the estimate. */
  lemma MoreUnitsNeverCheaper(f: Form, n: int)
    requires 0 <= f.quantity <= n
    ensures Estimate(f) <= Estimate(HandleChange(f, SetQuantity(n)))
  {
    Pricing.PriceMonotoneInQuantity(f.bloodGroup, f.requestType, f.quantity, n);
  }

  /** The body of `createRequest`. */
  datatype CreateCall = CreateCall(form: Form, requesterName: string, price: int)

  /** What submitting does before the server answers. */
  datatype SubmitDecision = NoRecipient | NoUser | Send(call: CreateCall)

  /** `handleSubmit`: a recipient is required; the requester is the user's
      name, or the hospital name when the name is empty; with no user loaded
      the call is never made. */
  function HandleSubmit(f: Form, user: Option<User>, price: int): (d: SubmitDecision)
    ensures d.NoRecipient? <==> f.recipientId == ""
    ensures d.NoUser? <==> f.recipientId != "" && user.None?
    ensures d.Send? ==> d.call.form == f && d.call.price == price
    ensures d.Send? ==>
      d.call.requesterName == (if user.value.name != "" then user.value.name else user.value.hospitalName)
  {
    if f.recipientId == "" then NoRecipient
    else if user.None? then NoUser
    else
      var u := user.value;
      Send(CreateCall(f, if u.name != "" then u.name else u.hospitalName, price))
  }

  /** The browser's constraint validation of the `<form>`: the recipient
      select and the patient name are `required`, and the quantity is
      `required` with `min="1"`. A form that fails it is reported by the
      browser and `onSubmit` never fires. */
  predicate PassesConstraints(f: Form) {
    f.recipientId != "" && f.patientName != "" && f.quantity >= 1
  }

  /** Pressing "Submit": `None` when the browser blocks the form, otherwise
      what `handleSubmit` decides. Because the select is `required`, the
      handler's own recipient check is never the reason a submit fails. */
  function PressSubmit(f: Form, user: Option<User>, price: int): (d: Option<SubmitDecision>)
    ensures d.None? <==> f.recipientId == "" || f.patientName == "" || f.quantity < 1
    ensures d.Some? ==> !d.value.NoRecipient?
    ensures d.Some? ==> (d.value.NoUser? <==> user.None?)
    ensures d.Some? && user.Some? ==> d.value == Send(d.value.call) && d.value.call.form == f
    ensures d.Some? && d.value.Send? ==> d.value.call.form.patientName != "" && d.value.call.form.quantity >= 1
  {
    if PassesConstraints(f) then Some(HandleSubmit(f, user, price)) else None
  }

  /** The label of the submit button. */
  function SendLabel(loading: bool): (s: string)
    ensures loading <==> s == "Sending..."
    ensures !loading <==> s == "Send Request"
  {
    if loading then "Sending..." else "Send Request"
  }

  /** The modal's state. */
  class RequestModal {
    var form: Form
    var loading: bool
    var price: int
    var user: Option<User>
    var hospitals: seq<Hospital>

    /** Opening the modal; the price effect has run once for the initial
        form. */
    constructor ()
      ensures form == InitialForm && price == Estimate(InitialForm)
      ensures user.None? && hospitals == [] && !loading
    {
      form := InitialForm;
      loading := false;
      price := Estimate(InitialForm);
      user := None;
      hospitals := [];
    }

    /** The mount effect: with a user, keep it and the other hospitals;
        without one, change nothing. */
    method Init(currentUser: Option<User>, list: Option<seq<Hospital>>)
      modifies this`user, this`hospitals
      ensures currentUser.None? ==> user == old(user) && hospitals == old(hospitals)
      ensures currentUser.Some? ==> user == currentUser
      ensures currentUser.Some? && list.Some? ==> hospitals == OtherHospitals(list.value, currentUser.value.id)
      ensures currentUser.Some? && list.None? ==> hospitals == old(hospitals)
    {
      if currentUser.None? {
        return;
      }
      user := currentUser;
      if list.Some? {
        hospitals := OtherHospitals(list.value, currentUser.value.id);
      }
    }

    /** A field change, followed by the price effect when a priced field
        changed: a manual price survives only edits to the other fields. */
    method OnChange(e: Edit)
      modifies this`form, this`price
      ensures form == HandleChange(old(form), e)
      ensures ChangesPrice(e) ==> price == Estimate(form)
      ensures !ChangesPrice(e) ==> price == old(price)
    {
      form := HandleChange(form, e);
      if ChangesPrice(e) {
        price := Estimate(form);
      }
    }

    /** Editing the price box by hand. */
    method SetPrice(p: int)
      modifies this`price
      ensures price == p
    {
      price := p;
    }

    /** A press of the submit button, up to the `await` of `createRequest`.
        While a request is pending the button is disabled and nothing
        happens; otherwise the browser's check and `handleSubmit` decide, and
        only a request actually sent leaves the form loading. With no user,
        reading `user.name` throws before the `await`, so the `finally` has
        already cleared `loading` again. */
    method Submit() returns (d: Option<SubmitDecision>)
      modifies this`loading
      ensures d == if old(loading) then None else PressSubmit(form, user, price)
      ensures loading == (old(loading) || (d.Some? && d.value.Send?))
    {
      if loading || !PassesConstraints(form) {
        return None;
      }
      d := Some(HandleSubmit(form, user, price));
      if d.value.Send? {
        loading := true;
      }
    }

    /** The `finally` of `handleSubmit` once the server has answered: the
        button is enabled again. */
    method OnSubmitSettled()
      modifies this`loading
      ensures !loading
    {
      loading := false;
    }
  }

  /** Opening the modal and submitting at once is stopped by the browser: no
      recipient has been chosen and no patient named yet. */
  method OpenAndSubmit() returns (d: Option<SubmitDecision>)
    ensures d == None
  {
    var modal := new RequestModal();
    d := modal.Submit();
  }

  /** A complete request: once a recipient and a patient are filled in, the
      press sends the request with the user's name and the estimate; while it
      is pending the button reads "Sending..." and a second press sends
      nothing; after the answer the button is enabled again. */
  method PendingRequestScenario(u: User, recipient: string, patient: string)
    returns (first: Option<SubmitDecision>, pendingLabel: string, second: Option<SubmitDecision>, enabledAfter: bool)
    requires recipient != "" && patient != ""
    ensures first.Some? && first.value.Send?
    ensures first.value.call.form.recipientId == recipient && first.value.call.form.patientName == patient
    ensures first.value.call.requesterName == (if u.name != "" then u.name else u.hospitalName)
    ensures first.value.call.price == Estimate(InitialForm)
    ensures pendingLabel == "Sending..." && second == None
    ensures enabledAfter
  {
    var modal := new RequestModal();
    modal.Init(Some(u), None);
    modal.OnChange(SetText(RecipientId, recipient));
    modal.OnChange(SetText(PatientName, patient));
    first := modal.Submit();
    pendingLabel := SendLabel(modal.loading);
    second := modal.Submit();
    modal.OnSubmitSettled();
    enabledAfter := !modal.loading;
  }
}
