/** The request board (src/pages/requests/RequestList.jsx): who counts as the
    recipient of a request, which action panel each viewer sees, and the
    status updates that approval and rejection send. */
module RequestApproval {
  import opened Wrappers

  /** The `organization` field of a request: populated object, bare id, or missing. */
  datatype OrgRef = OrgAbsent | OrgIdString(s: string) | OrgObject(id: Option<string>)

  datatype User = User(id: Option<string>, role: string)

  /** `user?._id`: missing while no user is loaded. */
  function UserId(user: Option<User>): Option<string> {
    if user.Some? then user.value.id else None
  }

  /** `req.organization?._id`: a bare id string has no `_id` property. */
  function OrgField(org: OrgRef): Option<string> {
    match org
    case OrgAbsent => None
    case OrgIdString(_) => None
    case OrgObject(id) => id
  }

  /** `user?._id === req.organization`: an object never equals a string. */
  function SameAsOrg(uid: Option<string>, org: OrgRef): bool {
    match org
    case OrgAbsent => uid.None?
    case OrgIdString(s) => uid == Some(s)
    case OrgObject(_) => false
  }

  /** `amIRecipient`. For a loaded user with an id it holds exactly when the
      organization is that id or an object carrying it. */
  function AmIRecipient(user: Option<User>, org: OrgRef): (b: bool)
    ensures UserId(user).Some? ==>
      (b <==> org == OrgIdString(UserId(user).value) || org == OrgObject(UserId(user)))
  {
    UserId(user) == OrgField(org) || SameAsOrg(UserId(user), org)
  }

  function IsAdmin(user: Option<User>): bool {
    user.Some? && user.value.role == "admin"
  }

  /** The "Request Blood" button is hidden for admins only. */
  function ShowsRequestButton(user: Option<User>): (b: bool)
    ensures b <==> !IsAdmin(user)
  {
    !(user.Some? && user.value.role == "admin")
  }

  /** The status query a filter tab sends: "All" asks for every status. */
  function StatusQuery(filter: string): (q: string)
    ensures filter == "All" ==> q == ""
    ensures filter != "All" ==> q == filter
  {
    if filter == "All" then "" else filter
  }

  /** The action area of a request card. */
  datatype ActionPanel = DecisionButtons | AwaitingResponse | Monitoring | StatusBadge

  /** The four independent conditionals of the card, collected. */
  function ActionPanels(status: string, isIncoming: bool, isAdmin: bool): (r: set<ActionPanel>)
    ensures |r| == 1
    ensures DecisionButtons in r <==> status == "pending" && isIncoming && !isAdmin
    ensures AwaitingResponse in r <==> status == "pending" && !isIncoming && !isAdmin
    ensures Monitoring in r <==> status == "pending" && isAdmin
    ensures StatusBadge in r <==> status != "pending"
    ensures status != "pending" ==> r == {StatusBadge}
  {
    (if status == "pending" && isIncoming && !isAdmin then {DecisionButtons} else {})
    + (if status == "pending" && !isIncoming && !isAdmin then {AwaitingResponse} else {})
    + (if status == "pending" && isAdmin then {Monitoring} else {})
    + (if status != "pending" then {StatusBadge} else {})
  }

  /** The delivery box appears only on an approved request with delivery details. */
  function ShowsDeliveryInfo(status: string, hasDeliveryDetails: bool): (b: bool)
    ensures b ==> status == "approved" && hasDeliveryDetails
    ensures status == "approved" && hasDeliveryDetails ==> b
  {
    status == "approved" && hasDeliveryDetails
  }

  /** What the dispatcher enters in the delivery form. */
  datatype DeliveryData = DeliveryData(
    driverName: string,
    contactNumber: string,
    vehicleNumber: string,
    estimatedArrival: string,
    notes: string)

  /** `PUT /requests/{id}/status` with body `{status, deliveryDetails}`. */
  datatype StatusCall = StatusCall(requestId: string, status: string, deliveryDetails: Option<DeliveryData>)

  /** `updateRequestStatus(id, status, deliveryData = null)`. */
  function UpdateRequestStatus(id: string, status: string, deliveryData: Option<DeliveryData>): StatusCall {
    StatusCall(id, status, deliveryData)
  }

  /** `handleStatusUpdate`: nothing is sent unless the user confirms. The
      Reject button sends "rejected" without delivery data. */
  function HandleStatusUpdate(id: string, newStatus: string, confirmed: bool): (call: Option<StatusCall>)
    ensures call.Some? <==> confirmed
    ensures call.Some? ==> call.value.requestId == id && call.value.status == newStatus
    ensures call.Some? ==> call.value.deliveryDetails.None?
  {
    if confirmed then Some(UpdateRequestStatus(id, newStatus, None)) else None
  }

  /** The fields of a request card this page reads. */
  datatype Request = Request(id: string, status: string, organization: OrgRef, hasDeliveryDetails: bool)

  /** The page's state: the filter tab and the request awaiting delivery details. */
  class RequestListPage {
    var filter: string
    var selectedRequest: Option<Request>

    constructor ()
      ensures filter == "pending" && selectedRequest == None
    {
      filter := "pending";
      selectedRequest := None;
    }

    method SetFilter(f: string)
      modifies this`filter
      ensures filter == f
    {
      filter := f;
    }

    /** "Approve" opens the delivery form for that request. */
    method InitiateApproval(req: Request)
      modifies this`selectedRequest
      ensures selectedRequest == Some(req)
    {
      selectedRequest := Some(req);
    }

    /** `finalizeApproval`: sends "approved" with the delivery data for the
        selected request; the form closes only when the update succeeds.
        Without a selection, reading its id fails and nothing is sent. */
    method FinalizeApproval(data: DeliveryData, succeeded: bool) returns (call: Option<StatusCall>)
      modifies this`selectedRequest
      ensures old(selectedRequest).None? ==> call == None && selectedRequest == None
      ensures old(selectedRequest).Some? ==>
        call == Some(StatusCall(old(selectedRequest).value.id, "approved", Some(data)))
      ensures old(selectedRequest).Some? ==>
        selectedRequest == if succeeded then None else old(selectedRequest)
    {
      if selectedRequest.None? {
        return None;
      }
      call := Some(UpdateRequestStatus(selectedRequest.value.id, "approved", Some(data)));
      if succeeded {
        selectedRequest := None;
      }
    }

    method CloseDeliveryForm()
      modifies this`selectedRequest
      ensures selectedRequest == None
    {
      selectedRequest := None;
    }
  }
}
