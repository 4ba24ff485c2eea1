/** The donation-camp console (src/pages/CampManager.jsx): the collected
    count, the donor pipeline Registered -> Screened -> Donated with the
    actions offered at each status, the blood-group guard on collection,
    and the progress bar. */
module CampPipeline {
  import opened Wrappers

  const Registered := "Registered"
  const ScreenedFit := "Screened - Fit"
  const ScreenedUnfit := "Screened - Unfit"
  const Donated := "Donated"

  /** The fields of a registered donor the console reads. */
  datatype Donor = Donor(id: string, status: string, bloodGroup: Option<string>)

  /** `donors.filter(d => d.status === "Donated").length`. A single donor
      counts one exactly when they have donated; with the additivity of
      `CollectedCountAppend` this fixes the count of every list. */
  function CollectedCount(donors: seq<Donor>): (n: nat)
    ensures n <= |donors|
    ensures n == |donors| <==> forall i :: 0 <= i < |donors| ==> donors[i].status == Donated
    ensures |donors| == 1 ==> (n == 1 <==> donors[0].status == Donated)
    decreases |donors|
  {
    if donors == [] then 0
    else (if donors[0].status == Donated then 1 else 0) + CollectedCount(donors[1..])
  }

  /** The count of two lists joined is the sum of their counts. */
  lemma {:induction false} CollectedCountAppend(a: seq<Donor>, b: seq<Donor>)
    ensures CollectedCount(a + b) == CollectedCount(a) + CollectedCount(b)
    decreases |a|
  {
    if a == [] {
      assert a + b == b;
    } else {
      assert (a + b)[0] == a[0] && (a + b)[1..] == a[1..] + b;
      CollectedCountAppend(a[1..], b);
    }
  }

  /** The buttons of the pipeline table. */
  datatype Action = Pass | Reject | Collect

  /** The status each button asks for. */
  function Target(a: Action): string {
    match a
    case Pass => ScreenedFit
    case Reject => ScreenedUnfit
    case Collect => Donated
  }

  /** The buttons shown for a donor's status. */
  function OfferedActions(status: string): (r: set<Action>)
    ensures Pass in r <==> status == Registered
    ensures Reject in r <==> status == Registered
    ensures Collect in r <==> status == ScreenedFit
    ensures status == Donated ==> r == {}
  {
    if status == Registered then {Pass, Reject}
    else if status == ScreenedFit then {Collect}
    else {}
  }

  /** Position in the pipeline: registered, screened, donated. */
  function Stage(status: string): int {
    if status == Registered then 0
    else if status == ScreenedFit || status == ScreenedUnfit then 1
    else if status == Donated then 2
    else -1
  }

  /** Every offered action moves the donor strictly forward in the pipeline. */
  lemma ActionsMoveForward(status: string, a: Action)
    requires a in OfferedActions(status)
    ensures 0 <= Stage(status) < Stage(Target(a))
  {
  }

  /** `updateDonorStatus(campId, donorId, {status})`. */
  datatype StatusCall = StatusCall(donorId: string, status: string)

  datatype StatusDecision = NeedsBloodGroup | Update(call: StatusCall)

  /** `handleStatus`: collecting from a donor without a blood group is refused
      before any call is made. */
  function HandleStatus(donorId: string, status: string, currentGroup: Option<string>): (d: StatusDecision)
    ensures d.NeedsBloodGroup? <==> status == Donated && currentGroup.GetOr("") == ""
    ensures d.Update? ==> d.call == StatusCall(donorId, status)
  {
    if status == Donated && currentGroup.GetOr("") == "" then NeedsBloodGroup
    else Update(StatusCall(donorId, status))
  }

  /** A button press: Pass and Reject pass no group, Collect the donor's. */
  function Press(d: Donor, a: Action): StatusDecision {
    HandleStatus(d.id, Target(a), if a == Collect then d.bloodGroup else None)
  }

  /** Screening never needs a blood group; collection needs one. */
  lemma PressOutcome(d: Donor, a: Action)
    ensures Press(d, a).NeedsBloodGroup? <==> a == Collect && d.bloodGroup.GetOr("") == ""
    ensures Press(d, a).Update? ==> Press(d, a).call == StatusCall(d.id, Target(a))
  {
  }

  /** The width of the progress bar: a percentage, or not a number when both
      the count and the target are zero. */
  datatype Width = Percent(p: real) | NotANumber

  /** `Math.min(collected / target * 100, 100)`; a zero target gives an
      infinite ratio, which the minimum caps at 100. */
  function ProgressWidth(collected: nat, target: int): (w: Width)
    ensures w.NotANumber? <==> collected == 0 && target == 0
    ensures w.Percent? ==> w.p <= 100.0
    ensures target > 0 && collected <= target ==> w == Percent(collected as real * 100.0 / target as real)
  {
    if target == 0 then (if collected == 0 then NotANumber else Percent(100.0))
    else
      var ratio := collected as real / target as real * 100.0;
      assert ratio == collected as real * 100.0 / target as real;
      assert target > 0 && collected <= target ==> ratio <= 100.0 by {
        if target > 0 && collected <= target {
          assert collected as real / target as real <= 1.0;
        }
      }
      Percent(if ratio < 100.0 then ratio else 100.0)
  }

  /** A camp as the list returns it. */
  datatype Camp = Camp(id: string, targetUnits: int, donors: seq<Donor>)

  /** The console's donor list. */
  class LiveCampConsole {
    const campId: string
    var donors: seq<Donor>

    constructor (camp: Camp)
      ensures campId == camp.id && donors == camp.donors
    {
      campId := camp.id;
      donors := camp.donors;
    }

    /** The header's collected count. */
    function Collected(): nat
      reads this
    {
      CollectedCount(donors)
    }

    /** `refreshData`: take the donors of the first camp with this id, if any. */
    method RefreshData(camps: seq<Camp>)
      modifies this`donors
      ensures (exists i :: 0 <= i < |camps| && camps[i].id == campId) ==>
        exists i :: 0 <= i < |camps| && camps[i].id == campId && donors == camps[i].donors &&
          forall j :: 0 <= j < i ==> camps[j].id != campId
      ensures (forall i :: 0 <= i < |camps| ==> camps[i].id != campId) ==> donors == old(donors)
    {
      var i := 0;
      while i < |camps|
        invariant 0 <= i <= |camps|
        invariant forall j :: 0 <= j < i ==> camps[j].id != campId
        invariant donors == old(donors)
      {
        if camps[i].id == campId {
          donors := camps[i].donors;
          return;
        }
        i := i + 1;
      }
    }
  }
}
