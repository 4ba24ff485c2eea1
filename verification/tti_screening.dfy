/** TTI (transfusion-transmitted infection) screening of a collected unit
    (src/components/common/TTIModal.jsx): five markers, each toggled
    independently; one positive marker is enough to discard the unit. */
module TtiScreening {

  /** The five screened infections. */
  datatype Marker = Hiv | Hbv | Hcv | Malaria | Syphilis

  /** The `results` state object, one flag per marker. */
  datatype Results = Results(hiv: bool, hbv: bool, hcv: bool, malaria: bool, syphilis: bool)

  /** `results[field]`. */
  function Get(r: Results, m: Marker): bool {
    match m
    case Hiv => r.hiv
    case Hbv => r.hbv
    case Hcv => r.hcv
    case Malaria => r.malaria
    case Syphilis => r.syphilis
  }

  /** The form opens with every marker negative. */
  const Initial := Results(false, false, false, false, false)

  /** `{...results, [field]: !results[field]}`: one marker flips, the other
      four are kept. */
  function Toggle(r: Results, m: Marker): (t: Results)
    ensures Get(t, m) == !Get(r, m)
    ensures forall n :: n != m ==> Get(t, n) == Get(r, n)
  {
    match m
    case Hiv => r.(hiv := !r.hiv)
    case Hbv => r.(hbv := !r.hbv)
    case Hcv => r.(hcv := !r.hcv)
    case Malaria => r.(malaria := !r.malaria)
    case Syphilis => r.(syphilis := !r.syphilis)
  }

  /** Toggling the same marker twice restores the results. */
  lemma ToggleTwice(r: Results, m: Marker)
    ensures Toggle(Toggle(r, m), m) == r
  {
  }

  /** `Object.values(results).some(val => val === true)`: the unit is unsafe
      exactly when some marker is positive. */
  function IsUnsafe(r: Results): (u: bool)
    ensures u <==> exists m :: Get(r, m)
  {
    if r.hiv then assert Get(r, Hiv); true
    else if r.hbv then assert Get(r, Hbv); true
    else if r.hcv then assert Get(r, Hcv); true
    else if r.malaria then assert Get(r, Malaria); true
    else if r.syphilis then assert Get(r, Syphilis); true
    else false
  }

  /** A freshly opened form marks the unit safe. */
  lemma InitialIsSafe()
    ensures !IsUnsafe(Initial)
  {
  }

  /** Marking one marker positive on any results makes the unit unsafe. */
  lemma PositiveMarkerDiscards(r: Results, m: Marker)
    requires !Get(r, m)
    ensures IsUnsafe(Toggle(r, m))
  {
    assert Get(Toggle(r, m), m);
  }

  /** The "Result: DISCARD" notice is shown exactly when some marker is
      positive, and never on a fresh form. */
  function ShowsDiscardNotice(r: Results): (b: bool)
    ensures b <==> exists m :: Get(r, m)
    ensures r == Initial ==> !b
  {
    IsUnsafe(r)
  }

  /** The submit button's caption. */
  function ButtonLabel(loading: bool, r: Results): (s: string)
    ensures loading ==> s == "Saving..."
    ensures !loading ==> (s == "Confirm Discard" <==> exists m :: Get(r, m))
    ensures !loading ==> (s == "Mark as Safe" <==> forall m :: !Get(r, m))
  {
    if loading then "Saving..." else if IsUnsafe(r) then "Confirm Discard" else "Mark as Safe"
  }

  /** The `updateTestResults` payload: the unit id with the five flags. */
  datatype TestCall = TestCall(unitId: string, results: Results)

  /** The toast after the call. */
  datatype Outcome = DiscardedNotice(unitId: string) | SafeNotice(unitId: string) | FailedNotice

  /** `handleSubmit` after the call settles. */
  function SubmitOutcome(unitId: string, r: Results, succeeded: bool): (o: Outcome)
    ensures !succeeded <==> o == FailedNotice
    ensures succeeded ==> (o == DiscardedNotice(unitId) <==> exists m :: Get(r, m))
    ensures succeeded ==> (o == SafeNotice(unitId) <==> forall m :: !Get(r, m))
  {
    if !succeeded then FailedNotice
    else if IsUnsafe(r) then DiscardedNotice(unitId)
    else SafeNotice(unitId)
  }

  /** The modal's state. */
  class TtiForm {
    const unitId: string
    var loading: bool
    var results: Results

    constructor (unitId: string)
      ensures this.unitId == unitId && !loading && results == Initial
    {
      this.unitId := unitId;
      loading := false;
      results := Initial;
    }

    /** Clicking a marker's switch. */
    method ToggleRow(m: Marker)
      modifies this`results
      ensures results == Toggle(old(results), m)
    {
      results := Toggle(results, m);
    }

    /** `handleSubmit` up to its `await`: loading starts and the flags are
        sent. */
    method HandleSubmit() returns (call: TestCall)
      modifies this`loading
      ensures call == TestCall(unitId, results)
      ensures loading
    {
      loading := true;
      call := TestCall(unitId, results);
    }

    /** The rest of `handleSubmit`: the verdict reported is the one of the
        flags that were sent (the handler's own render), and loading ends
        whatever the answer. */
    method OnSubmitSettled(call: TestCall, succeeded: bool) returns (outcome: Outcome)
      modifies this`loading
      ensures outcome == SubmitOutcome(call.unitId, call.results, succeeded)
      ensures !loading
    {
      outcome := SubmitOutcome(call.unitId, call.results, succeeded);
      loading := false;
    }
  }

  /** A positive HIV marker: the button asks to confirm the discard, reads
      "Saving..." while the call is pending, and the unit is reported
      discarded. */
  method PositiveHivScenario(unitId: string)
    returns (before: string, during: string, outcome: Outcome)
    ensures before == "Confirm Discard" && during == "Saving..."
    ensures outcome == DiscardedNotice(unitId)
  {
    var form := new TtiForm(unitId);
    form.ToggleRow(Hiv);
    before := ButtonLabel(form.loading, form.results);
    var call := form.HandleSubmit();
    during := ButtonLabel(form.loading, form.results);
    outcome := form.OnSubmitSettled(call, true);
  }
}
