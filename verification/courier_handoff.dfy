/** The courier's tracking page (src/pages/deliveryPhone/DriverTrack.jsx):
    the OTP entry and verify handler that completes the handoff, and the
    geolocation callback that relays positions until the delivery is done.
    The callback reads `isDelivered` from the closure of the effect run that
    installed the watch, so the state also records that captured value; the
    effect re-runs, and the watch is replaced, only after React commits the
    render that follows `setIsDelivered(true)`. The server's answer to
    verify-otp is an input. */
module CourierHandoff {
  import opened Wrappers
  import Text

  /** The code length the page accepts. */
  const OtpLength := 4

  /** The page's state relevant to the handoff: `otp`, `loading`,
      `isDelivered`, and `watchDelivered`, the value of `isDelivered` that the
      installed geolocation watch closed over. */
  datatype Session = Session(otp: string, loading: bool, isDelivered: bool, watchDelivered: bool)

  /** The first render, after the effect has installed the first watch. */
  const InitialSession := Session("", false, false, false)

  /** The server's answer to `POST /requests/{id}/verify-otp`. */
  datatype VerifyOutcome = Accepted | Rejected

  /** `handleVerify` sends a request only for a code of exactly four characters. */
  predicate SendsVerify(s: Session) {
    |s.otp| == OtpLength
  }

  /** The first half of `handleVerify`, up to the `await`: a four-character
      code puts the page into the loading state; any other code changes
      nothing. */
  function StartVerify(s: Session): (r: Session)
    ensures !SendsVerify(s) ==> r == s
    ensures SendsVerify(s) ==> r.loading && r.otp == s.otp && r.isDelivered == s.isDelivered
  {
    if SendsVerify(s) then s.(loading := true) else s
  }

  /** The second half of `handleVerify`, once the server has answered a
      pending request: an accepted code delivers, a rejected one clears
      whatever the field holds by then, and loading ends either way. With no
      request pending there is no answer to apply. */
  function FinishVerify(s: Session, outcome: VerifyOutcome): (r: Session)
    ensures !s.loading ==> r == s
    ensures s.loading ==> !r.loading
    ensures s.loading && outcome == Accepted ==> r.isDelivered && r.otp == s.otp
    ensures s.loading && outcome == Rejected ==> r.otp == "" && r.isDelivered == s.isDelivered
    ensures s.isDelivered ==> r.isDelivered
    ensures r.watchDelivered == s.watchDelivered
  {
    if !s.loading then s
    else if outcome == Accepted then s.(loading := false, isDelivered := true)
    else s.(otp := "", loading := false)
  }

  /** A whole verify with no typing in between: four characters and an
      accepted code deliver, a rejected code clears the field, any other
      length changes nothing. */
  lemma VerifyRoundTrip(s: Session, outcome: VerifyOutcome)
    requires !s.loading
    ensures !SendsVerify(s) ==> FinishVerify(StartVerify(s), outcome) == s
    ensures SendsVerify(s) && outcome == Accepted ==> FinishVerify(StartVerify(s), outcome) == s.(isDelivered := true)
    ensures SendsVerify(s) && outcome == Rejected ==> FinishVerify(StartVerify(s), outcome) == s.(otp := "")
  {
  }

  /** "Confirm Delivery" is enabled: not loading and four characters typed.
      Only the length is checked, not that the characters are digits. */
  function ConfirmEnabled(s: Session): (b: bool)
    ensures b <==> !s.loading && |s.otp| == 4
    ensures b ==> StartVerify(s).loading
  {
    !s.loading && SendsVerify(s)
  }

  /** The order id as displayed: its last six characters, upper-cased. */
  function ShortId(id: string): (r: string)
    ensures |id| >= 6 ==> |r| == 6
    ensures |id| < 6 ==> |r| == |id|
    ensures r == Text.ToUpper(id[|id| - |r|..])
  {
    Text.ToUpper(Text.Suffix(id, 6))
  }

  /** What happens on the page: typing into the OTP field, a press of
      "Confirm Delivery", the server's answer to a pending verify, a
      position fix from the device, or React committing a render and
      re-running the effect, whose cleanup clears the old watch and whose
      body installs a new one over the current `isDelivered`. */
  datatype Event =
    | Typed(value: string)
    | Pressed
    | Answered(outcome: VerifyOutcome)
    | PositionFix(lat: real, lng: real)
    | EffectRerun

  /** A press on the disabled button does nothing. */
  function Step(s: Session, e: Event): Session {
    match e
    case Typed(v) => s.(otp := v)
    case Pressed => if ConfirmEnabled(s) then StartVerify(s) else s
    case Answered(o) => FinishVerify(s, o)
    case PositionFix(_, _) => s
    case EffectRerun => s.(watchDelivered := s.isDelivered)
  }

  /** A position fix is relayed to the channel unless the watch that
      receives it closed over a delivered page. */
  predicate EmitsLocation(s: Session, e: Event) {
    e.PositionFix? && !s.watchDelivered
  }

  /** The state after a sequence of events. */
  function Run(s: Session, events: seq<Event>): Session
    decreases |events|
  {
    if events == [] then s else Run(Step(s, events[0]), events[1..])
  }

  /** Nothing on the page ever sets `isDelivered` back to false. */
  lemma {:induction false} DeliveredIsFinal(s: Session, events: seq<Event>)
    requires s.isDelivered
    ensures Run(s, events).isDelivered
    decreases |events|
  {
    if events != [] {
      DeliveredIsFinal(Step(s, events[0]), events[1..]);
    }
  }

  lemma {:induction false} RunAppend(s: Session, a: seq<Event>, b: seq<Event>)
    ensures Run(s, a + b) == Run(Run(s, a), b)
    decreases |a|
  {
    if a != [] {
      assert (a + b)[0] == a[0] && (a + b)[1..] == a[1..] + b;
      RunAppend(Step(s, a[0]), a[1..], b);
    } else {
      assert a + b == b;
    }
  }

  /** Once the watch has been replaced on a delivered page, every later
      watch also closes over a delivered page. */
  lemma {:induction false} StoppedWatchIsFinal(s: Session, events: seq<Event>)
    requires s.isDelivered && s.watchDelivered
    ensures Run(s, events).isDelivered && Run(s, events).watchDelivered
    decreases |events|
  {
    if events != [] {
      StoppedWatchIsFinal(Step(s, events[0]), events[1..]);
    }
  }

  /** Once a verify has been accepted and the effect has re-run, no later
      position fix is relayed. */
  lemma NoLocationAfterDelivery(s: Session, events: seq<Event>, k: nat, j: nat)
    requires k < j < |events|
    requires Run(s, events[..k]).isDelivered && events[k] == EffectRerun
    ensures !EmitsLocation(Run(s, events[..j]), events[j])
  {
    assert events[..j] == events[..k] + [EffectRerun] + events[k + 1..j];
    RunAppend(s, events[..k], [EffectRerun]);
    RunAppend(s, events[..k] + [EffectRerun], events[k + 1..j]);
    var sealed := Run(s, events[..k] + [EffectRerun]);
    assert sealed == Step(Run(s, events[..k]), EffectRerun) by {
      assert Run(Run(s, events[..k]), [EffectRerun]) == Run(Step(Run(s, events[..k]), EffectRerun), []);
    }
    StoppedWatchIsFinal(sealed, events[k + 1..j]);
  }

  /** Between the accepted answer and the effect's re-run the old watch still
      sees `isDelivered` false, so a fix arriving then is relayed; after the
      re-run it is not. */
  lemma FixBeforeRerunIsRelayed(s: Session, lat: real, lng: real)
    requires ConfirmEnabled(s) && !s.watchDelivered
    ensures Run(s, [Pressed, Answered(Accepted)]).isDelivered
    ensures EmitsLocation(Run(s, [Pressed, Answered(Accepted)]), PositionFix(lat, lng))
    ensures !EmitsLocation(Run(s, [Pressed, Answered(Accepted), EffectRerun]), PositionFix(lat, lng))
  {
  }

  /** While a verify is pending the button is disabled, so a second press
      sends nothing. */
  lemma PressWhilePendingIgnored(s: Session)
    requires s.loading
    ensures !ConfirmEnabled(s) && Step(s, Pressed) == s
  {
  }

  /** Typing while a verify is in flight does not save the new input from a
      rejection: the field is cleared all the same. */
  lemma RejectClearsLateTyping(s: Session, v: string)
    requires ConfirmEnabled(s)
    ensures Run(s, [Pressed, Typed(v), Answered(Rejected)]).otp == ""
    ensures !Run(s, [Pressed, Typed(v), Answered(Rejected)]).loading
  {
    var s1 := Step(s, Pressed);
    var s2 := Step(s1, Typed(v));
    assert s2.loading;
    assert Run(s, [Pressed, Typed(v), Answered(Rejected)]) == Run(s1, [Typed(v), Answered(Rejected)]);
    assert Run(s1, [Typed(v), Answered(Rejected)]) == Run(s2, [Answered(Rejected)]);
    assert Run(s2, [Answered(Rejected)]) == Run(Step(s2, Answered(Rejected)), []);
  }

  /** A sample sent on the channel. */
  datatype LocationSample = LocationSample(orderId: string, latitude: real, longitude: real)

  /** The page's state. */
  class DriverTrackPage {
    const id: string
    var status: string
    var otp: string
    var isDelivered: bool
    var loading: bool
    /** The `isDelivered` captured by the installed watch's callback. */
    var watchDelivered: bool

    function State(): Session
      reads this
    {
      Session(otp, loading, isDelivered, watchDelivered)
    }

    constructor (id: string)
      ensures this.id == id && status == "Connecting..."
      ensures State() == InitialSession
    {
      this.id := id;
      status := "Connecting...";
      otp := "";
      isDelivered := false;
      loading := false;
      watchDelivered := false;
    }

    /** The OTP input's `onChange`. */
    method SetOtp(value: string)
      modifies this`otp
      ensures State() == Step(old(State()), Typed(value))
    {
      otp := value;
    }

    /** `handleVerify` up to its `await`: returns the code sent, if any. */
    method HandleVerify() returns (sent: Option<string>)
      modifies this`loading
      ensures sent == if SendsVerify(old(State())) then Some(otp) else None
      ensures State() == StartVerify(old(State()))
    {
      if |otp| != OtpLength {
        return None;
      }
      loading := true;
      sent := Some(otp);
    }

    /** The rest of `handleVerify`, once the server has answered. */
    method OnVerifyAnswer(outcome: VerifyOutcome)
      modifies this`otp, this`loading, this`isDelivered
      ensures State() == FinishVerify(old(State()), outcome)
    {
      if !loading {
        return;
      }
      if outcome == Accepted {
        isDelivered := true;
      } else {
        otp := "";
      }
      loading := false;
    }

    /** The commit after a change to `isDelivered`: the effect's cleanup
        clears the old watch and the new watch closes over the current value. */
    method OnEffectRerun()
      modifies this`watchDelivered
      ensures State() == Step(old(State()), EffectRerun)
    {
      watchDelivered := isDelivered;
    }

    /** The geolocation success callback of the installed watch. */
    method OnPosition(lat: real, lng: real) returns (sent: Option<LocationSample>)
      modifies this`status
      ensures !EmitsLocation(State(), PositionFix(lat, lng)) ==> sent == None && status == old(status)
      ensures EmitsLocation(State(), PositionFix(lat, lng)) ==>
        sent == Some(LocationSample(id, lat, lng)) && status == "Live Tracking Active 🟢"
    {
      if watchDelivered {
        return None;
      }
      status := "Live Tracking Active 🟢";
      sent := Some(LocationSample(id, lat, lng));
    }

    /** The geolocation error callback: the watch stays alive. */
    method OnPositionError()
      modifies this`status
      ensures status == "Waiting for GPS..."
    {
      status := "Waiting for GPS...";
    }
  }

  /** The handoff scenario: a correct four-digit code completes the delivery;
      a fix that reaches the old watch before the re-render is still relayed,
      and once the effect has re-run the page relays no further position. */
  method CorrectCodeScenario(id: string, code: string, lat: real, lng: real)
    returns (sent: Option<string>, delivered: bool, staleRelayed: Option<LocationSample>, relayed: Option<LocationSample>)
    requires |code| == 4
    ensures sent == Some(code)
    ensures delivered && staleRelayed == Some(LocationSample(id, lat, lng))
    ensures relayed == None
  {
    var page := new DriverTrackPage(id);
    page.SetOtp(code);
    sent := page.HandleVerify();
    page.OnVerifyAnswer(Accepted);
    delivered := page.isDelivered;
    staleRelayed := page.OnPosition(lat, lng);
    page.OnEffectRerun();
    relayed := page.OnPosition(lat, lng);
  }

  /** A wrong code clears the input and leaves the delivery open, so the next
      position is still relayed. */
  method WrongCodeScenario(id: string, code: string, lat: real, lng: real)
    returns (otp: string, delivered: bool, relayed: Option<LocationSample>)
    requires |code| == 4
    ensures otp == "" && !delivered
    ensures relayed == Some(LocationSample(id, lat, lng))
  {
    var page := new DriverTrackPage(id);
    page.SetOtp(code);
    var _ := page.HandleVerify();
    page.OnVerifyAnswer(Rejected);
    otp, delivered := page.otp, page.isDelivered;
    relayed := page.OnPosition(lat, lng);
  }

  /** While the verify request is in flight the button is disabled and
      positions are still relayed; a code typed meanwhile is cleared by a
      rejection. */
  method PendingVerifyScenario(id: string, code: string, later: string, lat: real, lng: real)
    returns (enabled: bool, relayed: Option<LocationSample>, otp: string)
    requires |code| == 4
    ensures !enabled
    ensures relayed == Some(LocationSample(id, lat, lng))
    ensures otp == ""
  {
    var page := new DriverTrackPage(id);
    page.SetOtp(code);
    var _ := page.HandleVerify();
    enabled := ConfirmEnabled(page.State());
    relayed := page.OnPosition(lat, lng);
    page.SetOtp(later);
    page.OnVerifyAnswer(Rejected);
    otp := page.otp;
  }
}
