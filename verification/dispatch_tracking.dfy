/** The dispatcher's and receiver's view of one delivery order
    (src/components/common/DispatchDetailsModal.jsx): the time gate that keeps
    live tracking locked until one hour before the estimated arrival, the
    countdown shown while it is locked, the choice of the map panel, the
    receiver-only OTP card, and the location subscription that is joined only
    once the gate is open. Timestamps are integer milliseconds. */
module DispatchTracking {
  import opened Wrappers

  const MinuteMs := 60 * 1000
  const HourMs := 60 * MinuteMs
  const DayMs := 24 * HourMs

  /** The lead window: tracking unlocks this long before the estimated arrival. */
  const LeadWindowMs := 60 * 60 * 1000

  /** The instant tracking unlocks: exactly sixty minutes before arrival. */
  function UnlockTime(arrival: int): (t: int)
    ensures t + 60 * MinuteMs == arrival
  {
    arrival - LeadWindowMs
  }

  /** One reading of the gate: open, or locked with an hours/minutes countdown. */
  datatype Gate = Live | Countdown(hours: int, minutes: int)

  /** The arithmetic of `checkTimer`. The remainder is taken only of a
      positive difference, where JavaScript's `%` agrees with Dafny's. */
  function ReadGate(arrival: int, now: int): (g: Gate)
    ensures g.Live? <==> now >= UnlockTime(arrival)
    ensures g.Countdown? ==> 0 <= g.hours < 24 && 0 <= g.minutes < 60
  {
    var diff := UnlockTime(arrival) - now;
    if diff <= 0 then Live
    else Countdown((diff % DayMs) / HourMs, (diff % HourMs) / MinuteMs)
  }

  /** Total minutes a countdown displays. */
  function ShownMinutes(g: Gate): int
    requires g.Countdown?
  {
    g.hours * 60 + g.minutes
  }

  /** Once open, the gate stays open for the same arrival at every later time. */
  lemma UnlockIsPermanent(arrival: int, now: int, later: int)
    requires now <= later
    requires ReadGate(arrival, now).Live?
    ensures ReadGate(arrival, later).Live?
  {
  }

  /** Within the last day before unlocking, the countdown shows exactly the
      whole minutes left until the unlock instant. */
  lemma CountdownIsMinutesLeft(arrival: int, now: int)
    requires 0 < UnlockTime(arrival) - now < DayMs
    ensures ReadGate(arrival, now).Countdown?
    ensures ShownMinutes(ReadGate(arrival, now)) == (UnlockTime(arrival) - now) / MinuteMs
  {
  }

  /** Within the last day before unlocking, the countdown never goes up as
      time passes. */
  lemma CountdownNeverIncreases(arrival: int, now: int, later: int)
    requires now <= later
    requires UnlockTime(arrival) - now < DayMs
    requires ReadGate(arrival, later).Countdown?
    ensures ShownMinutes(ReadGate(arrival, later)) <= ShownMinutes(ReadGate(arrival, now))
  {
    CountdownIsMinutesLeft(arrival, now);
    CountdownIsMinutesLeft(arrival, later);
    DivMonotone(UnlockTime(arrival) - later, UnlockTime(arrival) - now);
  }

  lemma DivMonotone(a: int, b: int)
    requires 0 <= a <= b
    ensures a / MinuteMs <= b / MinuteMs
  {
  }

  /** Whole days are dropped: two arrivals a day apart show the same countdown. */
  lemma CountdownDropsWholeDays(arrival: int, now: int)
    requires ReadGate(arrival, now).Countdown?
    ensures ReadGate(arrival + DayMs, now) == ReadGate(arrival, now)
  {
    var diff := UnlockTime(arrival) - now;
    assert (diff + DayMs) % DayMs == diff % DayMs;
    assert (diff + DayMs) % HourMs == diff % HourMs;
  }

  /** The requester of an order as the API returns it: an id string, a
      populated object whose `_id` may be missing, or nothing. */
  datatype RefId = Absent | IdString(s: string) | IdObject(id: Option<string>)

  /** `requesterIdString`: the object's `_id`, or the value itself. */
  function RequesterIdString(r: RefId): (id: Option<string>)
    ensures r.IdString? ==> id == Some(r.s)
    ensures r.IdObject? ==> id == r.id
    ensures id.None? <==> r == Absent || r == IdObject(None)
  {
    match r
    case Absent => None
    case IdString(s) => Some(s)
    case IdObject(id) => id
  }

  /** `isReceiver`: strict equality of the viewer's id with the requester's.
      Two missing ids are equal, as `undefined === undefined` is. */
  function IsReceiver(userId: Option<string>, requester: RefId): (b: bool)
    ensures userId.Some? ==> (b <==> requester == IdString(userId.value) || requester == IdObject(userId))
    ensures userId.None? ==> (b <==> requester == Absent || requester == IdObject(None))
  {
    userId == RequesterIdString(requester)
  }

  /** The fields of an order this view reads. */
  datatype DeliveryOrder = DeliveryOrder(
    id: string,
    status: string,
    requester: RefId,
    estimatedArrival: Option<int>,
    deliveryOtp: Option<string>)

  predicate IsCompleted(order: DeliveryOrder) {
    order.status == "completed"
  }

  /** The four map panels, shown one at a time. */
  datatype Panel = CompletedPanel | LockedPanel | LiveMapPanel | WaitingPanel

  /** The nested conditional of the map header: completed, then locked, then
      live map when a location has arrived, then waiting. */
  function SelectPanel(isCompleted: bool, isLocked: bool, hasLocation: bool): (p: Panel)
    ensures p == CompletedPanel <==> isCompleted
    ensures p == LockedPanel <==> !isCompleted && isLocked
    ensures p == LiveMapPanel <==> !isCompleted && !isLocked && hasLocation
    ensures p == WaitingPanel <==> !isCompleted && !isLocked && !hasLocation
  {
    if isCompleted then CompletedPanel
    else if isLocked then LockedPanel
    else if hasLocation then LiveMapPanel
    else WaitingPanel
  }

  /** The OTP security card: only for the receiver, only before completion. */
  function ShowsOtpCard(userId: Option<string>, order: DeliveryOrder): (b: bool)
    ensures b ==> order.status != "completed"
    ensures userId.Some? ==>
      (b <==> order.status != "completed" &&
              (order.requester == IdString(userId.value) || order.requester == IdObject(userId)))
  {
    IsReceiver(userId, order.requester) && !IsCompleted(order)
  }

  /** The outcome of "Copy Code": the code written to the clipboard, or the
      "OTP not generated yet" error. */
  datatype CopyResult = Copied(text: string) | NotGenerated

  /** `copyOtp`: a missing or empty code is falsy and writes nothing. */
  function CopyOtp(otp: Option<string>): (r: CopyResult)
    ensures r.Copied? <==> otp.Some? && otp.value != ""
    ensures r.Copied? ==> r.text == otp.value
  {
    if otp.None? || otp.value == "" then NotGenerated else Copied(otp.value)
  }

  /** A position relayed by the tracking channel. */
  datatype Coord = Coord(lat: real, lng: real)

  /** The `timeLeft` label: empty before the first reading, "LIVE", or "Hh Mm". */
  datatype TimeLeft = Blank | LiveLabel | Remaining(hours: int, minutes: int)

  function Label(g: Gate): TimeLeft {
    match g
    case Live => LiveLabel
    case Countdown(h, m) => Remaining(h, m)
  }

  /** The modal's state: its `useState` slots, plus whether the
      `update_location` listener is installed. */
  class DispatchDetailsView {
    const order: DeliveryOrder
    const userId: Option<string>
    var timeLeft: TimeLeft
    var isLocked: bool
    var liveLocation: Option<Coord>
    var showOtp: bool
    var listening: bool

    /** The initial render: locked, no label, no location, not listening. */
    constructor (order: DeliveryOrder, userId: Option<string>)
      ensures this.order == order && this.userId == userId
      ensures isLocked && timeLeft == Blank && liveLocation == None
      ensures !showOtp && !listening
    {
      this.order := order;
      this.userId := userId;
      timeLeft := Blank;
      isLocked := true;
      liveLocation := None;
      showOtp := false;
      listening := false;
    }

    /** One run of `checkTimer` at time `now`. On a completed order the timer
        is never started, and without an estimated arrival it returns at once. */
    method CheckTimer(now: int)
      modifies this`isLocked, this`timeLeft
      ensures IsCompleted(order) || order.estimatedArrival.None? ==>
        isLocked == old(isLocked) && timeLeft == old(timeLeft)
      ensures !IsCompleted(order) && order.estimatedArrival.Some? ==>
        var g := ReadGate(order.estimatedArrival.value, now);
        isLocked == g.Countdown? && timeLeft == Label(g)
    {
      if IsCompleted(order) || order.estimatedArrival.None? {
        return;
      }
      var g := ReadGate(order.estimatedArrival.value, now);
      if g.Live? {
        isLocked, timeLeft := false, LiveLabel;
      } else {
        isLocked, timeLeft := true, Remaining(g.hours, g.minutes);
      }
    }

    /** The socket effect, re-run whenever `isLocked` changes: the previous
        listener is removed, and a new one joins the order's topic only when
        unlocked. */
    method SyncSubscription() returns (joined: Option<string>)
      modifies this`listening
      ensures listening == !isLocked
      ensures joined == if isLocked then None else Some(order.id)
    {
      listening := !isLocked;
      joined := if isLocked then None else Some(order.id);
    }

    /** An `update_location` event: the last sample received wins. */
    method OnUpdateLocation(c: Coord)
      modifies this`liveLocation
      ensures liveLocation == if listening then Some(c) else old(liveLocation)
    {
      if listening {
        liveLocation := Some(c);
      }
    }

    /** Tapping the OTP card reveals or hides the code. */
    method ToggleOtp()
      modifies this`showOtp
      ensures showOtp == !old(showOtp)
    {
      showOtp := !showOtp;
    }

    function View(): Panel
      reads this
    {
      SelectPanel(IsCompleted(order), isLocked, liveLocation.Some?)
    }

    function OtpCardVisible(): bool {
      ShowsOtpCard(userId, order)
    }
  }

  /** A fresh view of an order with no estimated arrival, or of a completed
      order, stays locked whatever the clock says. */
  method IdleTimerStaysLocked(order: DeliveryOrder, userId: Option<string>, now: int) returns (locked: bool, panel: Panel)
    requires IsCompleted(order) || order.estimatedArrival.None?
    ensures locked
    ensures panel == if IsCompleted(order) then CompletedPanel else LockedPanel
  {
    var view := new DispatchDetailsView(order, userId);
    view.CheckTimer(now);
    locked := view.isLocked;
    panel := view.View();
  }

  /** The location topic is joined, after a timer tick at `now`, exactly when
      `now` has reached the unlock instant. */
  method JoinAfterTick(order: DeliveryOrder, userId: Option<string>, now: int) returns (joined: Option<string>)
    requires !IsCompleted(order) && order.estimatedArrival.Some?
    ensures joined.Some? <==> now >= UnlockTime(order.estimatedArrival.value)
    ensures joined.Some? ==> joined.value == order.id
  {
    var view := new DispatchDetailsView(order, userId);
    view.CheckTimer(now);
    joined := view.SyncSubscription();
  }
}
