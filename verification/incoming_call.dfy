/**
 * The incoming-call card (features/call/components/IncomingCallNotification.tsx): the
 * call-type label and icon, and the thirty-second countdown that declines the call
 * when it runs out. The interval timer is modelled as explicit ticks.
 */
module IncomingCall {

  import opened Optional

  /** `callType: "video" | "audio" | "pstn"` */
  datatype CallType = Video | Audio | Pstn

  /** An incoming call; `timestamp` is the creation time in milliseconds. */
  datatype Call = Call(id: string, patientId: string, patientName: string, callType: CallType,
                       reason: Option<string>, timestamp: int)

  datatype CallIcon = VideoIcon | MicIcon | PhoneIcon

  /** `getCallTypeLabel`: every call type has a label. */
  function CallTypeLabel(t: CallType): (s: string)
    ensures |s| >= 10 && s[|s| - 5..] == " Call"
  {
    match t
    case Video => "Video Call"
    case Audio => "Audio Call"
    case Pstn => "Phone Call"
  }

  function CallTypeOfLabel(s: string): Option<CallType>
  {
    if s == "Video Call" then Some(Video)
    else if s == "Audio Call" then Some(Audio)
    else if s == "Phone Call" then Some(Pstn)
    else None
  }

  /** Labels name call types one to one. */
  lemma CallTypeLabelNamesType(t: CallType)
    ensures CallTypeOfLabel(CallTypeLabel(t)) == Some(t)
  {
  }

  /** `getCallIcon`: every call type has an icon, and distinct types get distinct icons. */
  function CallIconOf(t: CallType): (i: CallIcon)
    ensures i == PhoneIcon <==> t == Pstn
    ensures i == VideoIcon <==> t == Video
    ensures i == MicIcon <==> t == Audio
  {
    match t
    case Video => VideoIcon
    case Audio => MicIcon
    case Pstn => PhoneIcon
  }

  /** `useState(30)` */
  const CountdownStart: int := 30

  /** What one run of the state updater yields: the next `timeLeft`, and whether it called `onDecline`. */
  datatype TickResult = TickResult(timeLeft: int, declines: bool)

  /** The updater passed to `setTimeLeft` on every interval tick. */
  function CountdownStep(prev: int): (r: TickResult)
    ensures r.declines <==> prev <= 1
    ensures r.declines ==> r.timeLeft == 0
    ensures !r.declines ==> 1 <= r.timeLeft == prev - 1
  {
    if prev <= 1 then TickResult(0, true) else TickResult(prev - 1, false)
  }

  /** `timeLeft` after `n` ticks from the start. */
  function TimeLeftAfter(n: nat): int
  {
    if n == 0 then CountdownStart else CountdownStep(TimeLeftAfter(n - 1)).timeLeft
  }

  /** Whether the `k`-th tick (counting from one) calls `onDecline`. */
  predicate DeclinesOnTick(k: nat)
    requires k >= 1
  {
    CountdownStep(TimeLeftAfter(k - 1)).declines
  }

  /** How many of the first `n` ticks call `onDecline`. */
  function DeclineCount(n: nat): nat
  {
    if n == 0 then 0 else DeclineCount(n - 1) + (if DeclinesOnTick(n) then 1 else 0)
  }

  /** `timeLeft` counts down one per tick from thirty and then stays at zero. */
  lemma {:induction false} TimeLeftAfterTicks(n: nat)
    ensures TimeLeftAfter(n) == if n < 30 then 30 - n else 0
  {
    if n > 0 {
      TimeLeftAfterTicks(n - 1);
    }
  }

  /** `0 <= timeLeft <= 30` at every point, and no tick increases it. */
  lemma TimeLeftBounded(n: nat)
    ensures 0 <= TimeLeftAfter(n) <= CountdownStart
    ensures TimeLeftAfter(n + 1) <= TimeLeftAfter(n)
  {
    TimeLeftAfterTicks(n);
    TimeLeftAfterTicks(n + 1);
  }

  /** The first decline is on the thirtieth tick, and every later tick declines again. */
  lemma DeclinesFromThirtiethTick(k: nat)
    requires k >= 1
    ensures DeclinesOnTick(k) <==> k >= 30
  {
    TimeLeftAfterTicks(k - 1);
  }

  /** After `n` ticks `onDecline` has been called `n - 29` times once `n` reaches thirty, never before. */
  lemma {:induction false} DeclineCountAfter(n: nat)
    ensures DeclineCount(n) == if n < 30 then 0 else n - 29
  {
    if n > 0 {
      DeclineCountAfter(n - 1);
      DeclinesFromThirtiethTick(n);
    }
  }

  /** The card's countdown state and the number of `onDecline` calls it has made. */
  class Countdown {
    var timeLeft: int
    var declineCalls: nat
    /** Interval ticks since the card mounted. */
    ghost var ticks: nat

    ghost predicate Valid()
      reads this
    {
      timeLeft == TimeLeftAfter(ticks) && declineCalls == DeclineCount(ticks)
    }

    constructor ()
      ensures Valid()
      ensures timeLeft == 30 && declineCalls == 0 && ticks == 0
    {
      timeLeft := CountdownStart;
      declineCalls := 0;
      ticks := 0;
    }

    /** One interval tick: apply the updater, and call `onDecline` when it says so. */
    method Tick() returns (declined: bool)
      requires Valid()
      modifies this
      ensures Valid()
      ensures ticks == old(ticks) + 1
      ensures declined <==> old(timeLeft) <= 1
      ensures declined <==> ticks >= 30
      ensures declined ==> timeLeft == 0 && declineCalls == old(declineCalls) + 1
      ensures !declined ==> timeLeft == old(timeLeft) - 1 && declineCalls == old(declineCalls)
      ensures 0 <= timeLeft <= old(timeLeft) <= 30
    {
      TimeLeftBounded(ticks);
      DeclinesFromThirtiethTick(ticks + 1);
      var r := CountdownStep(timeLeft);
      timeLeft := r.timeLeft;
      declined := r.declines;
      if declined {
        declineCalls := declineCalls + 1;
      }
      ticks := ticks + 1;
    }
  }
}
