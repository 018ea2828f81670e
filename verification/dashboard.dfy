/**
 * The specialist dashboard (app/specialist/dashboard/page.tsx): a queue of incoming calls,
 * the call being prepared in the pre-join dialog, and the call in progress. The response of
 * the token request made on join is an input to the join handler.
 */
module Dashboard {

  import opened Optional
  import opened IncomingCall
  import TokenRoute
  import LiveKit

  /** The call in progress; `token` is whatever the token endpoint's JSON carried (absent on an error reply). */
  datatype ActiveCall = ActiveCall(token: Option<string>, callId: string, callType: CallType)

  /**
   * How the token request made on join ended. `FetchThrew` covers every throw: `fetch` or
   * `res.json()` rejecting, and also a reply that is JSON `null`, where reading `data.token`
   * throws. `Replied` is a JSON object, whose `token` may be absent (an error reply).
   */
  datatype FetchOutcome = FetchThrew | Replied(token: Option<string>)

  /** What the page renders: the call view, or the lobby with its queue badge, notifications and dialog. */
  datatype Screen =
    | InCall(token: Option<string>, role: string, callType: CallType)
    | Lobby(queueCount: nat, notifications: seq<Call>, preJoin: Option<CallType>)

  const DefaultSpecialistId := "specialist-001"

  /** The simulated call the page enqueues three seconds after mounting. */
  function MockCall(now: int): Call
  {
    Call("call-123", "patient-456", "John Doe", Video, Some("Follow-up consultation"), now)
  }

  /** How many queue entries carry the id. */
  function CountWithId(calls: seq<Call>, id: string): (n: nat)
    ensures n <= |calls|
    ensures n == 0 <==> forall c :: c in calls ==> c.id != id
  {
    if calls == [] then 0 else (if calls[0].id == id then 1 else 0) + CountWithId(calls[1..], id)
  }

  /** `a` is `b` with some entries left out, the rest in their original order. */
  predicate IsSubsequence(a: seq<Call>, b: seq<Call>)
    decreases |b|
  {
    a == [] || (b != [] && ((a[0] == b[0] && IsSubsequence(a[1..], b[1..])) || IsSubsequence(a, b[1..])))
  }

  /** `calls.filter((c) => c.id !== id)` */
  function WithoutId(calls: seq<Call>, id: string): (r: seq<Call>)
    ensures forall c :: c in r ==> c.id != id
    ensures forall c: Call :: c.id != id ==> multiset(r)[c] == multiset(calls)[c]
    ensures IsSubsequence(r, calls)
    ensures |r| + CountWithId(calls, id) == |calls|
  {
    if calls == [] then []
    else
      var rest := WithoutId(calls[1..], id);
      assert calls == [calls[0]] + calls[1..];
      if calls[0].id != id then
        var r := [calls[0]] + rest;
        assert r[1..] == rest;
        r
      else
        assert rest != [] ==> IsSubsequence(rest, calls[1..]);
        rest
  }

  /** Removing an id that is not queued changes nothing. */
  lemma {:induction false} WithoutAbsentId(calls: seq<Call>, id: string)
    requires forall c :: c in calls ==> c.id != id
    ensures WithoutId(calls, id) == calls
  {
    if calls != [] {
      WithoutAbsentId(calls[1..], id);
      assert calls == [calls[0]] + calls[1..];
    }
  }

  /** Declining the same id twice is the same as declining it once. */
  lemma WithoutIdIdempotent(calls: seq<Call>, id: string)
    ensures WithoutId(WithoutId(calls, id), id) == WithoutId(calls, id)
  {
    WithoutAbsentId(WithoutId(calls, id), id);
  }

  /** Removals of two ids commute. */
  lemma {:induction false} WithoutIdCommutes(calls: seq<Call>, a: string, b: string)
    ensures WithoutId(WithoutId(calls, a), b) == WithoutId(WithoutId(calls, b), a)
  {
    if calls != [] {
      WithoutIdCommutes(calls[1..], a, b);
    }
  }

  /** The body of the token request made on join. */
  function JoinRequest(username: string, call: Call): (req: TokenRoute.TokenRequest)
    ensures req.role == Some("doctor") && req.consultationId == Some(call.id)
    ensures req.userId == Some(if username != "" then username else DefaultSpecialistId)
  {
    TokenRoute.TokenRequest(Some(OrElse(Some(username), DefaultSpecialistId)), Some("doctor"), Some(call.id))
  }

  /** The join request passes the token endpoint's guard exactly when the call id is non-empty. */
  lemma JoinRequestValidity(username: string, call: Call)
    ensures TokenRoute.HasAllParameters(JoinRequest(username, call)) <==> call.id != ""
  {
  }

  /** A join for a call lands in that call's consultation room, as the doctor. */
  lemma JoinLandsInCallRoom(username: string, call: Call, config: TokenRoute.Config, sign: LiveKit.Signer)
    requires call.id != ""
    ensures var t := TokenRoute.HandleTokenRequest(JoinRequest(username, call), config, sign).signerInput.value;
      t.grant.room == "consultation-" + call.id &&
      t.options.identity == "doctor:" + (if username != "" then username else DefaultSpecialistId)
  {
  }

  class SpecialistDashboard {
    var incomingCalls: seq<Call>
    var activeCall: Option<ActiveCall>
    var showPreJoin: bool
    var pendingCall: Option<Call>

    /** The dialog flag and the pending call are set and cleared together. */
    ghost predicate Valid()
      reads this
    {
      showPreJoin <==> pendingCall.Some?
    }

    /** The number on the "Queue" card. */
    function QueueCount(): nat
      reads this
    {
      |incomingCalls|
    }

    constructor ()
      ensures Valid()
      ensures incomingCalls == [] && activeCall == None && !showPreJoin && pendingCall == None
    {
      incomingCalls := [];
      activeCall := None;
      showPreJoin := false;
      pendingCall := None;
    }

    /** What the page renders in the current state. */
    function View(): (v: Screen)
      reads this
      ensures v.InCall? <==> activeCall.Some?
      ensures v.InCall? ==> v == InCall(activeCall.value.token, "doctor", activeCall.value.callType)
      ensures v.Lobby? ==> v.queueCount == QueueCount() && v.notifications == incomingCalls
      ensures v.Lobby? ==> (v.preJoin.Some? <==> showPreJoin && pendingCall.Some?)
      ensures v.Lobby? && v.preJoin.Some? ==> v.preJoin.value == pendingCall.value.callType
    {
      if activeCall.Some? then InCall(activeCall.value.token, "doctor", activeCall.value.callType)
      else Lobby(|incomingCalls|, incomingCalls,
                 if showPreJoin && pendingCall.Some? then Some(pendingCall.value.callType) else None)
    }

    /** The simulated arrival: the call joins the end of the queue. */
    method ReceiveMockCall(now: int)
      requires Valid()
      modifies this
      ensures Valid()
      ensures incomingCalls == old(incomingCalls) + [MockCall(now)]
      ensures QueueCount() == old(QueueCount()) + 1
      ensures activeCall == old(activeCall) && showPreJoin == old(showPreJoin) && pendingCall == old(pendingCall)
    {
      incomingCalls := incomingCalls + [MockCall(now)];
    }

    /** `handleAcceptCall`: open the pre-join dialog for the call and take it off the queue. */
    method AcceptCall(call: Call)
      requires Valid()
      modifies this
      ensures Valid()
      ensures pendingCall == Some(call) && showPreJoin
      ensures incomingCalls == WithoutId(old(incomingCalls), call.id)
      ensures QueueCount() == old(QueueCount()) - CountWithId(old(incomingCalls), call.id)
      ensures activeCall == old(activeCall)
    {
      pendingCall := Some(call);
      showPreJoin := true;
      incomingCalls := WithoutId(incomingCalls, call.id);
    }

    /** `handleDeclineCall`: take every entry with the id off the queue. */
    method DeclineCall(callId: string)
      requires Valid()
      modifies this
      ensures Valid()
      ensures incomingCalls == WithoutId(old(incomingCalls), callId)
      ensures QueueCount() == old(QueueCount()) - CountWithId(old(incomingCalls), callId)
      ensures activeCall == old(activeCall) && showPreJoin == old(showPreJoin) && pendingCall == old(pendingCall)
    {
      incomingCalls := WithoutId(incomingCalls, callId);
    }

    /**
     * `handleJoinCall`: with a pending call, send the token request (returned here) and, once
     * the reply is read, start the call whatever the reply's HTTP status; a throw changes nothing.
     */
    method JoinCall(username: string, fetch: FetchOutcome) returns (request: Option<TokenRoute.TokenRequest>)
      requires Valid()
      modifies this
      ensures Valid()
      ensures old(pendingCall).None? ==> request == None
      ensures old(pendingCall).Some? ==> request == Some(JoinRequest(username, old(pendingCall).value))
      ensures incomingCalls == old(incomingCalls)
      ensures old(pendingCall).Some? && fetch.Replied? ==>
        activeCall == Some(ActiveCall(fetch.token, old(pendingCall).value.id, old(pendingCall).value.callType)) &&
        !showPreJoin && pendingCall == None
      ensures old(pendingCall).None? || fetch.FetchThrew? ==>
        activeCall == old(activeCall) && showPreJoin == old(showPreJoin) && pendingCall == old(pendingCall)
    {
      if pendingCall.None? {
        return None;
      }
      var call := pendingCall.value;
      request := Some(JoinRequest(username, call));
      match fetch
      case FetchThrew =>
      case Replied(token) =>
        activeCall := Some(ActiveCall(token, call.id, call.callType));
        showPreJoin := false;
        pendingCall := None;
    }

    /** The pre-join dialog's cancel handler. */
    method CancelPreJoin()
      requires Valid()
      modifies this
      ensures Valid()
      ensures !showPreJoin && pendingCall == None
      ensures incomingCalls == old(incomingCalls) && activeCall == old(activeCall)
    {
      showPreJoin := false;
      pendingCall := None;
    }

    /** `handleLeaveCall`: end the call and return to the lobby. */
    method LeaveCall()
      requires Valid()
      modifies this
      ensures Valid()
      ensures activeCall == None
      ensures incomingCalls == old(incomingCalls) && showPreJoin == old(showPreJoin) && pendingCall == old(pendingCall)
    {
      activeCall := None;
    }
  }
}
