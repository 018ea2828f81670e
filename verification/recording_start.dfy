/**
 * `POST /api/recording/start` (app/api/recording/start/route.ts): checks the room name,
 * builds a room-composite egress request for the media server and maps its outcome to a
 * response. The clock (`Date.now()`) and the upstream call's outcome are parameters.
 */
module RecordingStart {

  import opened Optional
  import opened Text

  const DefaultLivekitUrl := "http://localhost:7880"
  const EgressPath := "/twirp/livekit.Egress/StartRoomCompositeEgress"

  /**
   * The request body. `MalformedBody` is any body whose destructuring throws: text that is not
   * JSON, and also a JSON `null`. Otherwise `roomName` is the field, possibly absent or empty.
   */
  datatype StartRequest = MalformedBody | StartRequest(roomName: Option<string>)

  /** The JSON the handler posts to the egress service. */
  datatype EgressBody = EgressBody(roomName: string, layout: string, audioOnly: bool, videoOnly: bool,
                                   customBaseUrl: string, filepath: string)

  datatype EgressCall = EgressCall(url: string, authorization: string, body: EgressBody)

  /**
   * The body of the egress service's answer: its stream failed, so both `text()` and `json()`
   * reject; it was read but is not JSON, or is a JSON `null`, so reading it as JSON throws; or
   * it is a JSON object with a possibly absent `egress_id`.
   */
  datatype UpstreamReply = UnreadableReply | MalformedReply | EgressInfo(egressId: Option<string>)

  /** How the upstream `fetch` ended: it threw, or it answered with an `ok` flag and a body. */
  datatype Upstream = NetworkError | Answered(ok: bool, reply: UpstreamReply)

  /** Response bodies; `Started` serialises with `success: true`, and an absent id is left out. */
  datatype ResponseBody = Started(egressId: Option<string>, message: string) | ErrorBody(error: string)

  datatype Response = Response(status: nat, body: ResponseBody)

  /** The response together with the egress request sent upstream, if one was sent. */
  datatype Handled = Handled(response: Response, egressCall: Option<EgressCall>)

  /** `generateEgressToken()`: a placeholder that is always the empty string. */
  function EgressToken(): (t: string)
    ensures |t| == 0
  {
    ""
  }

  /** `recordings/${roomName}-${Date.now()}.mp4` */
  function RecordingPath(roomName: string, now: nat): string
  {
    "recordings/" + roomName + "-" + Decimal(now) + ".mp4"
  }

  /** Reads a recording path back into its room name and timestamp, splitting at the last '-'. */
  function ParseRecordingPath(path: string): Option<(string, nat)>
  {
    if |path| < 16 || path[..11] != "recordings/" || path[|path| - 4..] != ".mp4" then None
    else
      var middle := path[11..|path| - 4];
      match LastDash(middle)
      case None => None
      case Some(i) =>
        if Canonical(middle[i + 1..]) then Some((middle[..i], DigitsValue(middle[i + 1..]))) else None
  }

  /** The position of the last '-' in `s`, if any. */
  function LastDash(s: string): (r: Option<nat>)
    ensures r.Some? ==> r.value < |s| && s[r.value] == '-' && '-' !in s[r.value + 1..]
    ensures r.None? ==> '-' !in s
  {
    if s == [] then None
    else if s[|s| - 1] == '-' then Some(|s| - 1)
    else
      var r := LastDash(s[..|s| - 1]);
      assert s == s[..|s| - 1] + [s[|s| - 1]];
      if r.Some? then
        assert s[r.value + 1..] == s[..|s| - 1][r.value + 1..] + [s[|s| - 1]];
        r
      else r
  }

  /** The path names the room and the moment: both read back from it, whatever the room name holds. */
  lemma RecordingPathRoundTrip(roomName: string, now: nat)
    ensures ParseRecordingPath(RecordingPath(roomName, now)) == Some((roomName, now))
  {
    var digits := Decimal(now);
    var path := RecordingPath(roomName, now);
    var middle := roomName + "-" + digits;
    assert path == "recordings/" + middle + ".mp4";
    assert path[..11] == "recordings/";
    assert path[|path| - 4..] == ".mp4";
    assert path[11..|path| - 4] == middle;
    assert '-' !in digits;
    var i := |roomName|;
    assert middle[i] == '-' && middle[i + 1..] == digits && middle[..i] == roomName;
    var r := LastDash(middle);
    assert r == Some(i);
    DecimalRoundTrip(now);
  }

  /** Different rooms or moments never share a recording file. */
  lemma RecordingPathInjective(room1: string, now1: nat, room2: string, now2: nat)
    ensures RecordingPath(room1, now1) == RecordingPath(room2, now2) ==> room1 == room2 && now1 == now2
  {
    RecordingPathRoundTrip(room1, now1);
    RecordingPathRoundTrip(room2, now2);
  }

  /** The egress request for a room. */
  function BuildEgressCall(livekitUrl: Option<string>, roomName: string, now: nat): (c: EgressCall)
    ensures c.authorization == "Bearer "
    ensures c.body.roomName == roomName && c.body.layout == "grid"
    ensures !c.body.audioOnly && !c.body.videoOnly && c.body.customBaseUrl == ""
    ensures ParseRecordingPath(c.body.filepath) == Some((roomName, now))
    ensures Truthy(livekitUrl) ==> c.url == livekitUrl.value + EgressPath
    ensures !Truthy(livekitUrl) ==> c.url == DefaultLivekitUrl + EgressPath
  {
    RecordingPathRoundTrip(roomName, now);
    EgressCall(OrElse(livekitUrl, DefaultLivekitUrl) + EgressPath, "Bearer " + EgressToken(),
               EgressBody(roomName, "grid", false, false, "", RecordingPath(roomName, now)))
  }

  /** The route handler; `now` stands for `Date.now()` and `upstream` for the egress service's answer. */
  function StartRecording(req: StartRequest, livekitUrl: Option<string>, now: nat, upstream: Upstream): (h: Handled)
    ensures req.MalformedBody? ==> h == Handled(Response(500, ErrorBody("Internal server error")), None)
    ensures req.StartRequest? && !Truthy(req.roomName) ==>
      h == Handled(Response(400, ErrorBody("Room name is required")), None)
    ensures req.StartRequest? && Truthy(req.roomName) ==>
      h.egressCall == Some(BuildEgressCall(livekitUrl, req.roomName.value, now))
    ensures h.response.status == 200 <==>
      req.StartRequest? && Truthy(req.roomName) && upstream.Answered? && upstream.ok && upstream.reply.EgressInfo?
    ensures h.response.status == 200 ==>
      h.response.body == Started(upstream.reply.egressId, "Recording started successfully")
    ensures req.StartRequest? && Truthy(req.roomName) && upstream.Answered? && !upstream.ok &&
            !upstream.reply.UnreadableReply? ==>
      h.response == Response(500, ErrorBody("Failed to start recording"))
    ensures req.StartRequest? && Truthy(req.roomName) &&
            (upstream.NetworkError? || upstream.reply.UnreadableReply? || (upstream.ok && upstream.reply.MalformedReply?)) ==>
      h.response == Response(500, ErrorBody("Internal server error"))
  {
    match req
    case MalformedBody => Handled(Response(500, ErrorBody("Internal server error")), None)
    case StartRequest(roomName) =>
      if !Truthy(roomName) then Handled(Response(400, ErrorBody("Room name is required")), None)
      else
        var call := BuildEgressCall(livekitUrl, roomName.value, now);
        match upstream
        case NetworkError => Handled(Response(500, ErrorBody("Internal server error")), Some(call))
        case Answered(ok, reply) =>
          if !ok then
            if reply.UnreadableReply? then Handled(Response(500, ErrorBody("Internal server error")), Some(call))
            else Handled(Response(500, ErrorBody("Failed to start recording")), Some(call))
          else match reply
            case UnreadableReply => Handled(Response(500, ErrorBody("Internal server error")), Some(call))
            case MalformedReply => Handled(Response(500, ErrorBody("Internal server error")), Some(call))
            case EgressInfo(egressId) =>
              Handled(Response(200, Started(egressId, "Recording started successfully")), Some(call))
  }

  /** An error answer whose body cannot even be read as text ends in the handler's catch-all. */
  lemma UnreadableErrorAnswerIsInternal(roomName: string, livekitUrl: Option<string>, now: nat)
    requires roomName != ""
    ensures StartRecording(StartRequest(Some(roomName)), livekitUrl, now, Answered(false, UnreadableReply)).response
         == Response(500, ErrorBody("Internal server error"))
  {
  }

  /** A rejected request never reaches the egress service, whatever it would have answered. */
  lemma RejectionMakesNoUpstreamCall(req: StartRequest, livekitUrl: Option<string>, now1: nat, now2: nat,
                                     up1: Upstream, up2: Upstream)
    requires req.MalformedBody? || !Truthy(req.roomName)
    ensures StartRecording(req, livekitUrl, now1, up1) == StartRecording(req, livekitUrl, now2, up2)
    ensures StartRecording(req, livekitUrl, now1, up1).egressCall.None?
  {
  }

  /** Every response is a 200, a 400 or a 500, and only a 200 reports success. */
  lemma StatusCodes(req: StartRequest, livekitUrl: Option<string>, now: nat, upstream: Upstream)
    ensures StartRecording(req, livekitUrl, now, upstream).response.status in {200, 400, 500}
    ensures StartRecording(req, livekitUrl, now, upstream).response.body.Started?
        <==> StartRecording(req, livekitUrl, now, upstream).response.status == 200
  {
  }
}
