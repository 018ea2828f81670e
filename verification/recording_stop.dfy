/**
 * `POST /api/recording/stop` (app/api/recording/stop/route.ts): checks that the body names
 * an egress or a room and answers success; it does not contact the media server.
 */
module RecordingStop {

  import opened Optional

  /**
   * The request body. `MalformedBody` is any body whose destructuring throws: text that is not
   * JSON, and also a JSON `null`. Otherwise the two fields, each possibly absent or empty.
   */
  datatype StopRequest = MalformedBody | StopRequest(roomName: Option<string>, egressId: Option<string>)

  /** Response bodies; `Stopped` serialises with `success: true`. */
  datatype ResponseBody = Stopped(message: string) | ErrorBody(error: string)

  datatype Response = Response(status: nat, body: ResponseBody)

  /** The guard `!egressId && !roomName` fails. */
  predicate NamesTarget(req: StopRequest)
    requires req.StopRequest?
  {
    Truthy(req.egressId) || Truthy(req.roomName)
  }

  /** The route handler. */
  function StopRecording(req: StopRequest): (r: Response)
    ensures req.MalformedBody? ==> r == Response(500, ErrorBody("Internal server error"))
    ensures req.StopRequest? && !NamesTarget(req) ==> r == Response(400, ErrorBody("Egress ID or room name is required"))
    ensures req.StopRequest? && NamesTarget(req) ==> r == Response(200, Stopped("Recording stopped successfully"))
  {
    match req
    case MalformedBody => Response(500, ErrorBody("Internal server error"))
    case StopRequest(roomName, egressId) =>
      if !Truthy(egressId) && !Truthy(roomName) then Response(400, ErrorBody("Egress ID or room name is required"))
      else Response(200, Stopped("Recording stopped successfully"))
  }

  /** Either identifier alone is enough, and the success does not depend on which was given. */
  lemma EitherIdentifierSuffices(roomName: string, egressId: string, other: Option<string>)
    requires roomName != "" && egressId != ""
    ensures StopRecording(StopRequest(Some(roomName), other)).status == 200
    ensures StopRecording(StopRequest(other, Some(egressId))).status == 200
    ensures StopRecording(StopRequest(Some(roomName), other)) == StopRecording(StopRequest(other, Some(egressId)))
  {
  }

  /** A readable body succeeds exactly when it names an egress or a room. */
  lemma SuccessIffNamed(req: StopRequest)
    ensures StopRecording(req).status == 200 <==> req.StopRequest? && NamesTarget(req)
    ensures StopRecording(req).status == 400 <==> req.StopRequest? && !NamesTarget(req)
  {
  }
}
