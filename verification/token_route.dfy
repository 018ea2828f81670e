/**
 * The router's `/token` handler, served as `POST /api/token` (server/routes/token.js): validates the three body fields,
 * derives the room name and the participant identity, asks `generateLiveKitToken` for a
 * signed credential and maps the outcome to a 200, 400 or 500 response.
 */
module TokenRoute {

  import opened Optional
  import LiveKit

  const RoomPrefix := "consultation-"

  /** The JSON request body; a field that is absent or not a string is `None`. */
  datatype TokenRequest = TokenRequest(userId: Option<string>, role: Option<string>, consultationId: Option<string>)

  /** Process-wide configuration: `LIVEKIT_URL` and the signing key pair. */
  datatype Config = Config(livekitUrl: Option<string>, keys: LiveKit.ApiKeys)

  /** JSON response bodies; an absent `livekitUrl` is left out of the serialised object. */
  datatype ResponseBody =
    | Issued(token: string, roomName: string, livekitUrl: Option<string>)
    | ErrorBody(error: string)

  datatype Response = Response(status: nat, body: ResponseBody)

  /** The response together with the unsigned token handed to the signer, if the signer ran. */
  datatype Handled = Handled(response: Response, signerInput: Option<LiveKit.AccessToken>)

  /** The guard `!userId || !role || !consultationId` fails. */
  predicate HasAllParameters(req: TokenRequest)
  {
    Truthy(req.userId) && Truthy(req.role) && Truthy(req.consultationId)
  }

  /** `consultation-${consultationId}` */
  function RoomName(consultationId: string): (r: string)
    ensures |r| == |RoomPrefix| + |consultationId|
    ensures r[..|RoomPrefix|] == RoomPrefix && r[|RoomPrefix|..] == consultationId
  {
    RoomPrefix + consultationId
  }

  /** `${role}:${userId}` */
  function Identity(role: string, userId: string): (r: string)
    ensures |r| == |role| + 1 + |userId|
    ensures r[..|role|] == role && r[|role|] == ':' && r[|role| + 1..] == userId
  {
    role + ":" + userId
  }

  /** The route handler; `sign` stands for the signing library. */
  function HandleTokenRequest(req: TokenRequest, config: Config, sign: LiveKit.Signer): (h: Handled)
    ensures !HasAllParameters(req) ==>
      h == Handled(Response(400, ErrorBody("Missing parameters")), None)
    ensures HasAllParameters(req) ==>
      h.signerInput == Some(LiveKit.BuildAccessToken(config.keys, RoomName(req.consultationId.value),
                                                     Identity(req.role.value, req.userId.value), req.role.value))
    ensures h.response.status == 200 <==> HasAllParameters(req) && sign(h.signerInput.value).Signed?
    ensures h.response.status == 200 ==>
      h.response.body == Issued(sign(h.signerInput.value).jwt, RoomName(req.consultationId.value), config.livekitUrl)
    ensures HasAllParameters(req) && sign(h.signerInput.value).SignFailed? ==>
      h.response == Response(500, ErrorBody("Failed to generate token"))
  {
    if !HasAllParameters(req) then
      Handled(Response(400, ErrorBody("Missing parameters")), None)
    else
      var roomName := RoomName(req.consultationId.value);
      var identity := Identity(req.role.value, req.userId.value);
      var token := LiveKit.BuildAccessToken(config.keys, roomName, identity, req.role.value);
      match LiveKit.GenerateLiveKitToken(config.keys, roomName, identity, req.role.value, sign)
      case Signed(jwt) => Handled(Response(200, Issued(jwt, roomName, config.livekitUrl)), Some(token))
      case SignFailed(_) => Handled(Response(500, ErrorBody("Failed to generate token")), Some(token))
  }

  /** A response issues a credential exactly when it is a 200. */
  lemma OnlySuccessCarriesToken(req: TokenRequest, config: Config, sign: LiveKit.Signer)
    ensures HandleTokenRequest(req, config, sign).response.body.Issued? <==> HandleTokenRequest(req, config, sign).response.status == 200
  {
  }

  /** On the 400 path the outcome does not depend on the signer at all: it is never consulted. */
  lemma RejectionIgnoresSigner(req: TokenRequest, config: Config, sign1: LiveKit.Signer, sign2: LiveKit.Signer)
    requires !HasAllParameters(req)
    ensures HandleTokenRequest(req, config, sign1) == HandleTokenRequest(req, config, sign2)
    ensures HandleTokenRequest(req, config, sign1).signerInput.None?
  {
  }

  /** Any non-empty role passes validation: roles are not restricted to doctor and patient. */
  lemma AnyRoleAccepted(userId: string, role: string, consultationId: string, config: Config, sign: LiveKit.Signer)
    requires userId != "" && role != "" && consultationId != ""
    ensures HandleTokenRequest(TokenRequest(Some(userId), Some(role), Some(consultationId)), config, sign).response.status != 400
  {
  }

  /** The room name is a function of the consultation id alone, and distinct consultations get distinct rooms. */
  lemma RoomNameDeterminedByConsultation(a: string, b: string)
    ensures RoomName(a) == RoomName(b) <==> a == b
  {
    if RoomName(a) == RoomName(b) {
      assert a == RoomName(a)[|RoomPrefix|..];
    }
  }

  /** Two valid requests for the same consultation rendezvous in the same room, whoever sends them. */
  lemma SameConsultationSameRoom(req1: TokenRequest, req2: TokenRequest, config1: Config, config2: Config,
                                 sign1: LiveKit.Signer, sign2: LiveKit.Signer)
    requires HasAllParameters(req1) && HasAllParameters(req2)
    requires req1.consultationId == req2.consultationId
    ensures HandleTokenRequest(req1, config1, sign1).signerInput.value.grant.room
         == HandleTokenRequest(req2, config2, sign2).signerInput.value.grant.room
         == RoomName(req1.consultationId.value)
  {
  }

  /** The same role with different user ids never yields the same identity. */
  lemma IdentityDistinguishesUsers(role: string, u1: string, u2: string)
    ensures Identity(role, u1) == Identity(role, u2) ==> u1 == u2
  {
    if Identity(role, u1) == Identity(role, u2) {
      assert u1 == Identity(role, u1)[|role| + 1..];
    }
  }

  /** The same user id under different roles never yields the same identity. */
  lemma IdentityDistinguishesRoles(r1: string, r2: string, userId: string)
    ensures Identity(r1, userId) == Identity(r2, userId) ==> r1 == r2
  {
    if Identity(r1, userId) == Identity(r2, userId) {
      assert |r1| == |r2|;
      assert r1 == Identity(r1, userId)[..|r1|];
    }
  }

  /** With no ':' in either role, the identity determines both the role and the user id. */
  lemma IdentityInjective(r1: string, u1: string, r2: string, u2: string)
    requires ':' !in r1 && ':' !in r2
    requires Identity(r1, u1) == Identity(r2, u2)
    ensures r1 == r2 && u1 == u2
  {
    var id := Identity(r1, u1);
    assert |r1| == |r2|;
    assert r1 == id[..|r1|] && r2 == id[..|r2|];
    assert u1 == id[|r1| + 1..] && u2 == id[|r2| + 1..];
  }

  /** Without that restriction the pairing is ambiguous: role "a:b" with user "c" is "a" with user "b:c". */
  lemma IdentityAmbiguousWithColonRole()
    ensures Identity("a:b", "c") == Identity("a", "b:c")
    ensures ("a:b", "c") != ("a", "b:c")
  {
  }

  /** The roles the clients send contain no ':', so their identities are unambiguous. */
  lemma ClientRolesHaveNoColon()
    ensures ':' !in "doctor" && ':' !in "patient"
  {
  }

  /** The credential's subject is the derived identity and its metadata carries the role. */
  lemma IssuedIdentity(req: TokenRequest, config: Config, sign: LiveKit.Signer)
    requires HasAllParameters(req)
    ensures HandleTokenRequest(req, config, sign).signerInput.value.options.identity
         == req.role.value + ":" + req.userId.value
    ensures LiveKit.RoleOfMetadata(HandleTokenRequest(req, config, sign).signerInput.value.options.metadata)
         == Some(req.role.value)
  {
  }

  /** `{userId: "u1", role: "doctor", consultationId: "abc456"}` gets room `consultation-abc456`. */
  lemma ExampleValidRequest(config: Config, sign: LiveKit.Signer)
    requires sign(HandleTokenRequest(TokenRequest(Some("u1"), Some("doctor"), Some("abc456")), config, sign).signerInput.value).Signed?
    ensures HandleTokenRequest(TokenRequest(Some("u1"), Some("doctor"), Some("abc456")), config, sign).response.body.roomName
         == "consultation-abc456"
  {
  }

  /** `{userId: "", role: "doctor", consultationId: "abc456"}` is rejected with 400. */
  lemma ExampleEmptyUserId(config: Config, sign: LiveKit.Signer)
    ensures HandleTokenRequest(TokenRequest(Some(""), Some("doctor"), Some("abc456")), config, sign).response
         == Response(400, ErrorBody("Missing parameters"))
  {
  }
}
