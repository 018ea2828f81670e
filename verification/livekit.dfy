/**
 * `generateLiveKitToken` (server/livekit.js): the contents of the access token the
 * media server later verifies. Signing (`toJwt`) is a foreign cryptographic call and
 * stays abstract: it is a parameter of type `Signer`.
 */
module LiveKit {

  import opened Optional
  import Json

  /** Token lifetime in seconds: sixty seconds times thirty. */
  const TokenTtl: nat := 60 * 30

  /** The process-wide signing key pair (`LIVEKIT_API_KEY`, `LIVEKIT_API_SECRET`); either may be unset. */
  datatype ApiKeys = ApiKeys(apiKey: Option<string>, apiSecret: Option<string>)

  /** The options record given to the `AccessToken` constructor. */
  datatype TokenOptions = TokenOptions(identity: string, metadata: string, ttl: nat)

  /** The video grant added with `addGrant`. */
  datatype VideoGrant = VideoGrant(room: string, roomJoin: bool, canPublish: bool, canSubscribe: bool)

  /** An unsigned access token: the keys it will be signed with, its options and its grant. */
  datatype AccessToken = AccessToken(keys: ApiKeys, options: TokenOptions, grant: VideoGrant)

  /** What signing yields: the JWT string, or the error the library threw. */
  datatype SignResult = Signed(jwt: string) | SignFailed(reason: string)

  /** The signing library (`AccessToken` constructor checks and `toJwt`), left abstract. */
  type Signer = AccessToken -> SignResult

  /** `JSON.stringify({ role })` for a string role. */
  function RoleMetadata(role: string): (m: string)
    ensures |m| >= 11 && m[..9] == "{\"role\":\"" && m[|m| - 2..] == "\"}"
  {
    "{\"role\":" + Json.Quote(role) + "}"
  }

  /** Reads a metadata blob of the shape `{"role":"..."}` back into the role it carries. */
  function RoleOfMetadata(m: string): Option<string>
  {
    if |m| >= 11 && m[..9] == "{\"role\":\"" && m[|m| - 2..] == "\"}" then Json.Unescape(m[9..|m| - 2])
    else None
  }

  /** The metadata carries the role and nothing else: reading it back gives exactly the role. */
  lemma MetadataCarriesRole(role: string)
    ensures RoleOfMetadata(RoleMetadata(role)) == Some(role)
  {
    var m := RoleMetadata(role);
    assert m[9..|m| - 2] == Json.Escape(role);
    Json.UnescapeEscape(role);
  }

  /** The token `generateLiveKitToken` builds before signing it. */
  function BuildAccessToken(keys: ApiKeys, roomName: string, identity: string, role: string): (t: AccessToken)
    ensures t.keys == keys
    ensures t.options.identity == identity
    ensures RoleOfMetadata(t.options.metadata) == Some(role)
    ensures t.options.ttl == 1800
    ensures t.grant.room == roomName
    ensures t.grant.roomJoin && t.grant.canPublish && t.grant.canSubscribe
  {
    MetadataCarriesRole(role);
    AccessToken(keys, TokenOptions(identity, RoleMetadata(role), TokenTtl), VideoGrant(roomName, true, true, true))
  }

  /** Every role receives the same maximal grant: the role only reaches the metadata. */
  lemma GrantIgnoresRole(keys: ApiKeys, roomName: string, identity: string, role1: string, role2: string)
    ensures BuildAccessToken(keys, roomName, identity, role1).grant == BuildAccessToken(keys, roomName, identity, role2).grant
    ensures role1 != role2 ==> BuildAccessToken(keys, roomName, identity, role1) != BuildAccessToken(keys, roomName, identity, role2)
  {
    MetadataCarriesRole(role1);
    MetadataCarriesRole(role2);
  }

  /**
   * `generateLiveKitToken({ roomName, identity, role })`: the signer's JWT on success; a
   * signing error is rethrown unchanged (the `catch` only logs).
   */
  function GenerateLiveKitToken(keys: ApiKeys, roomName: string, identity: string, role: string, sign: Signer): (r: SignResult)
    ensures r == sign(BuildAccessToken(keys, roomName, identity, role))
  {
    var t := BuildAccessToken(keys, roomName, identity, role);
    sign(t)
  }
}
