/**
 * The authentication decision of `WebSocketServer._handle_auth`. Token
 * verification (`AuthManager.verify_token`) is a collaborator whose code is
 * not part of this model; it is passed in as an uninterpreted predicate.
 */
module Auth {
  import opened Wrappers
  import opened Text
  import opened Identity

  /** `AuthManager(secret_key, expire_seconds)`. */
  datatype AuthManager = AuthManager(secretKey: string, expireSeconds: Option<int>)

  /** What the server keeps for authentication: `auth_enable`, `allowed_devices` and `auth`. */
  datatype AuthPolicy = AuthPolicy(enabled: bool, allowedDevices: set<string>, manager: AuthManager)

  /**
   * `verify_token(token, client_id=..., username=...)` under a given manager:
   * the arguments are the manager, the token, the client id and the device id.
   */
  type TokenVerifier = (AuthManager, string, Option<string>, string) -> bool

  /** The three outcomes: pass, or one of the two `AuthenticationError` reasons. */
  datatype Decision = Allowed | MissingOrInvalidHeader | InvalidToken

  const BearerPrefix := "Bearer "

  /** `headers.get("authorization", "")`. */
  function Credential(id: IdentityRecord): string {
    id.authorization.GetOr("")
  }

  /** `allowed_devices and device_id in allowed_devices`. */
  predicate AllowListed(policy: AuthPolicy, deviceId: string) {
    policy.allowedDevices != {} && deviceId in policy.allowedDevices
  }

  /** The token handed to the verifier: the credential without its first seven characters. */
  function BearerToken(credential: string): (t: string)
    requires StartsWith(credential, BearerPrefix)
    ensures BearerPrefix + t == credential
  {
    credential[7..]
  }

  function Authenticate(policy: AuthPolicy, id: IdentityRecord, verify: TokenVerifier): (d: Decision)
    // auth switched off: everybody passes
    ensures !policy.enabled ==> d == Allowed
    // an allow-listed device passes without any credential check
    ensures policy.enabled && id.deviceId in policy.allowedDevices ==> d == Allowed
    // everybody else needs a "Bearer " credential ...
    ensures d == MissingOrInvalidHeader <==>
              policy.enabled && id.deviceId !in policy.allowedDevices && !StartsWith(Credential(id), BearerPrefix)
    // ... whose token the verifier accepts for this client and device
    ensures d == InvalidToken <==>
              policy.enabled && id.deviceId !in policy.allowedDevices && StartsWith(Credential(id), BearerPrefix) &&
              !verify(policy.manager, Credential(id)[|BearerPrefix|..], id.clientId, id.deviceId)
    ensures d == Allowed <==>
              !policy.enabled || id.deviceId in policy.allowedDevices ||
              (StartsWith(Credential(id), BearerPrefix) &&
               verify(policy.manager, Credential(id)[|BearerPrefix|..], id.clientId, id.deviceId))
  {
    if !policy.enabled then Allowed
    else if AllowListed(policy, id.deviceId) then Allowed
    else
      var token := Credential(id);
      if !StartsWith(token, BearerPrefix) then MissingOrInvalidHeader
      else if !verify(policy.manager, BearerToken(token), id.clientId, id.deviceId) then InvalidToken
      else Allowed
  }

  /**
   * When the verifier binds a token to one client, a Bearer token presented
   * by a different client of a device that is not allow-listed is refused.
   */
  lemma TokenBoundToClient(policy: AuthPolicy, id: IdentityRecord, verify: TokenVerifier,
                           boundClient: string -> Option<string>)
    requires forall m, t, c, dev :: verify(m, t, c, dev) ==> c == boundClient(t)
    requires policy.enabled && id.deviceId !in policy.allowedDevices
    requires StartsWith(Credential(id), BearerPrefix)
    requires boundClient(BearerToken(Credential(id))) != id.clientId
    ensures Authenticate(policy, id, verify) == InvalidToken
  {
  }
}
