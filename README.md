# WebSocket gateway of the xiaozhi voice-assistant server

A Dafny model of `WebSocketServer`, the front door of the xiaozhi server
(`main/xiaozhi-server/core/websocket_server.py`). With the websockets and
asyncio plumbing removed, the gateway is a handful of decision rules plus a
little server state:

- **Identity normaliser** (`Identity`): the request headers are lower-cased
  into a dictionary (in the model, a later header overwrites an earlier one); `device-id`,
  `client-id` and `authorization` come from a non-empty header value, else
  from the first value of the same query parameter. No device id means the
  diagnostic message and a close, before authentication runs. The result is
  an explicit `IdentityRecord`, not an attribute hung on the socket.
- **Authentication decision** (`Auth`): disabled, allow-listed device, missing
  `"Bearer "` prefix, or a token the verifier rejects: three outcomes,
  `Allowed`, `MissingOrInvalidHeader`, `InvalidToken`. `verify_token` is an
  uninterpreted predicate (a function-typed parameter).
- **HTTP pre-accept filter** (`HttpFilter`): a WebSocket upgrade request
  proceeds; anything else gets status 200 with `Server is running\n`.
- **Module snapshot and hot reconfiguration** (`Modules`, and
  `Server.WebSocketServer.UpdateConfig`): the configuration and five module
  references, upserted slot by slot from the initialiser's result.
- **Connection lifecycle** (`Server.WebSocketServer.HandleConnection`): the
  handler is added to `activeConnections`, its loop runs (an opaque step that
  may raise), it is discarded, and the socket is closed once with any close
  error swallowed.

`Text` holds the string helpers: ASCII lower-casing, the substring test,
`startswith`, `str(n)` with its inverse, and ASCII byte literals.

Collaborators whose code is not part of this model are parameters:
`verify_token` (`Auth.TokenVerifier`), `initialize_modules`
(`Modules.Initializer`), `get_config_from_api` (`Modules.ConfigSource`),
`check_vad_update` / `check_asr_update` (`Modules.ChangeCheck`), and
`ConnectionHandler.handle_connection` (a flag saying whether it raises an
`Exception`; cancellation is left out).

Where the code differs from the gateway's intended all-or-nothing
reconfiguration, the code is modelled:

- `update_config` assigns `self.config` (line 178) before calling
  `initialize_modules` (line 180). An exception there is caught (lines
  204-206): the call returns `False`, the new configuration stays, and the
  modules stay as they were. `Modules.Reconfigure` and
  `Modules.RaisingRebuildKeepsNewConfig` state this mixed outcome.
- `update_config` never recomputes `auth_enable`, `allowed_devices` or
  `auth`. They are set once in `__init__` (lines 38-44), so a
  reconfiguration does not change the authentication policy.
  `UpdateConfig` ensures `Policy() == old(Policy())`.
- Only the final close (lines 124-136) never lets an error escape. After a handshake
  failure or an authentication failure, a failing `close()` escapes
  `_handle_connection`. On the diagnostic path, the close at line 75 is
  inside the handshake `try`. When it fails, the `except` clause at lines
  92-95 closes a second time, and an error escapes only if that retry fails
  too.

## Model

| member | source | states |
|---|---|---|
| `Identity.LowerKeys` | main/xiaozhi-server/core/websocket_server.py:61 | the lower-cased header dictionary has exactly the lower-cased header names as keys, and each key's value is the value of some header with that name |
| `Identity.LowerKeysLast` | main/xiaozhi-server/core/websocket_server.py:61 | the lower-cased header dictionary maps a name to the value of the last header with that name in any capitalisation |
| `Identity.LowerKeysAbsent` | main/xiaozhi-server/core/websocket_server.py:61-65 | a name no header carries, in any capitalisation, is absent from the dictionary, so `.get` gives `None` |
| `Identity.Normalise` | main/xiaozhi-server/core/websocket_server.py:61-95 | a non-empty header wins for each of the three fields; otherwise the first query value is used; client id and authorization otherwise keep the header's own (missing or empty) value; no device id from either source exactly when the result is `NoDeviceId`; the result is `Malformed` exactly when a lookup that actually runs hits an empty value list |
| `Identity.DeviceHeaderWins` | main/xiaozhi-server/core/websocket_server.py:61-76 | a non-empty `device-id` header under any capitalisation is never the diagnostic case and is the device id, whatever the query says |
| `Identity.ClientHeaderWins` | main/xiaozhi-server/core/websocket_server.py:61-85 | a non-empty `client-id` header under any capitalisation is the client id, whatever the query says |
| `Identity.AuthorizationHeaderWins` | main/xiaozhi-server/core/websocket_server.py:61-87 | a non-empty `authorization` header under any capitalisation is the credential, whatever the query says |
| `Identity.NoDeviceIdAnywhere` | main/xiaozhi-server/core/websocket_server.py:71-76 | no `device-id` header and no `device-id` query parameter yields the diagnostic outcome |
| `Auth.BearerToken` | main/xiaozhi-server/core/websocket_server.py:224-225 | the token handed to the verifier is the credential with the `"Bearer "` prefix removed: prefix plus token is the credential |
| `Auth.Authenticate` | main/xiaozhi-server/core/websocket_server.py:208-233 | disabled auth allows everyone; an allow-listed device is allowed whatever its credential; otherwise `MissingOrInvalidHeader` exactly when the credential (default `""`) lacks `"Bearer "`, and `InvalidToken` exactly when it has the prefix and the verifier rejects the stripped token for this client and device; `Allowed` exactly in the remaining cases |
| `Auth.TokenBoundToClient` | main/xiaozhi-server/core/websocket_server.py:223-233 | if the verifier binds each token to one client, a Bearer token shown by another client of a device that is not allow-listed is refused with `InvalidToken` |
| `HttpFilter.HealthResponse` | main/xiaozhi-server/core/websocket_server.py:150-155 | status 200, the 18-byte body `Server is running\n`, `Content-Type: text/plain; charset=utf-8`, and a `Content-Length` that reads back as the body length |
| `HttpFilter.ProcessRequest` | main/xiaozhi-server/core/websocket_server.py:138-155 | no response (the upgrade proceeds) exactly when `Connection` contains `upgrade` and `Upgrade` equals `websocket`, both ignoring case, with missing headers read as `""`; otherwise the health response |
| `HttpFilter.NoConnectionHeaderIsHealthCheck` | main/xiaozhi-server/core/websocket_server.py:141-148 | a request without any `Connection` header always gets the health response |
| `Text.ContainsIffOccurs` | main/xiaozhi-server/core/websocket_server.py:147 | the left-to-right substring test holds exactly when the pattern occurs at some index |
| `Text.ContainsLowerIffOccursIgnoringCase` | main/xiaozhi-server/core/websocket_server.py:147 | `"upgrade" in value.lower()` holds exactly when `upgrade` occurs in the value ignoring case |
| `Text.LowerEqualsIffEqualsIgnoringCase` | main/xiaozhi-server/core/websocket_server.py:147 | `value.lower() == "websocket"` holds exactly when the value equals `websocket` ignoring case |
| `Text.DecimalString` | main/xiaozhi-server/core/websocket_server.py:153 | `str(n)` is a non-empty string of decimal digits with no leading zero |
| `Text.DecimalRoundTrip` | main/xiaozhi-server/core/websocket_server.py:153 | parsing `str(n)` gives back `n` |
| `Modules.FromInit` | main/xiaozhi-server/core/websocket_server.py:30-34 | each of the five slots holds the initialiser's module for its key, or `None` when the key is missing |
| `Modules.UpdateRequest` | main/xiaozhi-server/core/websocket_server.py:172-189 | a reconfiguration asks for VAD and ASR only when their type changed; LLM, Memory and Intent are asked for exactly as at start-up (whenever selected); the sixth flag is always false |
| `Modules.UpsertAll` | main/xiaozhi-server/core/websocket_server.py:192-201 | a slot whose key the rebuild returned takes the new module; every other slot keeps its old reference |
| `Modules.Reconfigure` | main/xiaozhi-server/core/websocket_server.py:163-206 | a `None` fetch returns false and changes nothing; otherwise the configuration becomes the fetched one; success exactly when the rebuild does not raise; a raising rebuild keeps every module; a successful one upserts exactly the returned slots |
| `Modules.UnchangedVadAsrKept` | main/xiaozhi-server/core/websocket_server.py:171-195 | with an initialiser that builds only what it is asked for, an unchanged VAD or ASR type keeps the running VAD or ASR module |
| `Modules.RaisingRebuildKeepsNewConfig` | main/xiaozhi-server/core/websocket_server.py:178-206 | a raising rebuild leaves the fetched configuration beside the old modules and returns false |
| `Server.PolicyOf` | main/xiaozhi-server/core/websocket_server.py:38-44 | auth is enabled only when `server.auth.enabled` is set to true; the allow-list is the configured list as a set, empty when missing; the manager holds `auth_key` and `expire_seconds` (default `None`) |
| `Server.Handler.constructor` | main/xiaozhi-server/core/websocket_server.py:106-114 | a handler is pinned to the configuration, the module references and the server it was created with |
| `Server.WebSocketServer.constructor` | main/xiaozhi-server/core/websocket_server.py:16-44 | the configuration is the given one, the modules are the start-up initialiser's result with missing keys as `None`, the registry is empty, and the authentication settings derive from the configuration |
| `Server.WebSocketServer.HandleConnection` | main/xiaozhi-server/core/websocket_server.py:56-136 | handshake failure, diagnostic, rejection and service are decided by the normaliser and then the authentication decision; the client is sent the diagnostic, the auth-failure text, or nothing; close is attempted once, twice only on a diagnostic path whose first close fails; a close error escapes on every path except service (on the diagnostic path only when the retry close fails too); the registry ends as it began; a served handler is fresh, pinned to the current snapshot, registered while its loop runs and absent afterwards |
| `Server.WebSocketServer.SendDiagnostic` | main/xiaozhi-server/core/websocket_server.py:73-95 | the diagnostic is sent and the socket closed; a failing close is caught by the handshake `except` clause and closed once more, and an error escapes only when that second close fails too |
| `Server.WebSocketServer.SendAndClose` | main/xiaozhi-server/core/websocket_server.py:101-104 | the auth-failure text is sent and the socket closed once; a failing close escapes |
| `Server.WebSocketServer.Serve` | main/xiaozhi-server/core/websocket_server.py:106-136 | a fresh handler pinned to the current configuration and modules is in the registry while its loop runs; afterwards it is discarded, so the registry is as before and the handler absent, and the socket is closed exactly once with its error dropped |
| `Server.Handler.HandleConnection` | main/xiaozhi-server/core/websocket_server.py:117 | stand-in for the opaque processing loop `handle_connection`: it either returns or raises, as its `raises` input says, and touches nothing the gateway sees |
| `Server.Socket.Send` | main/xiaozhi-server/core/websocket_server.py:74 | `websocket.send`: the message is appended to what the client was sent; the close count is unchanged |
| `Server.Socket.Close` | main/xiaozhi-server/core/websocket_server.py:75-132 | `websocket.close`, as called at lines 75, 94, 103 and 127-132: one more close attempt is counted, nothing is sent, and whether this attempt raises depends on how many attempts came before it |
| `Server.WebSocketServer.UpdateConfig` | main/xiaozhi-server/core/websocket_server.py:157-206 | the new snapshot and the returned flag are those of `Reconfigure` on the old snapshot; the registry and the authentication settings are untouched |
| `Server.WebSocketServer.InstallModules` | main/xiaozhi-server/core/websocket_server.py:191-201 | the five module fields become the upsert of the rebuild's result into the old ones |

## Left out

- `start`, `websockets.serve` and `asyncio.Future` (lines 46-54): network I/O plumbing.
- The `asyncio.Lock` in `update_config` and any interleaving of connections. `UpdateConfig` is one sequential step, and `HandleConnection` assumes no other connection changes the registry while its handler runs.
- Logging (`setup_logging` and every `logger` call): it has no behaviour.
- `AuthManager.verify_token`, `initialize_modules`, `get_config_from_api`, `check_vad_update`, `check_asr_update` and `ConnectionHandler.handle_connection`. Their code is not part of this model, so they are parameters. The signing scheme and the expiry check inside `verify_token` are therefore not modelled.
- `urlparse` / `parse_qs` (blank-value dropping, percent-decoding): the query string arrives already parsed. An empty value list, which `parse_qs` never produces, is handled as the `IndexError` it would raise.
- websockets `Headers` semantics for repeated header names. In the source, `Headers.items()` reads each lower-cased name through `__getitem__`, which raises `MultipleValuesError` (a `LookupError`) when the name is repeated, and so does `Headers.get`. A repeated name therefore makes line 61 raise: the `except` at line 92 catches it and the socket is closed at line 94 with nothing sent, which is the handshake-failure path. At line 142 the same error propagates out of `_http_response`. The model's headers arrive as a sequence of name-value items, and `Identity.LowerKeys` and `HttpFilter.ProcessRequest` keep the last value of a repeated name. That is the model's own choice for a case it leaves out, not what the source does.
- The `hasattr`/`getattr` version probing (lines 126-132, 140, 211-215). Every branch of it calls `close()` once, and the merged headers are always present on the authentication path.
- The merged header dictionary that the handler reads from the socket: the model's handler carries only the configuration, the modules and the server.
- `HttpFilter.ProcessRequest`: lower-casing covers the ASCII letters only. Python's `str.lower()` also lowers other letters; the Kelvin sign, for example, lowers to `k`.
- `Identity.LowerKeys`: its `k.lower()` uses the same ASCII-only lower-casing, so a header name with a non-ASCII letter that Python lowers to an ASCII one is not matched.
- A `send()` that raises is not modelled. The diagnostic send (line 74) is inside the handshake `try`, so its exception would be caught at line 92 and the socket closed at line 94. The auth-failure send (line 102) would propagate out of `_handle_connection`.
- Exceptions raised by `verify_token` itself are not modelled. An `AuthenticationError` from it is caught at lines 99-104 like a rejection: "认证失败" is sent and the socket is closed. Any other exception propagates out of `_handle_connection`.
- Exceptions from `get_config_from_api` or the change checks end `update_config` exactly like a `None` fetch (false, nothing changed), so `ConfigSource` returning `None` covers them.
- `Server.WebSocketServer.constructor`: when `initialize_modules` raises, or `selected_module`, `server` or `auth_key` is missing, `__init__` raises and no server exists. The precondition states this, and configurations are modelled with the keys present. `enabled` is modelled as a boolean rather than as any truthy value.
- `loopRaises` in `HandleConnection` stands for an `Exception` raised by `handle_connection`, which lines 118 and 133 catch. Cancellation and other `BaseException`s (`asyncio.CancelledError`, `KeyboardInterrupt`) are left out with the asyncio plumbing. Such an exception still runs the `finally` at lines 120-136, which discards the handler and closes the socket once, but it then propagates out of `_handle_connection`. So the contract's `Served ==> !escaped` covers only loops that return or raise an `Exception`.
- The handler loop's own traffic on the socket, and any effect it has on the server through its `server` reference.
- Module instances are opaque references. `Modules.InitOutcome` maps keys to modules, never to `None`, so the model assumes `initialize_modules` never returns a `None` entry. In the source such an entry, for example `{"vad": None}`, passes the `in` tests at lines 192-201 and replaces the running reference with `None`.
- `Server.WebSocketServer.HandleConnection`: the `ConnectionHandler(...)` constructor at lines 106-114 is assumed never to raise. In the source it runs outside any `try`. If it raises, nothing is added to `active_connections`, no `close()` is attempted, and the exception escapes `_handle_connection`. That fifth outcome is not modelled.
- The sixth flag passed to `initialize_modules` (always `False`) has a parameter name that is not part of this model, so it is called `sixth`.
