/**
 * `WebSocketServer`: the server state (configuration, five module
 * references, the registry of live handlers, the authentication settings)
 * and the three operations that change it: construction, one connection's
 * lifecycle, and hot reconfiguration.
 */
module Server {
  import opened Wrappers
  import opened Identity
  import opened Auth
  import opened Modules

  /** Sent when neither headers nor query carry a device id ("port is fine; use test_page.html to test"). */
  const DiagnosticMessage := "端口正常，如需测试连接，请使用test_page.html"

  /** Sent when authentication fails ("authentication failed"). */
  const AuthFailureMessage := "认证失败"

  /**
   * The authentication settings `__init__` derives from a configuration:
   * `server.auth` defaults to `{}`, `enabled` to `False`, `allowed_devices`
   * to `[]` and `expire_seconds` to `None`.
   */
  function PolicyOf(c: Config): (p: AuthPolicy)
    ensures p.enabled <==> c.auth.Some? && c.auth.value.enabled == Some(true)
    ensures forall d :: d in p.allowedDevices <==>
              c.auth.Some? && c.auth.value.allowedDevices.Some? && d in c.auth.value.allowedDevices.value
    ensures p.manager.secretKey == c.authKey
    ensures p.manager.expireSeconds == if c.auth.Some? then c.auth.value.expireSeconds else None
  {
    var a := c.auth.GetOr(AuthSection(None, None, None));
    var devices := a.allowedDevices.GetOr([]);
    AuthPolicy(a.enabled.GetOr(false), (set d | d in devices), AuthManager(c.authKey, a.expireSeconds))
  }

  /**
   * The client's transport as the gateway sees it: the messages it sent and
   * the number of `close()` calls. `closeRaises(n)` says whether the call of
   * `close()` made after `n` earlier calls raises.
   */
  class Socket {
    var sent: seq<string>
    var closeAttempts: nat
    const closeRaises: nat -> bool

    constructor(closeRaises: nat -> bool)
      ensures sent == [] && closeAttempts == 0 && this.closeRaises == closeRaises
    {
      sent := [];
      closeAttempts := 0;
      this.closeRaises := closeRaises;
    }

    method Send(message: string)
      modifies this
      ensures sent == old(sent) + [message] && closeAttempts == old(closeAttempts)
    {
      sent := sent + [message];
    }

    /** `close()`: counted; `raised` reports whether this attempt throws. */
    method Close() returns (raised: bool)
      modifies this
      ensures sent == old(sent) && closeAttempts == old(closeAttempts) + 1
      ensures raised == closeRaises(old(closeAttempts))
    {
      raised := closeRaises(closeAttempts);
      closeAttempts := closeAttempts + 1;
    }
  }

  /**
   * A `ConnectionHandler`: pinned at construction to the configuration and
   * module references of that moment; later reconfigurations do not reach it.
   */
  class Handler {
    const config: Config
    const modules: ModuleSet
    const server: WebSocketServer

    constructor(config: Config, modules: ModuleSet, server: WebSocketServer)
      ensures this.config == config && this.modules == modules && this.server == server
    {
      this.config := config;
      this.modules := modules;
      this.server := server;
    }

    /** `handle_connection(websocket)`: the processing loop, opaque here; it either returns or raises. */
    method HandleConnection(ws: Socket, raises: bool) returns (raised: bool)
      ensures raised == raises
    {
      raised := raises;
    }
  }

  /** How one call of `_handle_connection` ended. */
  datatype ConnectionOutcome =
    | HandshakeFailed                           // a handshake lookup raised: closed, nothing sent
    | Diagnosed                                 // no device id: diagnostic sent, closed
    | Rejected(decision: Decision)              // authentication failed with this reason
    | Served(handler: Handler, loopRaised: bool) // a handler ran to completion or raised

  class WebSocketServer {
    var config: Config
    var vad: Option<Module>
    var asr: Option<Module>
    var llm: Option<Module>
    var intent: Option<Module>
    var memory: Option<Module>
    var activeConnections: set<Handler>
    var authEnable: bool
    var allowedDevices: set<string>
    var auth: AuthManager

    function ModuleRefs(): ModuleSet
      reads this
    {
      ModuleSet(vad, asr, llm, intent, memory)
    }

    function Current(): Modules.Snapshot
      reads this
    {
      Modules.Snapshot(config, ModuleRefs())
    }

    function Policy(): AuthPolicy
      reads this
    {
      AuthPolicy(authEnable, allowedDevices, auth)
    }

    /**
     * `__init__`: the modules the initial configuration selects; a module
     * the initialiser did not return is `None`. When the initialiser raises,
     * no server comes into being, hence the precondition.
     */
    constructor(config: Config, init: Initializer)
      requires init(config, StartupRequest(config)).Initialized?
      ensures this.config == config
      ensures ModuleRefs() == FromInit(init(config, StartupRequest(config)).modules)
      ensures activeConnections == {}
      ensures Policy() == PolicyOf(config)
    {
      this.config := config;
      var modules := init(config, StartupRequest(config)).modules;
      vad := Get(modules, "vad");
      asr := Get(modules, "asr");
      llm := Get(modules, "llm");
      intent := Get(modules, "intent");
      memory := Get(modules, "memory");
      activeConnections := {};
      var policy := PolicyOf(config);
      authEnable := policy.enabled;
      allowedDevices := policy.allowedDevices;
      auth := policy.manager;
    }

    /**
     * `_handle_connection`: identify, authenticate, then register a handler
     * for the duration of its loop. `registered` is the registry while the
     * loop runs; `escaped` says whether an exception leaves the call.
     */
    method HandleConnection(ws: Socket, headers: HeaderItems, query: QueryParams, verify: TokenVerifier,
                            loopRaises: bool)
      returns (outcome: ConnectionOutcome, escaped: bool, ghost registered: set<Handler>)
      modifies this`activeConnections, ws
      // identity first: its failures are decided before authentication runs
      ensures outcome == HandshakeFailed <==> Normalise(headers, query) == Malformed
      ensures outcome == Diagnosed <==> Normalise(headers, query) == NoDeviceId
      ensures outcome.Rejected? <==>
                Normalise(headers, query).Identified? &&
                Authenticate(Policy(), Normalise(headers, query).id, verify) != Allowed
      ensures outcome.Rejected? ==> outcome.decision == Authenticate(Policy(), Normalise(headers, query).id, verify)
      // what the client is sent by the gateway
      ensures ws.sent == old(ws.sent) + (match outcome
                                         case Diagnosed => [DiagnosticMessage]
                                         case Rejected(_) => [AuthFailureMessage]
                                         case _ => [])
      // close is attempted once, except on the diagnostic path whose failing close is retried by the except clause
      ensures ws.closeAttempts ==
                old(ws.closeAttempts) + (if outcome == Diagnosed && ws.closeRaises(old(ws.closeAttempts)) then 2 else 1)
      // the final close is guarded: nothing escapes once a handler was served
      ensures outcome.Served? ==> !escaped
      // a failing close escapes after a handshake failure or a rejection
      ensures outcome == HandshakeFailed || outcome.Rejected? ==> (escaped <==> ws.closeRaises(old(ws.closeAttempts)))
      // after the diagnostic, an error escapes only when the retry close fails as well
      ensures outcome == Diagnosed ==>
                (escaped <==> ws.closeRaises(old(ws.closeAttempts)) && ws.closeRaises(old(ws.closeAttempts) + 1))
      // the registry is back to what it was, whatever the loop did
      ensures activeConnections == old(activeConnections)
      ensures !outcome.Served? ==> registered == old(activeConnections)
      ensures outcome.Served? ==>
                && fresh(outcome.handler)
                && outcome.handler.config == config && outcome.handler.modules == ModuleRefs()
                && outcome.handler.server == this
                && outcome.loopRaised == loopRaises
                && registered == old(activeConnections) + {outcome.handler}
                && outcome.handler !in activeConnections
    {
      registered := activeConnections;
      var handshake := Normalise(headers, query);
      if handshake.Malformed? {
        escaped := ws.Close();
        outcome := HandshakeFailed;
        return;
      }
      if handshake.NoDeviceId? {
        escaped := SendDiagnostic(ws);
        outcome := Diagnosed;
        return;
      }
      var decision := Authenticate(Policy(), handshake.id, verify);
      if decision != Allowed {
        escaped := SendAndClose(ws, AuthFailureMessage);
        outcome := Rejected(decision);
        return;
      }
      var handler, loopRaised;
      handler, loopRaised, registered := Serve(ws, loopRaises);
      escaped := false;
      outcome := Served(handler, loopRaised);
    }

    /**
     * Lines 74-75 with the handshake's `except` clause (lines 92-95): send
     * the diagnostic and close; a failing close is logged and retried once,
     * and only a failing retry escapes.
     */
    method SendDiagnostic(ws: Socket) returns (escaped: bool)
      modifies ws
      ensures ws.sent == old(ws.sent) + [DiagnosticMessage]
      ensures ws.closeAttempts == old(ws.closeAttempts) + (if ws.closeRaises(old(ws.closeAttempts)) then 2 else 1)
      ensures escaped <==> ws.closeRaises(old(ws.closeAttempts)) && ws.closeRaises(old(ws.closeAttempts) + 1)
    {
      ws.Send(DiagnosticMessage);
      var raised := ws.Close();
      if raised {
        escaped := ws.Close();
      } else {
        escaped := false;
      }
    }

    /** Lines 102-103: send the message and close; nothing guards the close. */
    method SendAndClose(ws: Socket, message: string) returns (escaped: bool)
      modifies ws
      ensures ws.sent == old(ws.sent) + [message] && ws.closeAttempts == old(ws.closeAttempts) + 1
      ensures escaped == ws.closeRaises(old(ws.closeAttempts))
    {
      ws.Send(message);
      escaped := ws.Close();
    }

    /**
     * Lines 106-136 of `_handle_connection`: build a handler on the current
     * snapshot, register it, run its loop, and in `finally` discard it and
     * close the socket once, logging and dropping any close error.
     */
    method Serve(ws: Socket, loopRaises: bool) returns (handler: Handler, loopRaised: bool, ghost registered: set<Handler>)
      modifies this`activeConnections, ws
      ensures fresh(handler)
      ensures handler.config == config && handler.modules == ModuleRefs() && handler.server == this
      ensures loopRaised == loopRaises
      ensures registered == old(activeConnections) + {handler}
      ensures activeConnections == old(activeConnections) && handler !in activeConnections
      ensures ws.sent == old(ws.sent) && ws.closeAttempts == old(ws.closeAttempts) + 1
    {
      handler := new Handler(config, ModuleRefs(), this);
      activeConnections := activeConnections + {handler};
      registered := activeConnections;
      loopRaised := handler.HandleConnection(ws, loopRaises);
      // finally: discard (a no-op if absent), then one close whose error is logged and dropped
      activeConnections := activeConnections - {handler};
      var closeRaised := ws.Close();
    }

    /**
     * `update_config`, as one sequential step (the lock only serialises
     * calls). The configuration source, the two change checks and the
     * initialiser are the collaborators.
     */
    method UpdateConfig(fetch: ConfigSource, vadChanged: ChangeCheck, asrChanged: ChangeCheck, init: Initializer)
      returns (ok: bool)
      modifies this`config, this`vad, this`asr, this`llm, this`intent, this`memory
      ensures Current() == Reconfigure(old(Current()), fetch, vadChanged, asrChanged, init).0
      ensures ok == Reconfigure(old(Current()), fetch, vadChanged, asrChanged, init).1
      // neither the registry nor the authentication settings are touched
      ensures activeConnections == old(activeConnections)
      ensures Policy() == old(Policy())
    {
      ghost var before := Current();
      ghost var expected := Reconfigure(before, fetch, vadChanged, asrChanged, init);
      var fetched := fetch(config);
      if fetched.None? {
        assert expected == (before, false);
        return false;
      }
      var newConfig := fetched.value;
      var updateVad := vadChanged(config, newConfig);
      var updateAsr := asrChanged(config, newConfig);
      config := newConfig;
      var result := init(newConfig, UpdateRequest(newConfig, updateVad, updateAsr));
      if result.InitRaised? {
        assert expected == (Modules.Snapshot(newConfig, before.modules), false);
        return false;
      }
      var modules := result.modules;
      assert expected == (Modules.Snapshot(newConfig, UpsertAll(before.modules, modules)), true);
      assert config == newConfig;
      InstallModules(modules);
      return true;
    }

    /** Lines 192-201: each module slot whose key the rebuild returned takes the new module. */
    method InstallModules(modules: map<string, Module>)
      modifies this`vad, this`asr, this`llm, this`intent, this`memory
      ensures ModuleRefs() == UpsertAll(old(ModuleRefs()), modules)
    {
      if "vad" in modules {
        vad := Some(modules["vad"]);
      }
      if "asr" in modules {
        asr := Some(modules["asr"]);
      }
      if "llm" in modules {
        llm := Some(modules["llm"]);
      }
      if "intent" in modules {
        intent := Some(modules["intent"]);
      }
      if "memory" in modules {
        memory := Some(modules["memory"]);
      }
    }
  }
}
