/**
 * The server's configuration and its five shared processing modules, and
 * the pure specification of `update_config`: fetch a new configuration,
 * replace the configuration, rebuild modules, upsert each module slot.
 */
module Modules {
  import opened Wrappers

  /** `config["server"]["auth"]`: each key may be missing and then takes its default. */
  datatype AuthSection = AuthSection(enabled: Option<bool>, allowedDevices: Option<seq<string>>,
                                     expireSeconds: Option<int>)

  /**
   * The parts of the configuration dictionary the server reads:
   * `selected_module` (capability name to provider name),
   * `server.auth` (possibly missing) and `server.auth_key`.
   */
  datatype Config = Config(selectedModule: map<string, string>, auth: Option<AuthSection>, authKey: string)

  /** A module instance built by `initialize_modules`, known only by reference. */
  datatype Module = Module(kind: string, instance: nat)

  datatype ModuleKind = Vad | Asr | Llm | Intent | Memory {
    /** The key under which `initialize_modules` returns this module. */
    function Key(): string {
      match this
      case Vad => "vad"
      case Asr => "asr"
      case Llm => "llm"
      case Intent => "intent"
      case Memory => "memory"
    }
  }

  /** The five module references `_vad`, `_asr`, `_llm`, `_intent`, `_memory`. */
  datatype ModuleSet = ModuleSet(vad: Option<Module>, asr: Option<Module>, llm: Option<Module>,
                                 intent: Option<Module>, memory: Option<Module>) {
    function Get(k: ModuleKind): Option<Module> {
      match k
      case Vad => vad
      case Asr => asr
      case Llm => llm
      case Intent => intent
      case Memory => memory
    }
  }

  /**
   * The six flags passed to `initialize_modules` after logger and config,
   * in order: VAD, ASR, LLM, the sixth capability (always `False` here),
   * Memory, Intent.
   */
  datatype InitRequest = InitRequest(vad: bool, asr: bool, llm: bool, sixth: bool, memory: bool, intent: bool)

  /** `initialize_modules` returns a dictionary of modules, or raises. */
  datatype InitOutcome = Initialized(modules: map<string, Module>) | InitRaised

  /** The module initialiser, a collaborator whose code is not part of this model. */
  type Initializer = (Config, InitRequest) -> InitOutcome

  /** The flags `__init__` requests: every selected capability except the sixth. */
  function StartupRequest(c: Config): InitRequest
  {
    InitRequest("VAD" in c.selectedModule, "ASR" in c.selectedModule, "LLM" in c.selectedModule, false,
                "Memory" in c.selectedModule, "Intent" in c.selectedModule)
  }

  /**
   * The flags `update_config` requests: VAD and ASR only when their type
   * changed, LLM, Memory and Intent whenever selected.
   */
  function UpdateRequest(c: Config, updateVad: bool, updateAsr: bool): (r: InitRequest)
    ensures r.vad == updateVad && r.asr == updateAsr && !r.sixth
    ensures r.llm == StartupRequest(c).llm && r.memory == StartupRequest(c).memory && r.intent == StartupRequest(c).intent
  {
    InitRequest(updateVad, updateAsr, "LLM" in c.selectedModule, false,
                "Memory" in c.selectedModule, "Intent" in c.selectedModule)
  }

  /** `modules[key] if key in modules else None` for all five slots. */
  function FromInit(m: map<string, Module>): (r: ModuleSet)
    ensures forall k: ModuleKind :: r.Get(k) == if k.Key() in m then Some(m[k.Key()]) else None
  {
    ModuleSet(Get(m, "vad"), Get(m, "asr"), Get(m, "llm"), Get(m, "intent"), Get(m, "memory"))
  }

  function Upsert(current: Option<Module>, m: map<string, Module>, key: string): Option<Module> {
    if key in m then Some(m[key]) else current
  }

  /** `if key in modules: self._x = modules[key]` for all five slots. */
  function UpsertAll(s: ModuleSet, m: map<string, Module>): (r: ModuleSet)
    ensures forall k: ModuleKind :: r.Get(k) == if k.Key() in m then Some(m[k.Key()]) else s.Get(k)
    // an empty rebuild leaves every module reference in place
    ensures m == map[] ==> r == s
  {
    ModuleSet(Upsert(s.vad, m, "vad"), Upsert(s.asr, m, "asr"), Upsert(s.llm, m, "llm"),
              Upsert(s.intent, m, "intent"), Upsert(s.memory, m, "memory"))
  }

  /** The state `update_config` reads and writes. */
  datatype Snapshot = Snapshot(config: Config, modules: ModuleSet)

  /** The configuration source `get_config_from_api`: a new configuration or `None`. */
  type ConfigSource = Config -> Option<Config>

  /** `check_vad_update(old, new)` / `check_asr_update(old, new)`. */
  type ChangeCheck = (Config, Config) -> bool

  /**
   * One `update_config` call: the new snapshot and the returned flag. The
   * configuration is replaced before the modules are rebuilt, so a rebuild
   * that raises leaves the new configuration beside the old modules.
   */
  function Reconfigure(s: Snapshot, fetch: ConfigSource, vadChanged: ChangeCheck, asrChanged: ChangeCheck,
                       init: Initializer): (r: (Snapshot, bool))
    // fetch failed: false, and nothing changed
    ensures fetch(s.config).None? ==> r == (s, false)
    // fetch succeeded: the configuration is the fetched one, whatever happens next
    ensures fetch(s.config).Some? ==> r.0.config == fetch(s.config).value
    // success exactly when the fetch and the rebuild both succeed
    ensures r.1 <==>
              (fetch(s.config).Some? &&
               init(fetch(s.config).value,
                    UpdateRequest(fetch(s.config).value,
                                  vadChanged(s.config, fetch(s.config).value),
                                  asrChanged(s.config, fetch(s.config).value))).Initialized?)
    // a failed rebuild touches no module
    ensures !r.1 ==> r.0.modules == s.modules
    // a successful rebuild replaces exactly the slots it returned
    ensures r.1 ==>
              var n := fetch(s.config).value;
              var m := init(n, UpdateRequest(n, vadChanged(s.config, n), asrChanged(s.config, n))).modules;
              forall k: ModuleKind :: r.0.modules.Get(k) == if k.Key() in m then Some(m[k.Key()]) else s.modules.Get(k)
  {
    match fetch(s.config)
    case None => (s, false)
    case Some(n) =>
      var request := UpdateRequest(n, vadChanged(s.config, n), asrChanged(s.config, n));
      match init(n, request)
      case InitRaised => (Snapshot(n, s.modules), false)
      case Initialized(m) => (Snapshot(n, UpsertAll(s.modules, m)), true)
  }

  /** The initialiser returns only the modules it was asked to build. */
  ghost predicate BuildsOnlyRequested(init: Initializer) {
    forall c, q :: init(c, q).Initialized? ==>
      ("vad" in init(c, q).modules ==> q.vad) && ("asr" in init(c, q).modules ==> q.asr)
  }

  /**
   * With such an initialiser, an unchanged VAD or ASR type keeps the running
   * VAD or ASR instance across a reconfiguration.
   */
  lemma UnchangedVadAsrKept(s: Snapshot, fetch: ConfigSource, vadChanged: ChangeCheck, asrChanged: ChangeCheck,
                            init: Initializer)
    requires BuildsOnlyRequested(init)
    requires fetch(s.config).Some?
    ensures !vadChanged(s.config, fetch(s.config).value) ==>
              Reconfigure(s, fetch, vadChanged, asrChanged, init).0.modules.vad == s.modules.vad
    ensures !asrChanged(s.config, fetch(s.config).value) ==>
              Reconfigure(s, fetch, vadChanged, asrChanged, init).0.modules.asr == s.modules.asr
  {
  }

  /**
   * A rebuild that raises leaves a mixed snapshot: the fetched configuration
   * with every module of the previous one.
   */
  lemma RaisingRebuildKeepsNewConfig(s: Snapshot, fetch: ConfigSource, vadChanged: ChangeCheck,
                                     asrChanged: ChangeCheck, init: Initializer)
    requires fetch(s.config).Some?
    requires init(fetch(s.config).value,
                  UpdateRequest(fetch(s.config).value, vadChanged(s.config, fetch(s.config).value),
                                asrChanged(s.config, fetch(s.config).value))) == InitRaised
    ensures Reconfigure(s, fetch, vadChanged, asrChanged, init) == (Snapshot(fetch(s.config).value, s.modules), false)
  {
  }
}
