/** The per-session state dictionary of app.py and its lazy initialiser
    `setup_state`, the default-model lookup `_reset_model`, and the two
    callbacks that record tool outputs and raw API responses.

    The dictionary holds at most the eleven keys `setup_state` manages, so it
    is a record with one optional entry per key: `None` is an absent key, and
    a key that a caller filled in beforehand may hold any value. Everything
    `setup_state` reads from outside the dictionary (the `API_PROVIDER`
    environment variable, the stored system prompt, the platform name and the
    provider-to-model table of the unseen loop module) is passed in as `Env`. */
module Session {
  import opened Wrappers

  /** A Python value as it can sit in the state dictionary. */
  datatype Value =
    | Str(s: string)
    | Bool(b: bool)
    | Int(i: int)
    | List(items: seq<Value>)
    | Dict(entries: map<string, Value>)

  /** The state dictionary, one field per key: "messages", "api_key",
      "provider", "provider_radio", "model", "auth_validated", "responses",
      "tools", "only_n_most_recent_images", "custom_system_prompt" and
      "hide_images". */
  datatype State = State(
    messages: Option<Value>,
    apiKey: Option<Value>,
    provider: Option<Value>,
    providerRadio: Option<Value>,
    model: Option<Value>,
    authValidated: Option<Value>,
    responses: Option<Value>,
    tools: Option<Value>,
    onlyNMostRecentImages: Option<Value>,
    customSystemPrompt: Option<Value>,
    hideImages: Option<Value>)

  /** The fresh dictionary `{}` that both HTTP routes start from. */
  const Empty := State(None, None, None, None, None, None, None, None, None, None, None)

  /** Python's `{}` as a value. */
  const EmptyDict: Value := Dict(map[])

  /** What `setup_state` reads besides the dictionary: `os.getenv("API_PROVIDER")`,
      `load_from_storage("system_prompt")`, `platform.system()` and
      `PROVIDER_TO_DEFAULT_MODEL_NAME`, keyed by provider name. */
  datatype Env = Env(
    apiProvider: Option<string>,
    storedPrompt: Option<string>,
    system: string,
    defaultModels: map<string, string>)

  /** What a dictionary lookup raises: `KeyError` for a missing key, `TypeError`
      for a key Python cannot hash. */
  datatype Fault = KeyError(key: Value) | TypeError(unhashable: Value)

  /** `setup_state` raised part-way: the fault, and the dictionary as the
      in-place updates before the raise left it. */
  datatype Interrupted = Interrupted(fault: Fault, partial: State)

  /** The placeholder key that `setup_state` stores under "api_key". */
  const AnthropicKey := "*************************FILL THE API KEY************************"

  /** An entry the dictionary held is still there with the same value. */
  predicate Kept(before: Option<Value>, after: Option<Value>) {
    before.Some? ==> after == before
  }

  /** Every key of `s` is still in `r` and holds the same value. */
  predicate Keeps(s: State, r: State) {
    && Kept(s.messages, r.messages)
    && Kept(s.apiKey, r.apiKey)
    && Kept(s.provider, r.provider)
    && Kept(s.providerRadio, r.providerRadio)
    && Kept(s.model, r.model)
    && Kept(s.authValidated, r.authValidated)
    && Kept(s.responses, r.responses)
    && Kept(s.tools, r.tools)
    && Kept(s.onlyNMostRecentImages, r.onlyNMostRecentImages)
    && Kept(s.customSystemPrompt, r.customSystemPrompt)
    && Kept(s.hideImages, r.hideImages)
  }

  /** The four keys filled before the model lookup are present. */
  predicate HasHeadKeys(s: State) {
    s.messages.Some? && s.apiKey.Some? && s.provider.Some? && s.providerRadio.Some?
  }

  /** The six keys filled after the model lookup are present. */
  predicate HasTailKeys(s: State) {
    && s.authValidated.Some? && s.responses.Some? && s.tools.Some?
    && s.onlyNMostRecentImages.Some? && s.customSystemPrompt.Some? && s.hideImages.Some?
  }

  /** All eleven keys are present. */
  predicate Complete(s: State) {
    HasHeadKeys(s) && s.model.Some? && HasTailKeys(s)
  }

  /** The `if key not in state: state[key] = v` step on one entry. */
  function Fill(entry: Option<Value>, v: Value): Option<Value> {
    if entry.Some? then entry else Some(v)
  }

  /** `os.getenv("API_PROVIDER", "anthropic") or APIProvider.ANTHROPIC`: an unset
      or empty variable both give "anthropic". */
  function DefaultProvider(apiProvider: Option<string>): (r: string)
    ensures r != ""
    ensures apiProvider.Some? && apiProvider.value != "" ==> r == apiProvider.value
    ensures apiProvider.None? || apiProvider.value == "" ==> r == "anthropic"
  {
    match apiProvider
    case Some(p) => if p == "" then "anthropic" else p
    case None => "anthropic"
  }

  /** The machine name written into the system prompt, from `platform.system()`. */
  function DeviceName(system: string): (r: string)
    ensures r in {"Windows", "Mac", "Linux"}
    ensures r == "Windows" <==> system == "Windows"
    ensures r == "Mac" <==> system == "Darwin"
  {
    if system == "Windows" then "Windows" else if system == "Darwin" then "Mac" else "Linux"
  }

  /** The note appended to the stored system prompt. */
  function MachineNote(device: string): string {
    "\n\nNOTE: you are operating a " + device + " machine"
  }

  /** The "custom_system_prompt" default: the stored prompt, or "" when nothing
      is stored, followed by the machine note. */
  function DefaultSystemPrompt(env: Env): (r: string)
    ensures exists device :: device in {"Windows", "Mac", "Linux"}
                             && r == env.storedPrompt.GetOr("") + MachineNote(device)
  {
    var device := DeviceName(env.system);
    env.storedPrompt.GetOr("") + MachineNote(device)
  }

  /** The provider the model lookup will see: the one already stored, or the default. */
  function ProviderOf(s: State, env: Env): Value {
    s.provider.GetOr(Str(DefaultProvider(env.apiProvider)))
  }

  /** The provider names a model can be looked up for. */
  predicate HasDefaultModel(provider: Value, models: map<string, string>) {
    provider.Str? && provider.s in models
  }

  /** `_reset_model`: looks the stored provider up in the provider-to-model
      table and stores the result under "model". A missing "provider" key, a
      provider the table does not know and an unhashable provider all raise. */
  function ResetModel(s: State, models: map<string, string>): (r: Result<State, Fault>)
    ensures r.Success? <==> s.provider.Some? && HasDefaultModel(s.provider.value, models)
    ensures r.Success? ==> r.value.model == Some(Str(models[s.provider.value.s]))
                           && r.value.(model := s.model) == s
    ensures r.Failure? ==>
              r.error == (if s.provider.None? then KeyError(Str("provider"))
                          else if s.provider.value.List? || s.provider.value.Dict? then TypeError(s.provider.value)
                          else KeyError(s.provider.value))
  {
    match s.provider
    case None => Failure(KeyError(Str("provider")))
    case Some(p) =>
      match p
      case Str(name) =>
        if name in models then Success(s.(model := Some(Str(models[name])))) else Failure(KeyError(p))
      case List(_) => Failure(TypeError(p))
      case Dict(_) => Failure(TypeError(p))
      case _ => Failure(KeyError(p))
  }

  /** The first four steps of `setup_state` (app.py lines 64-75);
      "provider_radio" copies the provider as it stands after the third. */
  function FillHead(s: State, env: Env): (r: State)
    ensures Keeps(s, r) && HasHeadKeys(r)
    ensures r.(messages := s.messages, apiKey := s.apiKey, provider := s.provider,
               providerRadio := s.providerRadio) == s
    ensures r.provider == Some(ProviderOf(s, env))
    ensures s.messages.None? ==> r.messages == Some(List([]))
    ensures s.apiKey.None? ==> r.apiKey == Some(Str(AnthropicKey))
    ensures s.providerRadio.None? ==> r.providerRadio == r.provider
  {
    var s3 := s.(messages := Fill(s.messages, List([])),
                 apiKey := Fill(s.apiKey, Str(AnthropicKey)),
                 provider := Fill(s.provider, Str(DefaultProvider(env.apiProvider))));
    s3.(providerRadio := Fill(s3.providerRadio, s3.provider.value))
  }

  /** The last six steps of `setup_state` (app.py lines 78-92): six defaults
      that depend neither on the dictionary nor on each other. */
  function FillTail(s: State, env: Env): (r: State)
    ensures Keeps(s, r) && HasTailKeys(r)
    ensures r.(authValidated := s.authValidated, responses := s.responses, tools := s.tools,
               onlyNMostRecentImages := s.onlyNMostRecentImages,
               customSystemPrompt := s.customSystemPrompt, hideImages := s.hideImages) == s
    ensures s.authValidated.None? ==> r.authValidated == Some(Bool(false))
    ensures s.responses.None? ==> r.responses == Some(EmptyDict)
    ensures s.tools.None? ==> r.tools == Some(EmptyDict)
    ensures s.onlyNMostRecentImages.None? ==> r.onlyNMostRecentImages == Some(Int(2))
    ensures s.customSystemPrompt.None? ==> r.customSystemPrompt == Some(Str(DefaultSystemPrompt(env)))
    ensures s.hideImages.None? ==> r.hideImages == Some(Bool(false))
  {
    s.(authValidated := Fill(s.authValidated, Bool(false)),
       responses := Fill(s.responses, EmptyDict),
       tools := Fill(s.tools, EmptyDict),
       onlyNMostRecentImages := Fill(s.onlyNMostRecentImages, Int(2)),
       customSystemPrompt := Fill(s.customSystemPrompt, Str(DefaultSystemPrompt(env))),
       hideImages := Fill(s.hideImages, Bool(false)))
  }

  /** `setup_state`: fills in, in the source's order, every key the
      dictionary lacks and changes no key it holds. The lookup of a missing
      "model" raises when the provider has no default model; by then the first
      four keys have been filled and nothing else. */
  function SetupState(s: State, env: Env): (r: Result<State, Interrupted>)
    ensures r.Success? <==> s.model.Some? || HasDefaultModel(ProviderOf(s, env), env.defaultModels)
    ensures r.Success? ==> Keeps(s, r.value) && Complete(r.value)
    ensures r.Failure? ==> var p := r.error.partial;
              && Keeps(s, p) && HasHeadKeys(p)
              && p.(messages := s.messages, apiKey := s.apiKey, provider := s.provider,
                    providerRadio := s.providerRadio) == s
              && ResetModel(p, env.defaultModels) == Failure(r.error.fault)
  {
    var head := FillHead(s, env);
    if head.model.Some? then Success(FillTail(head, env))
    else
      match ResetModel(head, env.defaultModels)
      case Failure(f) => Failure(Interrupted(f, head))
      case Success(withModel) => Success(FillTail(withModel, env))
  }

  /** A key that was absent receives its default: "provider_radio" copies
      whatever "provider" ends up holding and "model" is the table's entry for
      that provider. */
  lemma SetupDefaultsHead(s: State, env: Env)
    requires SetupState(s, env).Success?
    ensures var r := SetupState(s, env).value;
      && (s.messages.None? ==> r.messages == Some(List([])))
      && (s.apiKey.None? ==> r.apiKey == Some(Str(AnthropicKey)))
      && (s.provider.None? ==> r.provider == Some(Str(DefaultProvider(env.apiProvider))))
      && (s.providerRadio.None? ==> r.providerRadio == r.provider)
      && (s.model.None? ==> r.provider.value.Str? && r.provider.value.s in env.defaultModels
                            && r.model == Some(Str(env.defaultModels[r.provider.value.s])))
  {
  }

  /** A key among the last six that was absent receives its fixed default. */
  lemma SetupDefaultsTail(s: State, env: Env)
    requires SetupState(s, env).Success?
    ensures var r := SetupState(s, env).value;
      && (s.authValidated.None? ==> r.authValidated == Some(Bool(false)))
      && (s.responses.None? ==> r.responses == Some(EmptyDict))
      && (s.tools.None? ==> r.tools == Some(EmptyDict))
      && (s.onlyNMostRecentImages.None? ==> r.onlyNMostRecentImages == Some(Int(2)))
      && (s.customSystemPrompt.None? ==> r.customSystemPrompt == Some(Str(DefaultSystemPrompt(env))))
      && (s.hideImages.None? ==> r.hideImages == Some(Bool(false)))
  {
  }

  /** The state both HTTP routes start from: `setup_state` on `{}` succeeds
      exactly when the table has a model for the default provider, and then
      every key holds its default. */
  lemma SetupFresh(env: Env)
    ensures var p := DefaultProvider(env.apiProvider);
      && (SetupState(Empty, env).Success? <==> p in env.defaultModels)
      && (p in env.defaultModels ==>
            SetupState(Empty, env).value
            == State(Some(List([])), Some(Str(AnthropicKey)), Some(Str(p)), Some(Str(p)),
                     Some(Str(env.defaultModels[p])), Some(Bool(false)), Some(EmptyDict), Some(EmptyDict),
                     Some(Int(2)), Some(Str(DefaultSystemPrompt(env))), Some(Bool(false))))
      && (p !in env.defaultModels ==> SetupState(Empty, env).error.fault == KeyError(Str(p)))
  {
  }

  /** A dictionary that already holds every key comes back unchanged,
      whatever the environment. */
  lemma SetupLeavesCompleteState(s: State, env: Env)
    requires Complete(s)
    ensures SetupState(s, env) == Success(s)
  {
  }

  /** Calling `setup_state` a second time changes nothing. */
  lemma SetupIdempotent(s: State, env: Env)
    requires SetupState(s, env).Success?
    ensures SetupState(SetupState(s, env).value, env) == SetupState(s, env)
  {
    SetupLeavesCompleteState(SetupState(s, env).value, env);
  }

  /** `_tool_output_callback`: records a tool's output under its id in the
      Tools dictionary. */
  function ToolOutputCallback<V>(tools: map<string, V>, toolId: string, output: V): (r: map<string, V>)
    ensures r.Keys == tools.Keys + {toolId}
    ensures r[toolId] == output
    ensures forall k :: k in tools && k != toolId ==> r[k] == tools[k]
  {
    tools[toolId := output]
  }

  /** `_api_response_callback`: records a raw API response in the Responses
      dictionary under the timestamp of the call, given here as a parameter. */
  function ApiResponseCallback<V>(responses: map<string, V>, timestamp: string, response: V): (r: map<string, V>)
    ensures r.Keys == responses.Keys + {timestamp}
    ensures r[timestamp] == response
    ensures forall k :: k in responses && k != timestamp ==> r[k] == responses[k]
  {
    responses[timestamp := response]
  }

  /** Outputs of two different tool calls can be recorded in either order. */
  lemma ToolOutputsCommute<V>(tools: map<string, V>, id1: string, o1: V, id2: string, o2: V)
    requires id1 != id2
    ensures ToolOutputCallback(ToolOutputCallback(tools, id1, o1), id2, o2)
         == ToolOutputCallback(ToolOutputCallback(tools, id2, o2), id1, o1)
  {
  }

  /** The responses dictionary is only append-only while timestamps differ: a
      second response recorded under the same timestamp replaces the first. */
  lemma SameTimestampReplaces<V>(responses: map<string, V>, t: string, first: V, second: V)
    ensures ApiResponseCallback(ApiResponseCallback(responses, t, first), t, second)
         == ApiResponseCallback(responses, t, second)
  {
  }
}
