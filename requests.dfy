/** The five concrete request classes, their declared defaults, and their
    construction from a decoded record with the validate-or-fail outcome
    pydantic gives it. */
module Requests {
  import opened Wrappers
  import opened Values
  import opened Invocation
  import opened PromptMessages

  datatype RequestClass =
    | ToolInvokeRequest
    | ToolValidateCredentialsRequest
    | ModelInvokeLLMRequest
    | ModelValidateProviderCredentialsRequest
    | ModelValidateModelCredentialsRequest

  /** The kind whose action enum types a class's `action` field. */
  function ActionFamily(c: RequestClass): InvokeType {
    match c
    case ToolInvokeRequest | ToolValidateCredentialsRequest => Tool
    case _ => Model
  }

  /** The declared default of `type`: the tool classes redeclare it as
      `tool`, the model classes inherit `model` from their base. It always
      agrees with the class's action enum. */
  function DefaultType(c: RequestClass): (t: InvokeType)
    ensures t == ActionFamily(c)
  {
    match c
    case ToolInvokeRequest => Tool
    case ToolValidateCredentialsRequest => Tool
    case _ => Model
  }

  /** The declared default of `action`, one per class, always a member of
      the class's own action enum. */
  function DefaultAction(c: RequestClass): (a: Action)
    ensures KindOf(a) == ActionFamily(c)
  {
    match c
    case ToolInvokeRequest => Invoke
    case ToolValidateCredentialsRequest => ValidateCredentials
    case ModelInvokeLLMRequest => InvokeLLM
    case ModelValidateProviderCredentialsRequest => ValidateProviderCredentials
    case ModelValidateModelCredentialsRequest => ValidateModelCredentials
  }

  /** The declared default of `stream` on `ModelInvokeLLMRequest`. */
  const DefaultStream: bool := true

  /** A constructed request. The `action` of each constructor is typed by its
      class's enum; `kind` is the `type` field, which nothing checks against
      the class. */
  datatype Request =
    | ToolInvoke(
        kind: InvokeType, userId: string, toolAction: ToolAction,
        provider: string, tool: string,
        credentials: map<string, Value>, parameters: map<string, Value>)
    | ToolValidateCredentials(
        kind: InvokeType, userId: string, toolAction: ToolAction,
        provider: string, credentials: map<string, Value>)
    | ModelInvokeLLM(
        kind: InvokeType, userId: string, modelAction: ModelAction,
        provider: string, modelType: string, model: string,
        credentials: map<string, Value>, modelParameters: map<string, Value>,
        promptMessages: seq<PromptMessage>, stop: Option<seq<string>>,
        tools: Option<seq<Value>>, stream: bool)
    | ModelValidateProviderCredentials(
        kind: InvokeType, userId: string, modelAction: ModelAction,
        provider: string, credentials: map<string, Value>)
    | ModelValidateModelCredentials(
        kind: InvokeType, userId: string, modelAction: ModelAction,
        provider: string, model: string, credentials: map<string, Value>)

  function ClassOf(r: Request): RequestClass {
    match r
    case ToolInvoke(_, _, _, _, _, _, _) => ToolInvokeRequest
    case ToolValidateCredentials(_, _, _, _, _) => ToolValidateCredentialsRequest
    case ModelInvokeLLM(_, _, _, _, _, _, _, _, _, _, _, _) => ModelInvokeLLMRequest
    case ModelValidateProviderCredentials(_, _, _, _, _) => ModelValidateProviderCredentialsRequest
    case ModelValidateModelCredentials(_, _, _, _, _, _) => ModelValidateModelCredentialsRequest
  }

  /** A request's action, which always belongs to its class's action enum. */
  function ActionOf(r: Request): (a: Action)
    ensures KindOf(a) == ActionFamily(ClassOf(r))
  {
    if r.ToolInvoke? || r.ToolValidateCredentials? then r.toolAction else r.modelAction
  }

  /** The judgements of types defined outside this model: which records a
      message class accepts, which strings are `ModelType` values, and which
      values are valid `PromptMessageTool`s. */
  datatype Schemas = Schemas(
    message: MessageSchema,
    modelType: string -> bool,
    tool: Value -> bool)

  /** The field that failed, and how. */
  datatype BuildError =
    | Missing(field: string)
    | WrongType(field: string)
    | NotInEnum(field: string)
    | BadMessages(cause: ConvertError)

  /** A required `str` field. */
  function StringField(raw: map<string, Value>, name: string): (r: Result<string, BuildError>)
    ensures r.Success? <==> name in raw && raw[name].Str?
    ensures r.Success? ==> raw[name] == Str(r.value)
  {
    if name !in raw then Failure(Missing(name))
    else if raw[name].Str? then Success(raw[name].s)
    else Failure(WrongType(name))
  }

  /** A required `dict` field. */
  function DictField(raw: map<string, Value>, name: string): (r: Result<map<string, Value>, BuildError>)
    ensures r.Success? <==> name in raw && raw[name].Object?
    ensures r.Success? ==> raw[name] == Object(r.value)
  {
    if name !in raw then Failure(Missing(name))
    else if raw[name].Object? then Success(raw[name].fields)
    else Failure(WrongType(name))
  }

  /** `type`, defaulted per class; any member of `PluginInvokeType` is taken. */
  function TypeField(raw: map<string, Value>, default: InvokeType): (r: Result<InvokeType, BuildError>)
    ensures "type" !in raw ==> r == Success(default)
    ensures "type" in raw && r.Success? ==> raw["type"] == Str(InvokeTypeValue(r.value))
    ensures "type" in raw && raw["type"].Str? && ParseInvokeType(raw["type"].s).Some? ==> r.Success?
  {
    if "type" !in raw then Success(default)
    else if !raw["type"].Str? then Failure(WrongType("type"))
    else match ParseInvokeType(raw["type"].s)
      case Some(t) => Success(t)
      case None => Failure(NotInEnum("type"))
  }

  /** `action` on a tool class: defaulted, and otherwise a `ToolActions` value. */
  function ToolActionField(raw: map<string, Value>, default: ToolAction): (r: Result<ToolAction, BuildError>)
    ensures "action" !in raw ==> r == Success(default)
    ensures "action" in raw ==>
      (r.Success? <==> raw["action"].Str? && exists a: ToolAction :: ActionValue(a) == raw["action"].s)
    ensures "action" in raw && r.Success? ==> raw["action"] == Str(ActionValue(r.value))
  {
    if "action" !in raw then Success(default)
    else if !raw["action"].Str? then Failure(WrongType("action"))
    else match ParseToolAction(raw["action"].s)
      case Some(a) => Success(a)
      case None => Failure(NotInEnum("action"))
  }

  /** `action` on a model class: defaulted, and otherwise a `ModelActions` value. */
  function ModelActionField(raw: map<string, Value>, default: ModelAction): (r: Result<ModelAction, BuildError>)
    ensures "action" !in raw ==> r == Success(default)
    ensures "action" in raw ==>
      (r.Success? <==> raw["action"].Str? && exists a: ModelAction :: ActionValue(a) == raw["action"].s)
    ensures "action" in raw && r.Success? ==> raw["action"] == Str(ActionValue(r.value))
  {
    if "action" !in raw then Success(default)
    else if !raw["action"].Str? then Failure(WrongType("action"))
    else match ParseModelAction(raw["action"].s)
      case Some(a) => Success(a)
      case None => Failure(NotInEnum("action"))
  }

  /** `model_type`, a `ModelType` value. */
  function ModelTypeField(raw: map<string, Value>, isModelType: string -> bool): (r: Result<string, BuildError>)
    ensures r.Success? <==> "model_type" in raw && raw["model_type"].Str? && isModelType(raw["model_type"].s)
    ensures r.Success? ==> raw["model_type"] == Str(r.value)
  {
    if "model_type" !in raw then Failure(Missing("model_type"))
    else if !raw["model_type"].Str? then Failure(WrongType("model_type"))
    else if isModelType(raw["model_type"].s) then Success(raw["model_type"].s)
    else Failure(NotInEnum("model_type"))
  }

  /** `prompt_messages`, passed through the role normaliser first. */
  function MessagesField(raw: map<string, Value>, accepts: MessageSchema): (r: Result<seq<PromptMessage>, BuildError>)
    ensures "prompt_messages" !in raw ==> r == Failure(Missing("prompt_messages"))
    ensures "prompt_messages" in raw && !raw["prompt_messages"].List? ==> r == Failure(BadMessages(NotAList))
    ensures r.Success? ==>
      var xs := raw["prompt_messages"].elems;
      "prompt_messages" in raw && raw["prompt_messages"].List? && |r.value| == |xs| &&
      forall i :: 0 <= i < |xs| ==>
        xs[i].Object? && "role" in xs[i].fields &&
        r.value[i] == PromptMessage(ClassOfRole(xs[i].fields["role"]), xs[i].fields)
    ensures "prompt_messages" in raw && Convert(raw["prompt_messages"], accepts).Failure? ==>
      r == Failure(BadMessages(Convert(raw["prompt_messages"], accepts).error))
    ensures "prompt_messages" in raw && Convert(raw["prompt_messages"], accepts).Success? ==> r.Success?
  {
    if "prompt_messages" !in raw then Failure(Missing("prompt_messages"))
    else match Convert(raw["prompt_messages"], accepts)
      case Success(ms) =>
        ConvertElementwise(raw["prompt_messages"], accepts);
        Success(ms)
      case Failure(e) => Failure(BadMessages(e))
  }

  predicate AllStrings(vs: seq<Value>) {
    forall i :: 0 <= i < |vs| ==> vs[i].Str?
  }

  /** `stop: Optional[list[str]]` with no default: it must be present, and
      may be null. */
  function StopField(raw: map<string, Value>): (r: Result<Option<seq<string>>, BuildError>)
    ensures r.Success? <==>
      "stop" in raw && (raw["stop"] == Null || (raw["stop"].List? && AllStrings(raw["stop"].elems)))
    ensures r == Success(None) <==> "stop" in raw && raw["stop"] == Null
    ensures r.Success? && r.value.Some? ==>
      |r.value.value| == |raw["stop"].elems| &&
      forall i :: 0 <= i < |r.value.value| ==> raw["stop"].elems[i] == Str(r.value.value[i])
  {
    if "stop" !in raw then Failure(Missing("stop"))
    else if raw["stop"] == Null then Success(None)
    else if raw["stop"].List? && AllStrings(raw["stop"].elems) then
      var vs := raw["stop"].elems;
      Success(Some(seq(|vs|, i requires 0 <= i < |vs| => vs[i].s)))
    else Failure(WrongType("stop"))
  }

  /** `tools: Optional[list[PromptMessageTool]]` with no default: present,
      null or a list of tool definitions. */
  function ToolsField(raw: map<string, Value>, isTool: Value -> bool): (r: Result<Option<seq<Value>>, BuildError>)
    ensures r.Success? <==>
      "tools" in raw &&
      (raw["tools"] == Null ||
       (raw["tools"].List? && forall i :: 0 <= i < |raw["tools"].elems| ==> isTool(raw["tools"].elems[i])))
    ensures r.Success? ==> r.value == if raw["tools"] == Null then None else Some(raw["tools"].elems)
  {
    if "tools" !in raw then Failure(Missing("tools"))
    else if raw["tools"] == Null then Success(None)
    else if raw["tools"].List? && forall i :: 0 <= i < |raw["tools"].elems| ==> isTool(raw["tools"].elems[i]) then
      Success(Some(raw["tools"].elems))
    else Failure(WrongType("tools"))
  }

  /** `stream: bool = True`. */
  function StreamField(raw: map<string, Value>): (r: Result<bool, BuildError>)
    ensures "stream" !in raw ==> r == Success(DefaultStream)
    ensures "stream" in raw ==> (r.Success? <==> raw["stream"].Bool?)
    ensures "stream" in raw && r.Success? ==> raw["stream"] == Bool(r.value)
  {
    if "stream" !in raw then Success(DefaultStream)
    else if raw["stream"].Bool? then Success(raw["stream"].b)
    else Failure(WrongType("stream"))
  }

  /** Constructing class `c` from a decoded record: fields are read in their
      declaration order (inherited `type` and `user_id` first) and the first
      failing one is reported; keys the class does not declare are ignored. */
  function Build(c: RequestClass, raw: map<string, Value>, sch: Schemas): (r: Result<Request, BuildError>)
    ensures r.Success? ==> ClassOf(r.value) == c
  {
    match c
    case ToolInvokeRequest =>
      var kind :- TypeField(raw, DefaultType(c));
      var userId :- StringField(raw, "user_id");
      var action :- ToolActionField(raw, DefaultAction(c));
      var provider :- StringField(raw, "provider");
      var tool :- StringField(raw, "tool");
      var credentials :- DictField(raw, "credentials");
      var parameters :- DictField(raw, "parameters");
      Success(ToolInvoke(kind, userId, action, provider, tool, credentials, parameters))
    case ToolValidateCredentialsRequest =>
      var kind :- TypeField(raw, DefaultType(c));
      var userId :- StringField(raw, "user_id");
      var action :- ToolActionField(raw, DefaultAction(c));
      var provider :- StringField(raw, "provider");
      var credentials :- DictField(raw, "credentials");
      Success(ToolValidateCredentials(kind, userId, action, provider, credentials))
    case ModelInvokeLLMRequest =>
      var kind :- TypeField(raw, DefaultType(c));
      var userId :- StringField(raw, "user_id");
      var action :- ModelActionField(raw, DefaultAction(c));
      var provider :- StringField(raw, "provider");
      var modelType :- ModelTypeField(raw, sch.modelType);
      var model :- StringField(raw, "model");
      var credentials :- DictField(raw, "credentials");
      var modelParameters :- DictField(raw, "model_parameters");
      var messages :- MessagesField(raw, sch.message);
      var stop :- StopField(raw);
      var tools :- ToolsField(raw, sch.tool);
      var stream :- StreamField(raw);
      Success(ModelInvokeLLM(kind, userId, action, provider, modelType, model,
                             credentials, modelParameters, messages, stop, tools, stream))
    case ModelValidateProviderCredentialsRequest =>
      var kind :- TypeField(raw, DefaultType(c));
      var userId :- StringField(raw, "user_id");
      var action :- ModelActionField(raw, DefaultAction(c));
      var provider :- StringField(raw, "provider");
      var credentials :- DictField(raw, "credentials");
      Success(ModelValidateProviderCredentials(kind, userId, action, provider, credentials))
    case ModelValidateModelCredentialsRequest =>
      var kind :- TypeField(raw, DefaultType(c));
      var userId :- StringField(raw, "user_id");
      var action :- ModelActionField(raw, DefaultAction(c));
      var provider :- StringField(raw, "provider");
      var model :- StringField(raw, "model");
      var credentials :- DictField(raw, "credentials");
      Success(ModelValidateModelCredentials(kind, userId, action, provider, model, credentials))
  }

  /** Every field class `c` declares passes its validator. */
  predicate Accepted(c: RequestClass, raw: map<string, Value>, sch: Schemas) {
    TypeField(raw, DefaultType(c)).Success? &&
    StringField(raw, "user_id").Success? &&
    (if ActionFamily(c) == Tool then ToolActionField(raw, DefaultAction(c)).Success?
     else ModelActionField(raw, DefaultAction(c)).Success?) &&
    StringField(raw, "provider").Success? &&
    DictField(raw, "credentials").Success? &&
    (c == ToolInvokeRequest ==>
      StringField(raw, "tool").Success? && DictField(raw, "parameters").Success?) &&
    (c == ModelInvokeLLMRequest ==>
      ModelTypeField(raw, sch.modelType).Success? &&
      DictField(raw, "model_parameters").Success? &&
      MessagesField(raw, sch.message).Success? &&
      StopField(raw).Success? &&
      ToolsField(raw, sch.tool).Success? &&
      StreamField(raw).Success?) &&
    (c == ModelInvokeLLMRequest || c == ModelValidateModelCredentialsRequest ==>
      StringField(raw, "model").Success?)
  }

  /** A record is accepted exactly when every declared field passes its
      validator, and each field of the request is what its validator read
      from the record under that field's own name. */
  lemma BuildFields(c: RequestClass, raw: map<string, Value>, sch: Schemas)
    ensures Build(c, raw, sch).Success? <==> Accepted(c, raw, sch)
    ensures Build(c, raw, sch).Success? ==>
      var r := Build(c, raw, sch).value;
      r.kind == TypeField(raw, DefaultType(c)).value &&
      r.userId == StringField(raw, "user_id").value &&
      r.provider == StringField(raw, "provider").value &&
      r.credentials == DictField(raw, "credentials").value &&
      (ActionFamily(c) == Tool ==> ActionOf(r) == ToolActionField(raw, DefaultAction(c)).value) &&
      (ActionFamily(c) == Model ==> ActionOf(r) == ModelActionField(raw, DefaultAction(c)).value) &&
      (r.ToolInvoke? ==>
        r.tool == StringField(raw, "tool").value &&
        r.parameters == DictField(raw, "parameters").value) &&
      (r.ModelInvokeLLM? ==>
        r.modelType == ModelTypeField(raw, sch.modelType).value &&
        r.modelParameters == DictField(raw, "model_parameters").value &&
        r.promptMessages == MessagesField(raw, sch.message).value &&
        r.stop == StopField(raw).value &&
        r.tools == ToolsField(raw, sch.tool).value &&
        r.stream == StreamField(raw).value) &&
      (r.ModelInvokeLLM? || r.ModelValidateModelCredentials? ==>
        r.model == StringField(raw, "model").value)
  {
  }

  /** Omitting `action`, `type` or `stream` yields the class's declared
      default. */
  lemma BuildDefaults(c: RequestClass, raw: map<string, Value>, sch: Schemas)
    requires Build(c, raw, sch).Success?
    ensures "action" !in raw ==> ActionOf(Build(c, raw, sch).value) == DefaultAction(c)
    ensures "type" !in raw ==> Build(c, raw, sch).value.kind == DefaultType(c)
    ensures c == ModelInvokeLLMRequest && "stream" !in raw ==> Build(c, raw, sch).value.stream == DefaultStream
  {
  }

  /** A constructed request's action is the one its record names, or the
      default; either way it is a member of the class's own enum. */
  lemma BuildActionFromOwnEnum(c: RequestClass, raw: map<string, Value>, sch: Schemas)
    requires Build(c, raw, sch).Success?
    ensures KindOf(ActionOf(Build(c, raw, sch).value)) == ActionFamily(c)
    ensures "action" in raw ==> raw["action"] == Str(ActionValue(ActionOf(Build(c, raw, sch).value)))
  {
  }

  /** A record naming an action of the other kind is never accepted. */
  lemma ForeignActionRejected(c: RequestClass, raw: map<string, Value>, sch: Schemas, a: Action)
    requires "action" in raw && raw["action"] == Str(ActionValue(a))
    requires KindOf(a) != ActionFamily(c)
    ensures Build(c, raw, sch).Failure?
  {
    if Build(c, raw, sch).Success? {
      BuildActionFromOwnEnum(c, raw, sch);
      ActionValueInjective(a, ActionOf(Build(c, raw, sch).value));
    }
  }

  /** `type` is not checked against the class: any member of
      `PluginInvokeType` is accepted in place of the default and only changes
      the request's `kind`. */
  lemma TypeNotCrossChecked(c: RequestClass, raw: map<string, Value>, sch: Schemas, t: InvokeType)
    requires Build(c, raw, sch).Success?
    ensures Build(c, raw["type" := Str(InvokeTypeValue(t))], sch) ==
      Success(Build(c, raw, sch).value.(kind := t))
  {
    var raw' := raw["type" := Str(InvokeTypeValue(t))];
    assert TypeField(raw', DefaultType(c)) == Success(t);
    assert StringField(raw', "user_id") == StringField(raw, "user_id");
    assert StringField(raw', "provider") == StringField(raw, "provider");
    assert DictField(raw', "credentials") == DictField(raw, "credentials");
    match c {
      case ToolInvokeRequest =>
        assert ToolActionField(raw', DefaultAction(c)) == ToolActionField(raw, DefaultAction(c));
        assert StringField(raw', "tool") == StringField(raw, "tool");
        assert DictField(raw', "parameters") == DictField(raw, "parameters");
      case ToolValidateCredentialsRequest =>
        assert ToolActionField(raw', DefaultAction(c)) == ToolActionField(raw, DefaultAction(c));
      case ModelInvokeLLMRequest =>
        assert ModelActionField(raw', DefaultAction(c)) == ModelActionField(raw, DefaultAction(c));
        assert ModelTypeField(raw', sch.modelType) == ModelTypeField(raw, sch.modelType);
        assert StringField(raw', "model") == StringField(raw, "model");
        assert DictField(raw', "model_parameters") == DictField(raw, "model_parameters");
        assert MessagesField(raw', sch.message) == MessagesField(raw, sch.message);
        assert StopField(raw') == StopField(raw);
        assert ToolsField(raw', sch.tool) == ToolsField(raw, sch.tool);
        assert StreamField(raw') == StreamField(raw);
      case ModelValidateProviderCredentialsRequest =>
        assert ModelActionField(raw', DefaultAction(c)) == ModelActionField(raw, DefaultAction(c));
      case ModelValidateModelCredentialsRequest =>
        assert ModelActionField(raw', DefaultAction(c)) == ModelActionField(raw, DefaultAction(c));
        assert StringField(raw', "model") == StringField(raw, "model");
    }
  }

  /** The messages of a constructed `ModelInvokeLLMRequest` are the records
      of `prompt_messages`, in order, each with the class its role names. */
  lemma BuildLLMMessages(raw: map<string, Value>, sch: Schemas)
    requires Build(ModelInvokeLLMRequest, raw, sch).Success?
    ensures "prompt_messages" in raw && raw["prompt_messages"].List?
    ensures var ms := Build(ModelInvokeLLMRequest, raw, sch).value.promptMessages;
      var xs := raw["prompt_messages"].elems;
      |ms| == |xs| &&
      forall i :: 0 <= i < |xs| ==>
        xs[i].Object? && "role" in xs[i].fields &&
        ms[i] == PromptMessage(ClassOfRole(xs[i].fields["role"]), xs[i].fields)
  {
    ConvertElementwise(raw["prompt_messages"], sch.message);
  }

  /** When `prompt_messages` does not normalise, no request is constructed. */
  lemma BuildLLMAtomic(raw: map<string, Value>, sch: Schemas)
    requires "prompt_messages" in raw && Convert(raw["prompt_messages"], sch.message).Failure?
    ensures Build(ModelInvokeLLMRequest, raw, sch).Failure?
  {
  }
}
