/** The two discriminants of a plugin request: the invocation kind
    (`PluginInvokeType`) and the action, drawn from `ToolActions` or
    `ModelActions` according to the kind. */
module Invocation {
  import opened Wrappers

  datatype InvokeType = Tool | Model

  /** The enum value a kind is written as on the wire. */
  function InvokeTypeValue(t: InvokeType): string {
    match t
    case Tool => "tool"
    case Model => "model"
  }

  /** Looking an invocation kind up by its value, as `PluginInvokeType(s)` does. */
  function ParseInvokeType(s: string): (r: Option<InvokeType>)
    ensures forall t :: InvokeTypeValue(t) == s <==> r == Some(t)
  {
    if s == "tool" then Some(Tool)
    else if s == "model" then Some(Model)
    else None
  }

  /** Every action of both enums; which enum it belongs to is `KindOf`. */
  datatype Action =
    | ValidateCredentials
    | Invoke
    | ValidateProviderCredentials
    | ValidateModelCredentials
    | InvokeLLM
    | InvokeTextEmbedding
    | InvokeRerank
    | InvokeTTS
    | InvokeSpeech2Text
    | InvokeModeration

  function KindOf(a: Action): InvokeType {
    match a
    case ValidateCredentials | Invoke => Tool
    case _ => Model
  }

  /** The members of `ToolActions`. */
  type ToolAction = a: Action | KindOf(a) == Tool witness Invoke

  /** The members of `ModelActions`. */
  type ModelAction = a: Action | KindOf(a) == Model witness InvokeLLM

  /** The enum value an action is written as on the wire. */
  function ActionValue(a: Action): string {
    match a
    case ValidateCredentials => "validate_credentials"
    case Invoke => "invoke"
    case ValidateProviderCredentials => "validate_provider_credentials"
    case ValidateModelCredentials => "validate_model_credentials"
    case InvokeLLM => "invoke_llm"
    case InvokeTextEmbedding => "invoke_text_embedding"
    case InvokeRerank => "invoke_rerank"
    case InvokeTTS => "invoke_tts"
    case InvokeSpeech2Text => "invoke_speech2text"
    case InvokeModeration => "invoke_moderation"
  }

  /** `ToolActions(s)`: only the values of the tool enum are found. */
  function ParseToolAction(s: string): (r: Option<ToolAction>)
    ensures forall a: ToolAction :: ActionValue(a) == s <==> r == Some(a)
  {
    if s == "validate_credentials" then Some(ValidateCredentials)
    else if s == "invoke" then Some(Invoke)
    else None
  }

  /** `ModelActions(s)`: only the values of the model enum are found. */
  function ParseModelAction(s: string): (r: Option<ModelAction>)
    ensures forall a: ModelAction :: ActionValue(a) == s <==> r == Some(a)
  {
    if s == "validate_provider_credentials" then Some(ValidateProviderCredentials)
    else if s == "validate_model_credentials" then Some(ValidateModelCredentials)
    else if s == "invoke_llm" then Some(InvokeLLM)
    else if s == "invoke_text_embedding" then Some(InvokeTextEmbedding)
    else if s == "invoke_rerank" then Some(InvokeRerank)
    else if s == "invoke_tts" then Some(InvokeTTS)
    else if s == "invoke_speech2text" then Some(InvokeSpeech2Text)
    else if s == "invoke_moderation" then Some(InvokeModeration)
    else None
  }

  /** The action strings of the two enums are pairwise distinct, within each
      enum and across them, so an action string names one action of one kind. */
  lemma ActionValueInjective(a: Action, b: Action)
    requires ActionValue(a) == ActionValue(b)
    ensures a == b && KindOf(a) == KindOf(b)
  {
  }

  /** An action string of one kind is not a member of the other kind's enum. */
  lemma ForeignActionNotParsed(a: Action)
    ensures KindOf(a) == Model ==> ParseToolAction(ActionValue(a)) == None
    ensures KindOf(a) == Tool ==> ParseModelAction(ActionValue(a)) == None
  {
  }
}
