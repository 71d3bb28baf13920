# Plugin request envelope: a Dafny model

This project models the request envelope of the Dify plugin SDK
(`dify_plugin/core/runtime/entities/plugin/request.py`). A host asks a plugin
to invoke a tool, validate credentials or invoke a model. The request it sends
is one of five classes, discriminated by an invocation kind (`tool` / `model`)
and an action drawn from that kind's action enum. The LLM invocation request
normalises its `prompt_messages` list in place. Each raw record becomes the
message class its `role` names.

Modules:

- `Wrappers` (`wrappers.dfy`): `Option` and `Result`.
- `Values` (`values.dfy`): the decoded, JSON-like data a request is built from.
- `Invocation` (`invocation.dfy`): `PluginInvokeType`, and `ToolActions` /
  `ModelActions` as one `Action` datatype. `KindOf` says which enum an action
  belongs to. The subset types `ToolAction` and `ModelAction` are those enums,
  and there are parse and print functions for the enum values.
- `PromptMessages` (`prompt_messages.dfy`): `convert_prompt_messages`.
  `ConvertPromptMessages` is a method that overwrites an `array` in place, as
  the source overwrites the caller's list. It is proved against the
  specification function `NormalizeList`, which either converts every element
  or reports the first element that fails.
- `Requests` (`requests.dfy`): the five request classes as one datatype. Each
  constructor's `action` is typed by its class's enum. The module has the
  declared defaults of `type`, `action` and `stream`. `Build` gives the
  validate-or-fail outcome of constructing a class from a decoded record.

Judgements that depend on types defined outside this file are parameters. The
`Schemas` value supplies them: whether a message class accepts a record,
which strings are `ModelType` values, and which values are valid
`PromptMessageTool`s.

Points where the code behaves differently from what one might expect of such a
layer, all modelled as the code has them:

- The normaliser mutates the caller's list. When element `k` fails, elements
  `0..k-1` have already been replaced. `ConvertPromptMessages` states exactly
  this. No request is built in that case (`BuildLLMAtomic`).
- A record without a `role` key fails with `KeyError`. A list element that is
  not a dict fails with `TypeError`, and so does an already-constructed
  message object. Neither falls back to the generic class. Only a role value
  outside the four known strings does, including a role that is not a string.
- `type` is only a defaulted field. It is never checked against the class or
  the action, so a tool request may carry `type: model`
  (`TypeNotCrossChecked`). What is enforced is that `action` parses in the
  class's own action enum (`ForeignActionRejected`).
- `user_id` is any string; the empty string is accepted.

## Model

| member | source | states |
|---|---|---|
| Invocation.ParseInvokeType | python/dify_plugin/core/runtime/entities/plugin/request.py:8-10 | a string parses to kind `t` exactly when it is `t`'s enum value, so parsing inverts printing in both directions |
| Invocation.ParseToolAction | python/dify_plugin/core/runtime/entities/plugin/request.py:12-14 | a string parses to tool action `a` exactly when it is `a`'s value; no other string parses |
| Invocation.ParseModelAction | python/dify_plugin/core/runtime/entities/plugin/request.py:16-24 | a string parses to model action `a` exactly when it is `a`'s value; no other string parses |
| Invocation.ActionValueInjective | python/dify_plugin/core/runtime/entities/plugin/request.py:12-24 | the ten action strings are pairwise distinct, within and across the two enums, so an action string has one action and one kind |
| Invocation.ForeignActionNotParsed | python/dify_plugin/core/runtime/entities/plugin/request.py:12-24 | a model action's string is not a `ToolActions` value, and a tool action's string is not a `ModelActions` value |
| PromptMessages.RoleOf | python/dify_plugin/core/runtime/entities/plugin/request.py:68-77 | only the generic `PromptMessage` class has no dedicated role |
| PromptMessages.ClassOfRole | python/dify_plugin/core/runtime/entities/plugin/request.py:68-77 | a dedicated class is chosen only for its own role string; the generic class is chosen exactly when the role is none of the four |
| PromptMessages.NormalizeItem | python/dify_plugin/core/runtime/entities/plugin/request.py:68-77 | a non-dict or an already-built element fails as not subscriptable; a dict without `role` fails with the missing key, never the fallback; a dict with `role` converts iff the class its role names accepts the record, keeping its record under that class, and otherwise fails naming that class |
| PromptMessages.NormalizeList | python/dify_plugin/core/runtime/entities/plugin/request.py:67-79 | a converted list has the input's length; a failure names an index inside the list |
| PromptMessages.Convert | python/dify_plugin/core/runtime/entities/plugin/request.py:63-79 | anything but a list fails with "prompt_messages must be a list" before any element is looked at; a list is accepted iff every element converts, and then keeps its length |
| PromptMessages.NormalizeListElementwise | python/dify_plugin/core/runtime/entities/plugin/request.py:67-77 | the list converts iff every element does, and output `i` is the conversion of input `i` alone |
| PromptMessages.NormalizeListFirstFailure | python/dify_plugin/core/runtime/entities/plugin/request.py:67-77 | a reported failure is the fault of that element, and every earlier element converts |
| PromptMessages.NormalizeListStopsAt | python/dify_plugin/core/runtime/entities/plugin/request.py:67-77 | once element `k` fails after a convertible prefix, the list fails at `k` whatever follows |
| PromptMessages.ConvertElementwise | python/dify_plugin/core/runtime/entities/plugin/request.py:67-79 | on a decoded list, message `i` is record `i` under the class its role names, in the input's order |
| PromptMessages.ConvertPromptMessages | python/dify_plugin/core/runtime/entities/plugin/request.py:62-79 | a non-list fails untouched; a list is overwritten in place with its conversion and returned itself; on failure at `k` the prefix is converted and the rest unchanged |
| Requests.DefaultType | python/dify_plugin/core/runtime/entities/plugin/request.py:30-46 | the default `type` of every class is the kind of its action enum |
| Requests.DefaultAction | python/dify_plugin/core/runtime/entities/plugin/request.py:30-88 | every class's default action belongs to the class's own action enum |
| Requests.ActionOf | python/dify_plugin/core/runtime/entities/plugin/request.py:30-90 | a request's action always belongs to its class's action enum |
| Requests.StringField | python/dify_plugin/core/runtime/entities/plugin/request.py:28 | a `str` field is accepted iff present and a string, and is that string |
| Requests.DictField | python/dify_plugin/core/runtime/entities/plugin/request.py:35-36 | a `dict` field is accepted iff present and a mapping, and is that mapping |
| Requests.TypeField | python/dify_plugin/core/runtime/entities/plugin/request.py:27-31 | an omitted `type` is the default; a given one is accepted when it is a kind's value, and is that kind |
| Requests.ToolActionField | python/dify_plugin/core/runtime/entities/plugin/request.py:32 | an omitted `action` is the default; a given one is accepted iff it is a `ToolActions` value, and is that action |
| Requests.ModelActionField | python/dify_plugin/core/runtime/entities/plugin/request.py:49 | an omitted `action` is the default; a given one is accepted iff it is a `ModelActions` value, and is that action |
| Requests.ModelTypeField | python/dify_plugin/core/runtime/entities/plugin/request.py:51 | `model_type` is accepted iff present, a string and a `ModelType` value |
| Requests.MessagesField | python/dify_plugin/core/runtime/entities/plugin/request.py:55-65 | `prompt_messages` is required; a non-list fails as not a list; a list that normalises is accepted and a failing element fails the field with that error; on success message `i` is record `i` under the class its role names, same length and order |
| Requests.StopField | python/dify_plugin/core/runtime/entities/plugin/request.py:56 | `stop` is required but may be null; otherwise it is a list of strings, kept in order |
| Requests.ToolsField | python/dify_plugin/core/runtime/entities/plugin/request.py:57 | `tools` is required but may be null; otherwise every element must be a tool definition, and the list is kept |
| Requests.StreamField | python/dify_plugin/core/runtime/entities/plugin/request.py:58 | an omitted `stream` is `True`; a given one is accepted iff it is a boolean, and is that boolean |
| Requests.Build | python/dify_plugin/core/runtime/entities/plugin/request.py:26-90 | constructing class `c` yields, when it succeeds, a request of class `c` |
| Requests.BuildFields | python/dify_plugin/core/runtime/entities/plugin/request.py:26-90 | a record is accepted exactly when every field its class declares passes its validator, and each request field is the value that validator read under that field's own name |
| Requests.BuildDefaults | python/dify_plugin/core/runtime/entities/plugin/request.py:30-90 | omitting `action`, `type` or `stream` yields the class's declared default |
| Requests.BuildActionFromOwnEnum | python/dify_plugin/core/runtime/entities/plugin/request.py:12-90 | a built request's action belongs to its class's enum and is the action string the record gave |
| Requests.ForeignActionRejected | python/dify_plugin/core/runtime/entities/plugin/request.py:12-90 | a record naming an action of the other kind is never accepted |
| Requests.TypeNotCrossChecked | python/dify_plugin/core/runtime/entities/plugin/request.py:27-46 | replacing `type` by any kind's value changes only the request's `kind`; acceptance is unaffected |
| Requests.BuildLLMMessages | python/dify_plugin/core/runtime/entities/plugin/request.py:48-79 | a built LLM request's messages are the given records, same length and order, each under the class its role names |
| Requests.BuildLLMAtomic | python/dify_plugin/core/runtime/entities/plugin/request.py:62-79 | if `prompt_messages` does not normalise, no LLM request is built |

## Left out

- The pydantic machinery is not modelled, only its validate-or-fail outcome. That covers `BaseModel`, field declaration, validator registration and `ConfigDict(protected_namespaces=())`.
- Requests.Build: reports only the first failing field in declaration order. Pydantic collects every failing field into one error, and lets the `KeyError` / `TypeError` of the normaliser escape unwrapped. The model keeps whether construction fails, not the shape of the error.
- Requests.Build: pydantic's lax coercions are not modelled. These are, for example, `"true"` or `1` for a `bool`, or an enum member object instead of its value. A string field takes only strings, a boolean only booleans, and an enum field only its value strings.
- The fields and validation rules of `UserPromptMessage`, `AssistantPromptMessage`, `SystemPromptMessage`, `ToolPromptMessage`, `PromptMessage`, `PromptMessageTool` and `ModelType` are defined in files that are not part of this model. They appear as the predicates in `Schemas`, and a message is its class plus the record it was built from.
- The values of `PromptMessageRole` come from a file that is not part of this model. They are taken to be `"user"`, `"assistant"`, `"system"` and `"tool"`; the proofs use only that they are distinct strings.
- The second, type-level validation of `prompt_messages` as `list[PromptMessage]` after the normaliser is not modelled separately. It accepts every object the normaliser produces.
- The contents of `credentials`, `parameters` and `model_parameters` are opaque maps of decoded values. Floating-point numbers are not among the modelled values.
- The transport that delivers requests and the dispatcher that consumes them are outside this file and are not modelled.
