/** The role normaliser that `ModelInvokeLLMRequest` runs on its
    `prompt_messages` before type validation: every raw record of the list is
    replaced, in place, by the message class its `role` names. */
module PromptMessages {
  import opened Wrappers
  import opened Values

  /** The four values of `PromptMessageRole` the normaliser compares against. */
  const UserRole: string := "user"
  const AssistantRole: string := "assistant"
  const SystemRole: string := "system"
  const ToolRole: string := "tool"

  /** The class a record is turned into: one per known role, and the generic
      `PromptMessage` for everything else. */
  datatype MessageClass =
    | UserMessage
    | AssistantMessage
    | SystemMessage
    | ToolMessage
    | GenericMessage

  /** The role value a class is dedicated to; the generic class has none. */
  function RoleOf(c: MessageClass): (r: Option<string>)
    ensures r.None? <==> c == GenericMessage
  {
    match c
    case UserMessage => Some(UserRole)
    case AssistantMessage => Some(AssistantRole)
    case SystemMessage => Some(SystemRole)
    case ToolMessage => Some(ToolRole)
    case GenericMessage => None
  }

  /** The class chosen for a record's `role` value. A dedicated class is chosen
      exactly for its own role string; any other value, a string or not, gets
      the generic class. */
  function ClassOfRole(role: Value): (c: MessageClass)
    ensures RoleOf(c).Some? ==> role == Str(RoleOf(c).value)
    ensures c == GenericMessage <==> forall k :: RoleOf(k).Some? ==> role != Str(RoleOf(k).value)
  {
    if role == Str(UserRole) then UserMessage
    else if role == Str(AssistantRole) then AssistantMessage
    else if role == Str(SystemRole) then SystemMessage
    else if role == Str(ToolRole) then ToolMessage
    else GenericMessage
  }

  /** A constructed message: its class and the record it was built from (the
      class's own fields are not part of this model). */
  datatype PromptMessage = PromptMessage(cls: MessageClass, fields: map<string, Value>)

  /** An element of the Python list: a decoded value, or a message object
      already constructed. */
  datatype Item = Raw(value: Value) | Built(message: PromptMessage)

  /** What the validator is called with: a list, or anything else. */
  datatype Argument = ListArgument(items: array<Item>) | NonList

  /** Whether a message class's constructor accepts a record's fields; those
      classes are not part of this model, so callers supply the judgement. */
  type MessageSchema = (MessageClass, map<string, Value>) -> bool

  /** Why one element could not be converted: indexing a non-dict with
      `'role'` raises `TypeError`, a dict without the key raises `KeyError`,
      and the chosen class may reject the record. */
  datatype Fault = NotSubscriptable | NoRole | Refused(cls: MessageClass)

  datatype ConvertError =
    | NotAList
    | ElementFailed(index: nat, fault: Fault)

  /** One step of the loop, as a function of the element alone. */
  function NormalizeItem(x: Item, accepts: MessageSchema): (r: Result<PromptMessage, Fault>)
    ensures r.Success? ==>
      x.Raw? && x.value.Object? && "role" in x.value.fields &&
      r.value == PromptMessage(ClassOfRole(x.value.fields["role"]), x.value.fields)
    ensures !(x.Raw? && x.value.Object?) ==> r == Failure(NotSubscriptable)
    ensures x.Raw? && x.value.Object? && "role" !in x.value.fields ==> r == Failure(NoRole)
    ensures x.Raw? && x.value.Object? && "role" in x.value.fields ==>
      (r.Success? <==> accepts(ClassOfRole(x.value.fields["role"]), x.value.fields))
    ensures x.Raw? && x.value.Object? && "role" in x.value.fields && r.Failure? ==>
      r.error == Refused(ClassOfRole(x.value.fields["role"]))
    ensures r.Failure? && r.error.Refused? ==>
      x.Raw? && x.value.Object? && "role" in x.value.fields &&
      r.error.cls == ClassOfRole(x.value.fields["role"]) && !accepts(r.error.cls, x.value.fields)
  {
    if !x.Raw? || !x.value.Object? then Failure(NotSubscriptable)
    else if "role" !in x.value.fields then Failure(NoRole)
    else
      var c := ClassOfRole(x.value.fields["role"]);
      if accepts(c, x.value.fields) then Success(PromptMessage(c, x.value.fields))
      else Failure(Refused(c))
  }

  /** The whole list: every element converted, or the first element that
      fails. */
  function NormalizeList(s: seq<Item>, accepts: MessageSchema): (r: Result<seq<PromptMessage>, ConvertError>)
    ensures r.Success? ==> |r.value| == |s|
    ensures r.Failure? ==> r.error.ElementFailed? && r.error.index < |s|
    decreases |s|
  {
    if s == [] then Success([])
    else
      var n := |s| - 1;
      match NormalizeList(s[..n], accepts)
      case Failure(e) => Failure(e)
      case Success(ms) =>
        match NormalizeItem(s[n], accepts)
        case Failure(f) => Failure(ElementFailed(n, f))
        case Success(m) => Success(ms + [m])
  }

  /** The validator on a decoded value: only a list is accepted. */
  function Convert(v: Value, accepts: MessageSchema): (r: Result<seq<PromptMessage>, ConvertError>)
    ensures !v.List? ==> r == Failure(NotAList)
    ensures v.List? && r.Success? ==> |r.value| == |v.elems|
    ensures v.List? ==>
      (r.Success? <==> forall i :: 0 <= i < |v.elems| ==> NormalizeItem(Raw(v.elems[i]), accepts).Success?)
  {
    if v.List? then
      NormalizeListElementwise(Raws(v.elems), accepts);
      NormalizeList(Raws(v.elems), accepts)
    else Failure(NotAList)
  }

  function Raws(vs: seq<Value>): (r: seq<Item>)
    ensures |r| == |vs| && forall i :: 0 <= i < |vs| ==> r[i] == Raw(vs[i])
  {
    seq(|vs|, i requires 0 <= i < |vs| => Raw(vs[i]))
  }

  /** `y` is what the loop writes over `x`. */
  ghost predicate Converts(x: Item, y: Item, accepts: MessageSchema) {
    NormalizeItem(x, accepts).Success? && y == Built(NormalizeItem(x, accepts).value)
  }

  /** Position `i` of the result is built from position `i` of the input
      alone, and the list converts exactly when every element does. */
  lemma {:induction false} NormalizeListElementwise(s: seq<Item>, accepts: MessageSchema)
    ensures NormalizeList(s, accepts).Success? <==>
      forall i :: 0 <= i < |s| ==> NormalizeItem(s[i], accepts).Success?
    ensures NormalizeList(s, accepts).Success? ==>
      forall i :: 0 <= i < |s| ==> NormalizeItem(s[i], accepts) == Success(NormalizeList(s, accepts).value[i])
    decreases |s|
  {
    if s != [] {
      var n := |s| - 1;
      NormalizeListElementwise(s[..n], accepts);
      assert forall i :: 0 <= i < n ==> s[..n][i] == s[i];
    }
  }

  /** A failure is reported at the first element that fails, with that
      element's own fault. */
  lemma {:induction false} NormalizeListFirstFailure(s: seq<Item>, accepts: MessageSchema)
    ensures NormalizeList(s, accepts).Failure? ==>
      var e := NormalizeList(s, accepts).error;
      NormalizeItem(s[e.index], accepts) == Failure(e.fault) &&
      forall j :: 0 <= j < e.index ==> NormalizeItem(s[j], accepts).Success?
    decreases |s|
  {
    if s != [] {
      var n := |s| - 1;
      NormalizeListFirstFailure(s[..n], accepts);
      NormalizeListElementwise(s[..n], accepts);
      assert forall i :: 0 <= i < n ==> s[..n][i] == s[i];
    }
  }

  /** On a decoded list: each output message has the class its record's role
      names and keeps the record as its payload, in the input's order. */
  lemma ConvertElementwise(v: Value, accepts: MessageSchema)
    requires v.List? && Convert(v, accepts).Success?
    ensures forall i :: 0 <= i < |v.elems| ==>
      v.elems[i].Object? && "role" in v.elems[i].fields &&
      Convert(v, accepts).value[i] ==
        PromptMessage(ClassOfRole(v.elems[i].fields["role"]), v.elems[i].fields)
  {
    NormalizeListElementwise(Raws(v.elems), accepts);
  }

  /** Once the prefix before `k` converts and element `k` fails, the list
      fails at `k`, whatever follows. */
  lemma {:induction false} NormalizeListStopsAt(s: seq<Item>, k: nat, accepts: MessageSchema)
    requires k < |s|
    requires NormalizeList(s[..k], accepts).Success?
    requires NormalizeItem(s[k], accepts).Failure?
    ensures NormalizeList(s, accepts) == Failure(ElementFailed(k, NormalizeItem(s[k], accepts).error))
    decreases |s|
  {
    var n := |s| - 1;
    if k < n {
      assert s[..n][..k] == s[..k];
      NormalizeListStopsAt(s[..n], k, accepts);
    } else {
      assert s[..n] == s[..k];
    }
  }

  /** `ModelInvokeLLMRequest.convert_prompt_messages`: a non-list is rejected
      before anything is looked at; otherwise the elements are overwritten one
      by one, and the same list is returned. When element `k` fails, the
      elements before it have already been replaced and the rest are as they
      were. */
  method ConvertPromptMessages(v: Argument, accepts: MessageSchema) returns (r: Result<array<Item>, ConvertError>)
    modifies if v.ListArgument? then {v.items} else {}
    ensures v.NonList? ==> r == Failure(NotAList)
    ensures v.ListArgument? ==>
      match NormalizeList(old(v.items[..]), accepts)
      case Success(ms) =>
        r == Success(v.items) &&
        forall j :: 0 <= j < v.items.Length ==> v.items[j] == Built(ms[j])
      case Failure(e) =>
        r == Failure(e) &&
        (forall j :: 0 <= j < e.index ==> Converts(old(v.items[j]), v.items[j], accepts)) &&
        v.items[e.index..] == old(v.items[e.index..])
  {
    if v.NonList? {
      return Failure(NotAList);
    }
    var a := v.items;
    ghost var s := a[..];
    var i := 0;
    while i < a.Length
      invariant 0 <= i <= a.Length
      invariant NormalizeList(s[..i], accepts).Success?
      invariant forall j :: 0 <= j < i ==> Converts(s[j], a[j], accepts)
      invariant a[i..] == s[i..]
    {
      assert a[i] == s[i];
      var fault: Option<Fault> := None;
      match a[i] {
        case Built(_) =>
          fault := Some(NotSubscriptable);
        case Raw(x) =>
          if !x.Object? {
            fault := Some(NotSubscriptable);
          } else if "role" !in x.fields {
            fault := Some(NoRole);
          } else {
            var cls;
            if x.fields["role"] == Str(UserRole) {
              cls := UserMessage;
            } else if x.fields["role"] == Str(AssistantRole) {
              cls := AssistantMessage;
            } else if x.fields["role"] == Str(SystemRole) {
              cls := SystemMessage;
            } else if x.fields["role"] == Str(ToolRole) {
              cls := ToolMessage;
            } else {
              cls := GenericMessage;
            }
            if accepts(cls, x.fields) {
              a[i] := Built(PromptMessage(cls, x.fields));
            } else {
              fault := Some(Refused(cls));
            }
          }
      }
      if fault.Some? {
        assert NormalizeItem(s[i], accepts) == Failure(fault.value);
        NormalizeListStopsAt(s, i, accepts);
        return Failure(ElementFailed(i, fault.value));
      }
      assert s[..i + 1][..i] == s[..i];
      i := i + 1;
    }
    assert s[..i] == s;
    NormalizeListElementwise(s, accepts);
    return Success(a);
  }

  /** A usage example, not a model of any operation: what a caller can
      conclude from the contract alone. A system turn keeps its class, an
      unknown role falls back to the generic class, a record without a role
      stops the conversion after the earlier elements have been replaced, and
      a class that rejects its record is named in the failure. */
  method ConvertClient() {
    var accepts: MessageSchema := (c, f) => true;
    var system := map["role" := Str(SystemRole), "content" := Str("hi")];
    var pigeon := map["role" := Str("carrier_pigeon")];
    var a := new Item[2][Raw(Object(system)), Raw(Object(pigeon))];
    assert a[..] == [Raw(Object(system)), Raw(Object(pigeon))];
    var r := ConvertPromptMessages(ListArgument(a), accepts);
    assert r == Success(a);
    assert a[0] == Built(PromptMessage(SystemMessage, system));
    assert a[1] == Built(PromptMessage(GenericMessage, pigeon));

    var roleless := map["content" := Str("hello")];
    var b := new Item[2][Raw(Object(system)), Raw(Object(roleless))];
    assert b[..] == [Raw(Object(system)), Raw(Object(roleless))];
    r := ConvertPromptMessages(ListArgument(b), accepts);
    assert r == Failure(ElementFailed(1, NoRole));
    assert b[0] == Built(PromptMessage(SystemMessage, system));
    assert b[1..] == [Raw(Object(roleless))];
    assert b[1] == b[1..][0] == Raw(Object(roleless));

    var noSystem: MessageSchema := (c, f) => c != SystemMessage;
    var d := new Item[1][Raw(Object(system))];
    assert d[..] == [Raw(Object(system))];
    r := ConvertPromptMessages(ListArgument(d), noSystem);
    assert r == Failure(ElementFailed(0, Refused(SystemMessage)));
    assert d[0..] == [Raw(Object(system))];
    assert d[0] == d[0..][0] == Raw(Object(system));

    r := ConvertPromptMessages(NonList, accepts);
    assert r == Failure(NotAList);
  }
}
