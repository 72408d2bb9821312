/** The per-request binding of Bedrock tool names to client tools, and the output item of a call. */
module ToolRegistry {
  import opened Prelude
  import opened Json
  import opened ResponsesSchema

  datatype ToolKind = Function | Custom | LocalShell | Shell | ApplyPatch

  datatype Binding = Binding(bedrockName: string, clientName: string, namespace: Option<string>, kind: ToolKind)

  type Registry = seq<Binding>

  function Resolve(registry: Registry, name: string): Option<Binding> {
    if registry == [] then None
    else if registry[0].bedrockName == name then Some(registry[0])
    else Resolve(registry[1..], name)
  }

  /** An unregistered name is a plain function. */
  function KindOf(registry: Registry, name: string): ToolKind {
    match Resolve(registry, name)
    case Some(binding) => binding.kind
    case None => Function
  }

  /** The kinds whose `output_item.added` waits until the whole call is known. */
  predicate IsLate(kind: ToolKind) {
    kind == LocalShell || kind == Shell || kind == ApplyPatch
  }

  function WithStatus(kind: ToolKind, status: Option<string>, fields: map<string, Json>): map<string, Json> {
    if (kind == Shell || kind == ApplyPatch) && status.Some?
    then fields["status" := String(status.value)]
    else fields
  }

  function ToolOutputItem(registry: Registry, callId: string, name: string, input: Json, arguments: string,
                          status: Option<string>): OutputItem {
    match Resolve(registry, name)
    case None =>
      FunctionCall(Some("fc_" + callId), callId, name, None, arguments, status)
    case Some(binding) =>
      match binding.kind
      case Function =>
        FunctionCall(Some("fc_" + callId), callId, binding.clientName, binding.namespace, arguments, status)
      case Custom =>
        Other("custom_tool_call",
              map["id" := String("ct_" + callId), "call_id" := String(callId),
                  "input" := input.Get("input").GetOr(String(arguments)),
                  "name" := String(binding.clientName)])
      case LocalShell =>
        Other("local_shell_call",
              map["id" := String("lsc_" + callId), "call_id" := String(callId),
                  "action" := input.Get("action").GetOr(input)])
      case Shell =>
        Other("shell_call",
              WithStatus(Shell, status,
                         map["id" := String("sh_" + callId), "call_id" := String(callId), "action" := input]))
      case ApplyPatch =>
        Other("apply_patch_call",
              WithStatus(ApplyPatch, status,
                         map["id" := String("ap_" + callId), "call_id" := String(callId),
                             "operation" := input.Get("operation").GetOr(input)]))
  }

  /** A field of the item that is not a function call. */
  predicate Carries(item: OutputItem, key: string, value: Json) {
    item.Other? && key in item.fields && item.fields[key] == value
  }

  /** The item has a status of its own exactly when its kind shows one and there is one. */
  predicate ShowsStatus(item: OutputItem, kind: ToolKind, status: Option<string>) {
    match item
    case FunctionCall(_, _, _, _, _, shown) => shown == status
    case Other(_, fields) =>
      ("status" in fields <==> (kind == Shell || kind == ApplyPatch) && status.Some?)
      && ("status" in fields ==> fields["status"] == String(status.value))
    case _ => false
  }

  /** The name a client knows a tool by. */
  function ClientName(registry: Registry, name: string): string {
    match Resolve(registry, name)
    case None => name
    case Some(binding) => binding.clientName
  }

  function ClientNamespace(registry: Registry, name: string): Option<string> {
    match Resolve(registry, name)
    case None => None
    case Some(binding) => binding.namespace
  }

  /** The item is that of the call with this id and Bedrock name. */
  predicate IsItemOf(registry: Registry, callId: string, name: string, item: OutputItem) {
    match KindOf(registry, name)
    case Function =>
      && item.FunctionCall? && item.itemId == Some("fc_" + callId) && item.callId == callId
      && item.name == ClientName(registry, name) && item.namespace == ClientNamespace(registry, name)
    case Custom =>
      && item.Other? && item.itemType == "custom_tool_call" && Carries(item, "name", String(ClientName(registry, name)))
      && Carries(item, "id", String("ct_" + callId)) && Carries(item, "call_id", String(callId))
    case LocalShell =>
      && item.Other? && item.itemType == "local_shell_call"
      && Carries(item, "id", String("lsc_" + callId)) && Carries(item, "call_id", String(callId))
    case Shell =>
      && item.Other? && item.itemType == "shell_call"
      && Carries(item, "id", String("sh_" + callId)) && Carries(item, "call_id", String(callId))
    case ApplyPatch =>
      && item.Other? && item.itemType == "apply_patch_call"
      && Carries(item, "id", String("ap_" + callId)) && Carries(item, "call_id", String(callId))
  }

  /** What the item does: a function's arguments as they are, and the payload of the other kinds. */
  predicate DoesWhatIsAsked(registry: Registry, name: string, input: Json, arguments: string, item: OutputItem) {
    match KindOf(registry, name)
    case Function => item.FunctionCall? && item.arguments == arguments
    case Custom => Carries(item, "input", input.Get("input").GetOr(String(arguments)))
    case LocalShell => Carries(item, "action", input.Get("action").GetOr(input))
    case Shell => Carries(item, "action", input)
    case ApplyPatch => Carries(item, "operation", input.Get("operation").GetOr(input))
  }

  /** The kind of a call decides the wire type of its item. */
  lemma {:induction false} ToolItemShape(registry: Registry, callId: string, name: string, input: Json,
                                         arguments: string, status: Option<string>)
    ensures var item := ToolOutputItem(registry, callId, name, input, arguments, status);
            match KindOf(registry, name)
            case Function => item.FunctionCall? && item.callId == callId && item.arguments == arguments
            case Custom => item.Other? && item.itemType == "custom_tool_call"
            case LocalShell => item.Other? && item.itemType == "local_shell_call"
            case Shell => item.Other? && item.itemType == "shell_call"
            case ApplyPatch => item.Other? && item.itemType == "apply_patch_call"
  {
  }

  /**
   * What the item of a call carries: the call's id, under the prefix of its kind and as `call_id`, its client name
   * and namespace, and its arguments or its payload, which is the field that the input wraps it in, or else the
   * whole input, or for a custom tool the arguments.
   */
  lemma {:induction false} ToolItemCarries(registry: Registry, callId: string, name: string, input: Json,
                                           arguments: string, status: Option<string>)
    ensures var item := ToolOutputItem(registry, callId, name, input, arguments, status);
            && IsItemOf(registry, callId, name, item)
            && DoesWhatIsAsked(registry, name, input, arguments, item)
            && ShowsStatus(item, KindOf(registry, name), status)
  {
  }

  /** A tool is known by the first binding of its Bedrock name, and is a plain function without one. */
  lemma {:induction false} ResolveIsFirst(registry: Registry, name: string)
    ensures match Resolve(registry, name)
            case None => KindOf(registry, name) == Function && forall b <- registry :: b.bedrockName != name
            case Some(binding) =>
              && KindOf(registry, name) == binding.kind && binding.bedrockName == name
              && exists i :: 0 <= i < |registry| && registry[i] == binding
                             && forall b <- registry[..i] :: b.bedrockName != name
  {
    if registry != [] {
      var first, rest := registry[0], registry[1..];
      if first.bedrockName == name {
        assert registry[0] == first && registry[..0] == [];
      } else {
        ResolveIsFirst(rest, name);
        if Resolve(rest, name).Some? {
          var i :| 0 <= i < |rest| && rest[i] == Resolve(rest, name).value
                   && forall b <- rest[..i] :: b.bedrockName != name;
          assert registry[i + 1] == rest[i] && registry[..i + 1] == [first] + rest[..i];
        } else {
          assert registry == [first] + rest;
        }
      }
    }
  }
}
