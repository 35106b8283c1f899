/** Turning a model's tool call into a canvas action (app/modules/session/canvas_tools.py). */
module CanvasTools {
  import opened Transcript
  import Text

  type Fields = map<string, ArgValue>

  /** `Rejected` is the exception a non-string, truthy `target_block` causes. */
  datatype Mapped = NotAnAction | Rejected | Action(fields: Fields)

  const RUN_TOOLS := {"run_block", "regenerate_block"}
  const TARGETED_TOOLS := RUN_TOOLS + {"set_port_value", "add_port", "remove_port", "rename_port",
                                       "open_port", "set_description", "delete_block"}
  const TARGETED_KEYS := {"direction", "port_name", "value", "description", "old_port_name", "new_port_name"}
  const WIRE_KEYS := {"from_block", "from_port", "to_block", "to_port"}
  const LOAD_KEYS := {"block_type", "category", "block_name"}
  const CREATE_KEYS := {"block_type", "block_name", "description", "category", "language", "address",
                        "url", "gpu_model", "instance_type", "top", "pdk", "clock_period", "data",
                        "spec", "explanation", "fix", "source_code", "memory_mode", "filter_type"}
  const LIST_KEYS := {"inputs", "outputs", "connections"}

  function Truthy(v: ArgValue): bool {
    match v
    case Null => false
    case Str(s) => s != ""
    case Other(truthy, _) => truthy
  }

  /** `str(v)`. */
  function Rendered(v: ArgValue): string {
    match v
    case Null => "None"
    case Str(s) => s
    case Other(_, rendered) => rendered
  }

  /** `d.get(key, "")`. */
  function Get(fields: Fields, key: string): ArgValue {
    if key in fields then fields[key] else Str("")
  }

  function Copied(args: Fields, keys: set<string>): Fields {
    map k | k in keys && k in args && !args[k].Null? :: args[k]
  }

  function DefaultTargetBlock(activeNames: seq<string>): string {
    if |activeNames| == 1 then activeNames[0] else ""
  }

  function TargetedFields(args: Fields, target: string): Fields {
    Copied(args, TARGETED_KEYS) + if target != "" then map["target_block" := Str(target)] else map[]
  }

  function LoadFields(args: Fields): Fields {
    map k | k in LOAD_KEYS && k in args && !args[k].Null? :: Str(Text.Strip(Rendered(args[k])))
  }

  function CreateFields(args: Fields): Fields {
    Copied(args, CREATE_KEYS) + map k | k in LIST_KEYS && k in args :: args[k]
  }

  /** The action dict, which starts with its type. */
  function Typed(name: string, fields: Fields): Mapped {
    Action(map["type" := Str(name)] + fields)
  }

  function FunctionCallToAction(name: string, args: Fields, activeNames: seq<string>): Mapped {
    if name in TARGETED_TOOLS then
      var raw := Get(args, "target_block");
      if Truthy(raw) && !raw.Str? then Rejected
      else
        var named := if Truthy(raw) then Text.Strip(raw.s) else "";
        Typed(name, TargetedFields(args, if named != "" then named else DefaultTargetBlock(activeNames)))
    else if name in {"connect_ports", "disconnect_ports"} then Typed(name, Copied(args, WIRE_KEYS))
    else if name == "load_block" then Typed(name, LoadFields(args))
    else if name == "create_block" then Typed(name, CreateFields(args))
    else NotAnAction
  }

  /** The arguments a tool hands on under their own names. */
  function Carried(name: string): set<string> {
    if name in TARGETED_TOOLS then TARGETED_KEYS
    else if name in {"connect_ports", "disconnect_ports"} then WIRE_KEYS
    else if name == "load_block" then LOAD_KEYS
    else if name == "create_block" then CREATE_KEYS
    else {}
  }

  /** What `fields` has of the arguments `keys`: each that is not null, as it is (or trimmed). */
  ghost predicate Carries(fields: Fields, args: Fields, keys: set<string>, trimmed: bool) {
    forall k :: k in keys && k in args && !args[k].Null? ==>
      Get(fields, k) == if trimmed then Str(Text.Strip(Rendered(args[k]))) else args[k]
  }

  /** All of them are there, and none of them is the type. */
  ghost predicate Holds(fields: Fields, args: Fields, keys: set<string>, trimmed: bool) {
    && Carries(fields, args, keys, trimmed) && "type" !in fields && "type" !in keys
    && forall k :: k in keys && k in args && !args[k].Null? ==> k in fields
  }

  lemma TypedCarries(name: string, fields: Fields, args: Fields, keys: set<string>, trimmed: bool)
    requires Holds(fields, args, keys, trimmed)
    ensures Carries(Typed(name, fields).fields, args, keys, trimmed)
    ensures Get(Typed(name, fields).fields, "type") == Str(name)
  {
  }

  lemma TargetedHolds(args: Fields, target: string)
    ensures Holds(TargetedFields(args, target), args, TARGETED_KEYS, false)
  {
  }

  lemma WireHolds(args: Fields)
    ensures Holds(Copied(args, WIRE_KEYS), args, WIRE_KEYS, false)
  {
  }

  lemma LoadHolds(args: Fields)
    ensures Holds(LoadFields(args), args, LOAD_KEYS, true)
  {
  }

  lemma ListsApart()
    ensures CREATE_KEYS !! LIST_KEYS && "type" !in CREATE_KEYS && "type" !in LIST_KEYS
  {
  }

  lemma CreateHolds(args: Fields)
    ensures Holds(CreateFields(args), args, CREATE_KEYS, false)
  {
    ListsApart();
  }

  function Chosen(args: Fields): string {
    var raw := Get(args, "target_block");
    if raw.Str? then Text.Strip(raw.s) else ""
  }

  function TargetOf(args: Fields, activeNames: seq<string>): string {
    if Chosen(args) != "" then Chosen(args) else DefaultTargetBlock(activeNames)
  }

  lemma TargetedAction(name: string, args: Fields, activeNames: seq<string>)
    requires name in TARGETED_TOOLS && FunctionCallToAction(name, args, activeNames).Action?
    ensures FunctionCallToAction(name, args, activeNames)
         == Typed(name, TargetedFields(args, TargetOf(args, activeNames)))
    ensures Carried(name) == TARGETED_KEYS && name != "load_block"
  {
  }

  lemma WireAction(name: string, args: Fields, activeNames: seq<string>)
    requires name in {"connect_ports", "disconnect_ports"}
    ensures FunctionCallToAction(name, args, activeNames) == Typed(name, Copied(args, WIRE_KEYS))
    ensures Carried(name) == WIRE_KEYS && name != "load_block"
  {
  }

  lemma LoadAction(args: Fields, activeNames: seq<string>)
    ensures FunctionCallToAction("load_block", args, activeNames) == Typed("load_block", LoadFields(args))
    ensures Carried("load_block") == LOAD_KEYS
  {
  }

  lemma CreateAction(args: Fields, activeNames: seq<string>)
    ensures FunctionCallToAction("create_block", args, activeNames) == Typed("create_block", CreateFields(args))
    ensures Carried("create_block") == CREATE_KEYS
  {
  }

  lemma ToolsOfActions(name: string, args: Fields, activeNames: seq<string>)
    requires FunctionCallToAction(name, args, activeNames).Action?
    ensures name in TARGETED_TOOLS || name in {"connect_ports", "disconnect_ports"}
         || name == "load_block" || name == "create_block"
  {
  }

  /**
   An action is named after its tool and loses none of the arguments the tool hands on: each is there unchanged,
   or trimmed for `load_block`.  A null is taken for an absent one.
   */
  lemma ActionLosesNothing(name: string, args: Fields, activeNames: seq<string>)
    requires FunctionCallToAction(name, args, activeNames).Action?
    ensures Get(FunctionCallToAction(name, args, activeNames).fields, "type") == Str(name)
    ensures Carries(FunctionCallToAction(name, args, activeNames).fields, args, Carried(name), name == "load_block")
  {
    ToolsOfActions(name, args, activeNames);
    if name in TARGETED_TOOLS {
      TargetedAction(name, args, activeNames);
      TargetedHolds(args, TargetOf(args, activeNames));
      TypedCarries(name, TargetedFields(args, TargetOf(args, activeNames)), args, TARGETED_KEYS, false);
    } else if name == "load_block" {
      LoadAction(args, activeNames);
      LoadHolds(args);
      TypedCarries(name, LoadFields(args), args, LOAD_KEYS, true);
    } else if name == "create_block" {
      CreateAction(args, activeNames);
      CreateHolds(args);
      TypedCarries(name, CreateFields(args), args, CREATE_KEYS, false);
    } else {
      WireAction(name, args, activeNames);
      WireHolds(args);
      TypedCarries(name, Copied(args, WIRE_KEYS), args, WIRE_KEYS, false);
    }
  }

  /** Nor is anything in it that was not given, but for the name of the action and of its target. */
  lemma ActionInventsNothing(name: string, args: Fields, activeNames: seq<string>, key: string)
    requires FunctionCallToAction(name, args, activeNames).Action?
    requires key in FunctionCallToAction(name, args, activeNames).fields && key !in {"type", "target_block"}
    ensures key in args && key in Carried(name) + LIST_KEYS
  {
  }

  /** The block a targeted action names: the call's own choice, else the only active block. */
  lemma ActionTarget(name: string, args: Fields, active: string)
    requires name in TARGETED_TOOLS && FunctionCallToAction(name, args, [active]).Action?
    ensures Get(FunctionCallToAction(name, args, [active]).fields, "target_block")
         == Str(if Chosen(args) != "" then Chosen(args) else active)
  {
  }
}
