/**
  What loading, adding and validating do to the configuration tree.
 */
module ConfigModel {
  import opened Uplinks
  import opened JsonTree

  type Tree = map<string, Json>

  /** The order in which the JSON library visits the keys of an object. */
  type Order = set<string> -> seq<string>

  ghost predicate IsOrder(order: Order)
  {
    && (forall ks: set<string>, k: string :: k in order(ks) <==> k in ks)
    && (forall ks: set<string> :: NoRepeats(order(ks)))
  }

  ghost predicate NoRepeats(keys: seq<string>)
  {
    forall i, j | 0 <= i < j < |keys| :: keys[i] != keys[j]
  }

  /** The JSON text parser; None stands for text that is not JSON. */
  type Parser = string -> Option<Json>

  datatype Parameter = Parameter(key: string, text: string)

  const METADATA := "!metadata"
  const DEFAULT_NETNS := ":default-netns"

  const EEXIST := 17
  const EINVAL := 22
  const EROFS := 30

  // ----- Parameters --------------------------------------------------------

  /** `key.find('.', from)` */
  function FindDot(key: string, from: nat): (r: Option<nat>)
    requires from <= |key|
    ensures r.Some? ==> from <= r.value < |key| && key[r.value] == '.'
    ensures r.Some? ==> forall i | from <= i < r.value :: key[i] != '.'
    ensures r.None? ==> forall i | from <= i < |key| :: key[i] != '.'
    decreases |key| - from
  {
    if from == |key| then None else if key[from] == '.' then Some(from) else FindDot(key, from + 1)
  }

  function SegmentsFrom(key: string, from: nat): (r: Path)
    requires from <= |key|
    ensures r != []
    decreases |key| - from
  {
    match FindDot(key, from)
    case None => [key[from..]]
    case Some(dot) => [key[from..dot]] + SegmentsFrom(key, dot + 1)
  }

  /** A key is split at its dots, unless it starts with one: then it is a single segment. */
  function Segments(key: string): (r: Path)
    ensures r != []
  {
    if FindDot(key, 0) == Some(0) then [key] else SegmentsFrom(key, 0)
  }

  function ValueOf(parse: Parser, text: string): Json
  {
    match parse(text) case None => Str(text) case Some(j) => j
  }

  function SettingsOf(parse: Parser, ps: seq<Parameter>): (r: seq<Setting>)
    ensures |r| == |ps| && forall s | s in r :: s.path != []
  {
    seq(|ps|, i requires 0 <= i < |ps| => Setting(Segments(ps[i].key), ValueOf(parse, ps[i].text)))
  }

  // ----- Validation --------------------------------------------------------

  datatype Verdict = Pass(tree: Tree) | Reject(tree: Tree) | Abort

  predicate KnownRole(role: string)
  {
    role == "root" || role == "interface" || role == "router" || role == "switch" || role == "client"
  }

  function RoleCode(role: string): int
  {
    if role == "root" then 0 else if role == "interface" then 1 else if role == "router" then 2
    else if role == "switch" then 3 else 4
  }

  predicate Hidden(key: string)
  {
    key != "" && key[0] == ':'
  }

  predicate HasNet(tree: Tree, n: string)
  {
    n in tree && tree[n].Obj? && "network" in tree[n].fields && tree[n].fields["network"].Obj?
  }

  function Net(tree: Tree, n: string): map<string, Json>
  {
    if HasNet(tree, n) then tree[n].fields["network"].fields else map[]
  }

  function SetNet(tree: Tree, n: string, net: map<string, Json>): Tree
    requires n in tree && tree[n].Obj?
  {
    tree[n := Obj(tree[n].fields["network" := Obj(net)])]
  }

  function CheckDefault(tree: Tree, name: string): Verdict
  {
    var owner := Get(tree, DEFAULT_NETNS);
    if owner.Null? then Pass(tree[DEFAULT_NETNS := Str(name)])
    else if owner == Str(name) then Pass(tree)
    else Reject(tree)
  }

  function CheckUplink(tree: Tree, uplink: Json): Verdict
  {
    if !uplink.Str? || uplink.s !in tree then Reject(tree)
    else
      var u := uplink.s;
      if !tree[u].Obj? || "network" !in tree[u].fields then Reject(tree)
      else if tree[u].fields["network"].Str? then Abort
      else if !HasNet(tree, u) then Reject(tree)
      else
        var net := Net(tree, u);
        // `uplink_net["role"]` creates the key if it is missing
        var tree' := if "role" in net then tree else SetNet(tree, u, net["role" := Null]);
        if Get(net, "role") == Str("client") then Reject(tree') else Pass(tree')
  }

  function CheckParameter(tree: Tree, name: string, key: string): Verdict
  {
    var net := Net(tree, name);
    if Hidden(key) || key == "role" || key == "external" then Pass(tree)
    else if key == "default" then CheckDefault(tree, name)
    else if key == "address" then if Get(net, ":role") == Num(RoleCode("switch")) then Pass(tree) else Reject(tree)
    else if key == "uplink" then CheckUplink(tree, Get(net, "uplink"))
    else Reject(tree)
  }

  function CheckParameters(tree: Tree, name: string, keys: seq<string>): Verdict
    decreases |keys|
  {
    if keys == [] then Pass(tree)
    else
      match CheckParameter(tree, name, keys[0])
      case Pass(tree') => CheckParameters(tree', name, keys[1..])
      case other => other
  }

  predicate RoleKnown(net: map<string, Json>)
  {
    "role" in net && net["role"].Str? && KnownRole(net["role"].s)
  }

  function WithRoleCode(net: map<string, Json>): map<string, Json>
    requires RoleKnown(net)
  {
    net[":role" := Num(RoleCode(net["role"].s))]
  }

  function ValidateNetwork(order: Order, tree: Tree, name: string): Verdict
  {
    if !HasNet(tree, name) || !RoleKnown(Net(tree, name)) then Reject(tree)
    else
      var net := WithRoleCode(Net(tree, name));
      CheckParameters(SetNet(tree, name, net), name, order(net.Keys))
  }

  function ValidateComponents(order: Order, tree: Tree, name: string, types: seq<string>): Verdict
    decreases |types|
  {
    if types == [] then Pass(tree)
    else if types[0] != "network" then Reject(tree)
    else
      match ValidateNetwork(order, tree, name)
      case Pass(tree') => ValidateComponents(order, tree', name, types[1..])
      case other => other
  }

  /** Null and empty arrays have no items; any other non-object has items of unknown type. */
  function ValidateEntity(order: Order, tree: Tree, name: string): Verdict
    requires name in tree
  {
    match tree[name]
    case Null => Pass(tree)
    case Arr(items) => if items == [] then Pass(tree) else Reject(tree)
    case Obj(fields) => ValidateComponents(order, tree, name, order(fields.Keys))
    case _ => Reject(tree)
  }

  // ----- Adding an entity --------------------------------------------------

  datatype Outcome = Added | Refused(errno: int) | Terminated

  datatype Result = Result(outcome: Outcome, tree: Tree)

  /** `config::add` */
  function Add(order: Order, parse: Parser, mutable: bool, tree: Tree, name: string, ps: seq<Parameter>): Result
  {
    if !mutable then Result(Refused(EROFS), tree)
    else if name in tree then Result(Refused(EEXIST), tree)
    else
      match Build(Empty, SettingsOf(parse, ps))
      case Throws => Result(Terminated, tree)
      case Taken => Result(Refused(EINVAL), tree)
      case Blocked => Result(Refused(EINVAL), tree[name := Partial(Empty, SettingsOf(parse, ps))])
      case Placed(entity) =>
        match ValidateEntity(order, tree[name := entity], name)
        case Pass(tree') => Result(Added, tree')
        case Reject(tree') => Result(Refused(EINVAL), tree' - {name})
        case Abort => Result(Terminated, tree)
  }

  /** The tree as far as the settings could be inserted. */
  function Partial(tree: Json, settings: seq<Setting>): Json
    requires forall s | s in settings :: s.path != []
    decreases |settings|
  {
    if settings == [] then tree
    else
      match Insert(tree, settings[0].path, settings[0].value)
      case Placed(tree') => Partial(tree', settings[1..])
      case _ => tree
  }

  // ----- Loading -----------------------------------------------------------

  predicate MetadataOk(tree: Tree)
  {
    && METADATA in tree && tree[METADATA].Obj?
    && tree[METADATA].fields.Keys == {"version"}
    && tree[METADATA].fields["version"] == Num(1)
  }

  /** Visiting keys in turn; a key that is not there when its turn comes is not visited. */
  function ValidateAll(order: Order, tree: Tree, visits: seq<string>): Verdict
    decreases |visits|
  {
    if visits == [] then Pass(tree)
    else if visits[0] == METADATA || visits[0] !in tree then ValidateAll(order, tree, visits[1..])
    else
      match ValidateEntity(order, tree, visits[0])
      case Pass(tree') => ValidateAll(order, tree', visits[1..])
      case other => other
  }

  /**
    The loading constructor.  The loop runs over the live map, so a `:default-netns` entry made on
    the way is visited too if it sorts behind the current key.
   */
  function Load(order: Order, file: Tree): Option<Tree>
  {
    if !MetadataOk(file) then None
    else
      match ValidateAll(order, file, order(file.Keys + {DEFAULT_NETNS}))
      case Pass(tree) => Some(tree)
      case _ => None
  }
}
