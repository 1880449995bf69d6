/**
  The `config` object: a tree that `add` and the validation edit in place.
  Each method is proved against the function that describes it.
 */
module ConfigStore {
  import opened Uplinks
  import opened JsonTree
  import opened ConfigModel

  // ----- Walking a tree by path --------------------------------------------

  /** Where a pointer that has followed `path` points; missing nodes read as null. */
  function Node(tree: Json, path: Path): Json
    decreases |path|
  {
    if path == [] then tree else Node(Get(Fields(tree), path[0]), path[1..])
  }

  /** The tree after writing through a pointer that has followed `path`. */
  function Place(tree: Json, path: Path, v: Json): Json
    decreases |path|
  {
    if path == [] then v
    else Obj(Fields(tree)[path[0] := Place(Get(Fields(tree), path[0]), path[1..], v)])
  }

  lemma {:induction false} NodeChild(tree: Json, path: Path, key: string)
    ensures Node(tree, path + [key]) == Get(Fields(Node(tree, path)), key)
    decreases |path|
  {
    if path == [] {
      assert path + [key] == [key];
    } else {
      assert (path + [key])[1..] == path[1..] + [key];
      NodeChild(Get(Fields(tree), path[0]), path[1..], key);
    }
  }

  lemma {:induction false} PlaceChild(tree: Json, path: Path, key: string, v: Json)
    ensures Place(tree, path, Obj(Fields(Node(tree, path))[key := v])) == Place(tree, path + [key], v)
    decreases |path|
  {
    if path == [] {
      assert path + [key] == [key];
    } else {
      assert (path + [key])[1..] == path[1..] + [key];
      PlaceChild(Get(Fields(tree), path[0]), path[1..], key, v);
    }
  }

  /** A placement below a node, seen from the root. */
  function Lifted(tree: Json, path: Path, p: Placement): Placement
  {
    match p case Placed(sub) => Placed(Place(tree, path, sub)) case other => other
  }

  lemma {:induction false} LiftStep(tree: Json, path: Path, rest: Path, v: Json)
    requires |rest| > 1 && var node := Node(tree, path); node.Null? || node.Obj?
    ensures Lifted(tree, path, Insert(Node(tree, path), rest, v)) ==
            Lifted(tree, path + [rest[0]], Insert(Node(tree, path + [rest[0]]), rest[1..], v))
  {
    var node := Node(tree, path);
    NodeChild(tree, path, rest[0]);
    var below := Insert(Get(Fields(node), rest[0]), rest[1..], v);
    if below.Placed? {
      PlaceChild(tree, path, rest[0], below.tree);
    }
  }

  /** The walk of `config::add` for one parameter. */
  method InsertParameter(entity: Json, key: string, v: Json) returns (r: Placement)
    ensures r == Insert(entity, Segments(key), v)
  {
    var path: Path := [];
    var start := 0;
    ghost var rest := Segments(key);
    var dot := FindDot(key, 0);
    while dot.Some? && dot.value != 0
      invariant start <= |key| && dot == FindDot(key, start)
      invariant rest != []
      invariant dot != Some(0) ==> rest == SegmentsFrom(key, start)
      invariant dot == Some(0) ==> start == 0 && rest == [key]
      invariant Insert(entity, Segments(key), v) == Lifted(entity, path, Insert(Node(entity, path), rest, v))
      decreases |key| - start
    {
      var node := Node(entity, path);
      if !node.Null? && !node.Obj? {
        return Blocked;
      }
      var subkey := key[start..dot.value];
      LiftStep(entity, path, rest, v);
      assert ([subkey] + SegmentsFrom(key, dot.value + 1))[1..] == SegmentsFrom(key, dot.value + 1);
      path := path + [subkey];
      start := dot.value + 1;
      dot := FindDot(key, start);
      rest := rest[1..];
    }
    var node := Node(entity, path);
    var last := key[start..];
    assert rest == [last];
    if !node.Null? && !node.Obj? {
      return Throws;
    }
    NodeChild(entity, path, last);
    var slot := Node(entity, path + [last]);
    if !slot.Null? {
      return Taken;
    }
    PlaceChild(entity, path, last, v);
    r := Placed(Place(entity, path + [last], v));
  }

  // ----- The object --------------------------------------------------------

  datatype Check = Fine | Thrown | Asserted

  /** A method that edits `tree` in place has done what the function says. */
  ghost predicate Matches(c: Check, tree: Tree, v: Verdict)
  {
    match v
    case Pass(t) => c == Fine && tree == t
    case Reject(t) => c == Thrown && tree == t
    case Abort => c == Asserted
  }

  class Config {
    const order: Order
    const parse: Parser
    var mutable: bool
    var tree: Tree

    constructor (order: Order, parse: Parser, tree: Tree)
      ensures this.order == order && this.parse == parse && this.tree == tree && !mutable
    {
      this.order, this.parse, this.tree, this.mutable := order, parse, tree, false;
    }

    /** The copy constructor: a copy can be modified. */
    constructor Copy(other: Config)
      ensures order == other.order && parse == other.parse && tree == other.tree && mutable
    {
      order, parse, tree, mutable := other.order, other.parse, other.tree, true;
    }

    /** `operator=` copies the tree only. */
    method Assign(other: Config)
      modifies this`tree
      ensures tree == other.tree
    {
      tree := other.tree;
    }

    /** `try_get` */
    method TryGet(name: string) returns (found: Option<Json>)
      ensures found.Some? <==> name in tree
      ensures found.Some? ==> found.value == tree[name]
    {
      found := if name in tree then Some(tree[name]) else None;
    }

    method CheckOne(name: string, key: string) returns (c: Check)
      modifies this`tree
      ensures Matches(c, tree, CheckParameter(old(tree), name, key))
    {
      if Hidden(key) || key == "role" || key == "external" {
        return Fine;
      }
      if key == "default" {
        var owner := Get(tree, DEFAULT_NETNS);
        if owner.Null? {
          tree := tree[DEFAULT_NETNS := Str(name)];
          return Fine;
        }
        return if owner == Str(name) then Fine else Thrown;
      }
      var net := Net(tree, name);
      if key == "address" {
        return if Get(net, ":role") == Num(RoleCode("switch")) then Fine else Thrown;
      }
      if key == "uplink" {
        c := CheckUplinkOf(Get(net, "uplink"));
        return;
      }
      c := Thrown;
    }

    method CheckUplinkOf(uplink: Json) returns (c: Check)
      modifies this`tree
      ensures Matches(c, tree, CheckUplink(old(tree), uplink))
    {
      if !uplink.Str? || uplink.s !in tree {
        return Thrown;
      }
      var u := uplink.s;
      if !tree[u].Obj? || "network" !in tree[u].fields {
        return Thrown;
      }
      if tree[u].fields["network"].Str? {
        return Asserted;
      }
      if !tree[u].fields["network"].Obj? {
        return Thrown;
      }
      var net := tree[u].fields["network"].fields;
      if "role" !in net {
        tree := SetNet(tree, u, net["role" := Null]);
      }
      c := if Get(net, "role") == Str("client") then Thrown else Fine;
    }

    /** `_validate_network` */
    method ValidateNetworkOf(name: string) returns (c: Check)
      modifies this`tree
      ensures Matches(c, tree, ValidateNetwork(order, old(tree), name))
    {
      if !HasNet(tree, name) || !RoleKnown(Net(tree, name)) {
        return Thrown;
      }
      var net := WithRoleCode(Net(tree, name));
      tree := SetNet(tree, name, net);
      ghost var coded := tree;
      var keys := order(net.Keys);
      var i := 0;
      while i < |keys|
        invariant i <= |keys|
        invariant CheckParameters(coded, name, keys) == CheckParameters(tree, name, keys[i..])
      {
        assert keys[i..][0] == keys[i] && keys[i..][1..] == keys[i + 1..];
        c := CheckOne(name, keys[i]);
        if c != Fine {
          return;
        }
        i := i + 1;
      }
      c := Fine;
    }

    /** `_validate_entity` */
    method ValidateEntityOf(name: string) returns (c: Check)
      requires name in tree
      modifies this`tree
      ensures Matches(c, tree, ValidateEntity(order, old(tree), name))
    {
      var entity := tree[name];
      if !entity.Obj? {
        return if entity.Null? || entity == Arr([]) then Fine else Thrown;
      }
      var types := order(entity.fields.Keys);
      var i := 0;
      while i < |types|
        invariant i <= |types|
        invariant ValidateComponents(order, old(tree), name, types) == ValidateComponents(order, tree, name, types[i..])
      {
        assert types[i..][0] == types[i] && types[i..][1..] == types[i + 1..];
        if types[i] != "network" {
          return Thrown;
        }
        c := ValidateNetworkOf(name);
        if c != Fine {
          return;
        }
        i := i + 1;
      }
      c := Fine;
    }

    /** `config::add` */
    method AddEntity(name: string, ps: seq<Parameter>) returns (outcome: Outcome)
      modifies this`tree
      ensures var r := Add(order, parse, mutable, old(tree), name, ps);
              outcome == r.outcome && (!outcome.Terminated? ==> tree == r.tree)
    {
      if !mutable {
        return Refused(EROFS);
      }
      if name in tree {
        return Refused(EEXIST);
      }
      var entity := Empty;
      ghost var settings := SettingsOf(parse, ps);
      var i := 0;
      while i < |ps|
        invariant i <= |ps| && tree == old(tree)
        invariant Build(Empty, settings) == Build(entity, settings[i..])
        invariant Partial(Empty, settings) == Partial(entity, settings[i..])
      {
        assert settings[i..][0] == settings[i] && settings[i..][1..] == settings[i + 1..];
        var v := match parse(ps[i].text) case None => Str(ps[i].text) case Some(j) => j;
        var p := InsertParameter(entity, ps[i].key, v);
        match p {
          case Throws => return Terminated;
          case Taken => return Refused(EINVAL);
          case Blocked =>
            tree := tree[name := entity];
            return Refused(EINVAL);
          case Placed(entity') =>
            entity := entity';
        }
        i := i + 1;
      }
      tree := tree[name := entity];
      var c := ValidateEntityOf(name);
      match c {
        case Asserted => outcome := Terminated;
        case Thrown =>
          tree := tree - {name};
          outcome := Refused(EINVAL);
        case Fine =>
          outcome := Added;
      }
    }
  }

  /** The loading constructor; null stands for the exception. */
  method LoadConfig(order: Order, parse: Parser, file: Tree) returns (c: Config?)
    ensures c == null <==> Load(order, file).None?
    ensures c != null ==> fresh(c) && !c.mutable && c.tree == Load(order, file).value && c.order == order && c.parse == parse
  {
    if !MetadataOk(file) {
      return null;
    }
    c := new Config(order, parse, file);
    var visits := order(file.Keys + {DEFAULT_NETNS});
    var i := 0;
    while i < |visits|
      invariant i <= |visits| && c != null && fresh(c) && !c.mutable && c.order == order && c.parse == parse
      invariant ValidateAll(order, file, visits) == ValidateAll(order, c.tree, visits[i..])
    {
      assert visits[i..][0] == visits[i] && visits[i..][1..] == visits[i + 1..];
      if visits[i] != METADATA && visits[i] in c.tree {
        var check := c.ValidateEntityOf(visits[i]);
        if check != Fine {
          return null;
        }
      }
      i := i + 1;
    }
  }
}
