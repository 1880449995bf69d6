/**
  Inputs of `add` at which the configuration does not behave as one might wish:
  a refused addition that leaves something behind, and an accepted entity that
  is its own uplink.  Texts that are not JSON become strings.
 */
module ConfigInputs {
  import opened Uplinks
  import opened JsonTree
  import opened ConfigModel
  import opened ConfigInvariant
  import opened ConfigAdd
  import opened Commits

  // ----- Keys --------------------------------------------------------------

  lemma {:induction false} LastSegment(key: string, from: nat, a: string)
    requires from <= |key| && key[from..] == a && '.' !in a
    ensures FindDot(key, from) == None && SegmentsFrom(key, from) == [a]
  {
    assert forall i | from <= i < |key| :: key[i] == a[i - from];
  }

  lemma {:induction false} NextSegment(key: string, from: nat, a: string, rest: string)
    requires from <= |key| && key[from..] == a + "." + rest && '.' !in a
    ensures FindDot(key, from) == Some(from + |a|) && from + |a| < |key|
    ensures key[from + |a| + 1..] == rest
    ensures SegmentsFrom(key, from) == [a] + SegmentsFrom(key, from + |a| + 1)
  {
    var tail := key[from..];
    assert forall i | from <= i < |key| :: key[i] == tail[i - from];
    assert tail[|a|] == '.' && tail[..|a|] == a && tail[|a| + 1..] == rest;
    assert forall i | 0 <= i < |a| :: tail[i] == a[i];
    assert FindDot(key, from) == Some(from + |a|);
    assert key[from..from + |a|] == a;
  }

  lemma {:induction false} PlainKey(a: string)
    requires '.' !in a
    ensures Segments(a) == [a]
  {
    assert a[0..] == a;
    LastSegment(a, 0, a);
  }

  lemma {:induction false} DottedKey(a: string, b: string)
    requires a != "" && '.' !in a && '.' !in b
    ensures Segments(a + "." + b) == [a, b]
  {
    var key := a + "." + b;
    assert key[0..] == key;
    NextSegment(key, 0, a, b);
    LastSegment(key, |a| + 1, b);
  }

  lemma {:induction false} TwiceDottedKey(a: string, b: string, c: string)
    requires a != "" && '.' !in a && '.' !in b && '.' !in c
    ensures Segments(a + "." + (b + "." + c)) == [a, b, c]
  {
    var key := a + "." + (b + "." + c);
    assert key[0..] == key;
    NextSegment(key, 0, a, b + "." + c);
    NextSegment(key, |a| + 1, b, c);
    LastSegment(key, |a| + 1 + |b| + 1, c);
  }

  lemma {:induction false} BuildStep(tree: Json, s: Setting, rest: seq<Setting>)
    requires s.path != [] && (forall r | r in rest :: r.path != []) && Insert(tree, s.path, s.value).Placed?
    ensures forall r | r in [s] + rest :: r.path != []
    ensures Build(tree, [s] + rest) == Build(Insert(tree, s.path, s.value).tree, rest)
    ensures Partial(tree, [s] + rest) == Partial(Insert(tree, s.path, s.value).tree, rest)
  {
    hide Insert;
    assert ([s] + rest)[1..] == rest;
  }

  // ----- A partial entity --------------------------------------------------

  const PARTIAL := [Parameter("a", "x"), Parameter("a.b.c", "y")]

  /** `a=x a.b.c=y` is refused because `a` is a value, and the entity made so far stays. */
  lemma {:induction false} PartialEntityStays(order: Order, parse: Parser, tree: Tree, name: string)
    requires parse("x").None? && parse("y").None? && name !in tree
    ensures Add(order, parse, true, tree, name, PARTIAL) ==
            Result(Refused(EINVAL), tree[name := Obj(map["a" := Str("x")])])
  {
    PlainKey("a");
    TwiceDottedKey("a", "b", "c");
    assert "a" + "." + ("b" + "." + "c") == "a.b.c";
    var first, second := Setting(["a"], Str("x")), Setting(["a", "b", "c"], Str("y"));
    assert SettingsOf(parse, PARTIAL) == [first] + [second];
    var t := Obj(map["a" := Str("x")]);
    assert Insert(Empty, first.path, first.value) == Placed(t);
    BuildStep(Empty, first, [second]);
    assert second.path[1..] == ["b", "c"];
    assert Insert(t, second.path, second.value) == Blocked;
  }

  // ----- A claim -----------------------------------------------------------

  const CLAIMING := [Parameter("network.role", "switch"), Parameter("network.default", "true"), Parameter("zzz", "x")]

  /** Two parameters of one component. */
  function Pair(a: string, k: string, v: Json, l: string, w: Json): Json
  {
    Obj(map[a := Obj(map[k := v][l := w])])
  }

  lemma {:induction false} PairBuilds(a: string, k: string, v: Json, l: string, w: Json, rest: seq<Setting>)
    requires k != l && forall r | r in rest :: r.path != []
    ensures var ss := [Setting([a, k], v)] + ([Setting([a, l], w)] + rest);
            (forall s | s in ss :: s.path != []) && Build(Empty, ss) == Build(Pair(a, k, v, l, w), rest)
  {
    var first, second := Setting([a, k], v), Setting([a, l], w);
    var t1 := Obj(map[a := Obj(map[k := v])]);
    InsertTwo(Empty, a, k, v);
    assert Insert(Empty, first.path, v) == Placed(t1);
    InsertTwo(t1, a, l, w);
    assert t1.fields[a := Obj(map[k := v][l := w])] == Pair(a, k, v, l, w).fields;
    assert Insert(t1, second.path, w) == Placed(Pair(a, k, v, l, w));
    hide Insert;
    BuildStep(t1, second, rest);
    BuildStep(Empty, first, [second] + rest);
  }

  lemma {:induction false} BuildOneMore(tree: Json, c: string, x: Json)
    requires tree.Obj? && c !in tree.fields
    ensures Build(tree, [Setting([c], x)]) == Placed(Obj(tree.fields[c := x]))
  {
    assert [Setting([c], x)][1..] == [];
    assert Insert(tree, [c], x) == Placed(Obj(tree.fields[c := x]));
  }

  lemma {:induction false} NetworkKeys()
    ensures Segments("network.role") == ["network", "role"]
    ensures Segments("network.default") == ["network", "default"]
    ensures Segments("network.uplink") == ["network", "uplink"]
    ensures Segments("zzz") == ["zzz"]
  {
    assert "network" + "." + "role" == "network.role";
    assert "network" + "." + "default" == "network.default";
    assert "network" + "." + "uplink" == "network.uplink";
    hide Segments;
    DottedKey("network", "role");
    DottedKey("network", "default");
    DottedKey("network", "uplink");
    PlainKey("zzz");
  }

  /** The entity that `CLAIMING` describes. */
  function Claiming(parse: Parser): Json
  {
    Obj(Pair("network", "role", Str("switch"), "default", ValueOf(parse, "true")).fields["zzz" := Str("x")])
  }

  lemma {:induction false} ClaimingBuilds(parse: Parser)
    requires parse("switch").None? && parse("x").None?
    ensures Built(parse, CLAIMING) == Placed(Claiming(parse))
  {
    var d := ValueOf(parse, "true");
    NetworkKeys();
    hide Segments;
    var role, dflt, other :=
      Setting(["network", "role"], Str("switch")), Setting(["network", "default"], d), Setting(["zzz"], Str("x"));
    assert SettingsOf(parse, CLAIMING) == [role] + ([dflt] + [other]);
    hide Build, Insert;
    PairBuilds("network", "role", Str("switch"), "default", d, [other]);
    BuildOneMore(Pair("network", "role", Str("switch"), "default", d), "zzz", Str("x"));
  }

  /** Inserting under a first-level key that is missing or an object. */
  lemma {:induction false} InsertTwo(tree: Json, a: string, b: string, v: Json)
    requires tree.Obj? && (a in tree.fields ==> tree.fields[a].Obj? && b !in tree.fields[a].fields)
    ensures var sub := if a in tree.fields then tree.fields[a].fields else map[];
            Insert(tree, [a, b], v) == Placed(Obj(tree.fields[a := Obj(sub[b := v])]))
  {
    assert [a, b][1..] == [b];
  }

  /**
    `network.role=switch network.default=true zzz=x` is refused because of the unknown component, which
    is visited after the network, and the new name stays entered as the default.
   */
  lemma {:induction false} ClaimStaysBehind(order: Order, parse: Parser, tree: Tree, name: string)
    requires IsOrder(order) && order({"network", "zzz"}) == ["network", "zzz"]
    requires parse("switch").None? && parse("x").None?
    requires Good(tree) && name !in tree && name != DEFAULT_NETNS && Get(tree, DEFAULT_NETNS).Null?
    ensures Add(order, parse, true, tree, name, CLAIMING) == Result(Refused(EINVAL), tree[DEFAULT_NETNS := Str(name)])
  {
    ClaimingBuilds(parse);
    ClaimingIsRefused(tree, name, parse);
    ClaimingReaches(order, parse, tree, name);
    hide Good, IsOrder, ClaimMade, Built, Claiming, Admissible;
    AddExact(order, parse, tree, name, CLAIMING);
    RefusalResidue(order, parse, true, tree, name, CLAIMING);
    RefusedAs(order, parse, tree, name, CLAIMING);
  }

  lemma {:induction false} RefusedAs(order: Order, parse: Parser, tree: Tree, name: string, ps: seq<Parameter>)
    requires name !in tree && Add(order, parse, true, tree, name, ps).outcome.Refused?
    ensures Add(order, parse, true, tree, name, ps).outcome == Refused(EINVAL)
  {
    hide ValidateEntity, Build;
  }

  lemma {:induction false} ClaimingIsRefused(tree: Tree, name: string, parse: Parser)
    ensures !Admissible(tree, name, Claiming(parse))
  {
    assert "zzz" in Claiming(parse).fields.Keys;
  }

  lemma {:induction false} ClaimingReaches(order: Order, parse: Parser, tree: Tree, name: string)
    requires IsOrder(order) && order({"network", "zzz"}) == ["network", "zzz"]
    requires parse("switch").None? && parse("x").None?
    requires name != DEFAULT_NETNS && Get(tree, DEFAULT_NETNS).Null?
    ensures ClaimMade(order, tree, name, Claiming(parse))
  {
    var e := Claiming(parse);
    assert e.fields.Keys == {"network", "zzz"};
    var net := NetOf(e);
    assert net.Keys == {"role", "default"} && net["role"] == Str("switch");
    var keys := order(WithRoleCode(net).Keys);
    assert "default" in keys;
    var i :| 0 <= i < |keys| && keys[i] == "default";
    var base := tree[name := CodedEntity(e)];
    assert Get(base, DEFAULT_NETNS).Null?;
    forall j | 0 <= j <= i ensures KeyAdmissible(base, name, keys[j]) {
      assert keys[j] in keys;
      assert keys[j] in {"role", "default", ":role"};
      assert Hidden(":role");
    }
  }

  // ----- An entity that is its own uplink ----------------------------------

  /**
    An entity that names itself as its uplink is accepted exactly if everything else about it is
    admissible and its role is known and not `client`: the entity is in the tree when it is validated.
   */
  lemma {:induction false} SelfUplinkIffNotClient(
      order: Order, parse: Parser, tree: Tree, name: string, ps: seq<Parameter>)
    requires IsOrder(order) && Good(tree) && name !in tree
    requires Built(parse, ps).Placed? && UplinkOf(Built(parse, ps).tree) == Some(name)
    ensures var e, r := Built(parse, ps).tree, Add(order, parse, true, tree, name, ps);
            && (r.outcome.Added? <==>
                  && e.Obj? && e.fields.Keys == {"network"} && RoleKnown(NetOf(e)) && NetOf(e)["role"] != Str("client")
                  && forall k | k in NetOf(e) && k != "uplink" :: KeyAdmissible(tree[name := CodedEntity(e)], name, k))
            && (r.outcome.Added? ==> NamesItself(TopologyOf(r.tree), name))
  {
    var e, r := Built(parse, ps).tree, Add(order, parse, true, tree, name, ps);
    AddExact(order, parse, tree, name, ps);
    hide Good, IsOrder, Add, Built;
    assert "uplink" in NetOf(e) && e.Obj? && "network" in e.fields;
    if RoleKnown(NetOf(e)) {
      OwnUplinkOk(tree, name, e);
      hide KeyAdmissible, RoleKnown;
      if Admissible(tree, name, e) { GrownNamesItself(tree, name, e); }
    }
  }

  lemma {:induction false} OwnUplinkOk(tree: Tree, name: string, e: Json)
    requires UplinkOf(e) == Some(name) && RoleKnown(NetOf(e))
    ensures KeyAdmissible(tree[name := CodedEntity(e)], name, "uplink") <==> NetOf(e)["role"] != Str("client")
  {
    var base := tree[name := CodedEntity(e)];
    assert Net(base, name) == WithRoleCode(NetOf(e));
  }

  lemma {:induction false} GrownNamesItself(tree: Tree, name: string, e: Json)
    requires Admissible(tree, name, e) && UplinkOf(e) == Some(name)
    ensures NamesItself(TopologyOf(Grown(tree, name, e)), name)
  {
    var base := tree[name := CodedEntity(e)];
    assert NetOf(CodedEntity(e)) == WithRoleCode(NetOf(e));
    if ClaimsDefault(e) { assert KeyAdmissible(base, name, "default"); }
  }

  function SelfUplink(name: string): seq<Parameter>
  {
    [Parameter("network.role", "switch"), Parameter("network.uplink", name)]
  }

  lemma {:induction false} SelfUplinkBuilds(parse: Parser, name: string)
    requires parse("switch").None? && parse(name).None?
    ensures Built(parse, SelfUplink(name)) == Placed(Pair("network", "role", Str("switch"), "uplink", Str(name)))
  {
    NetworkKeys();
    hide Segments;
    var role, uplink := Setting(["network", "role"], Str("switch")), Setting(["network", "uplink"], Str(name));
    assert SettingsOf(parse, SelfUplink(name)) == [role] + ([uplink] + []);
    PairBuilds("network", "role", Str("switch"), "uplink", Str(name), []);
    hide Insert;
    assert Build(Pair("network", "role", Str("switch"), "uplink", Str(name)), []).Placed?;
  }

  lemma {:induction false} SelfUplinkFits(tree: Tree, name: string)
    ensures var e := Pair("network", "role", Str("switch"), "uplink", Str(name));
            && e.Obj? && e.fields.Keys == {"network"} && RoleKnown(NetOf(e)) && NetOf(e)["role"] != Str("client")
            && UplinkOf(e) == Some(name)
            && forall k | k in NetOf(e) && k != "uplink" :: KeyAdmissible(tree[name := CodedEntity(e)], name, k)
  {
    var e := Pair("network", "role", Str("switch"), "uplink", Str(name));
    var net := NetOf(e);
    assert net == map["role" := Str("switch")]["uplink" := Str(name)];
    assert net.Keys == {"role", "uplink"} && net["role"] == Str("switch") && net["uplink"] == Str(name);
  }

  /** `network.role=switch network.uplink=NAME` for a new entity NAME is accepted in every good configuration. */
  lemma {:induction false} SelfUplinkAccepted(order: Order, parse: Parser, tree: Tree, name: string)
    requires IsOrder(order) && Good(tree) && name !in tree && parse("switch").None? && parse(name).None?
    ensures var r := Add(order, parse, true, tree, name, SelfUplink(name));
            r.outcome.Added? && NamesItself(TopologyOf(r.tree), name)
  {
    SelfUplinkBuilds(parse, name);
    SelfUplinkFits(tree, name);
    hide Good, IsOrder, Built, Add, Pair, NetOf, RoleKnown, KeyAdmissible;
    SelfUplinkIffNotClient(order, parse, tree, name, SelfUplink(name));
  }
}
