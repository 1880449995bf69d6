/**
  Exactly when `add` accepts an entity in a good configuration, and what the
  configuration then is.  The answer does not mention the validation loops.
 */
module ConfigAdd {
  import opened JsonTree
  import opened ConfigModel
  import opened ConfigInvariant

  /** The entity with the role code that validation records. */
  function CodedEntity(e: Json): Json
  {
    if e.Obj? && "network" in e.fields && e.fields["network"].Obj? && RoleKnown(e.fields["network"].fields)
    then Obj(e.fields["network" := Obj(WithRoleCode(e.fields["network"].fields))])
    else e
  }

  function NetOf(e: Json): map<string, Json>
  {
    if e.Obj? && "network" in e.fields && e.fields["network"].Obj? then e.fields["network"].fields else map[]
  }

  ghost predicate KeyAdmissible(tree: Tree, name: string, key: string)
  {
    || Hidden(key) || key == "role" || key == "external"
    || (key == "default" && (Get(tree, DEFAULT_NETNS).Null? || Get(tree, DEFAULT_NETNS) == Str(name)))
    || (key == "address" && Get(Net(tree, name), ":role") == Num(RoleCode("switch")))
    || (key == "uplink" && UplinkOk(tree, Get(Net(tree, name), "uplink")))
  }

  /** What `add` demands of an entity, with the entity itself already in the tree. */
  ghost predicate Admissible(tree: Tree, name: string, e: Json)
  {
    && e.Obj? && e.fields.Keys <= {"network"}
    && ("network" in e.fields ==>
          && e.fields["network"].Obj? && RoleKnown(NetOf(e))
          && forall k | k in NetOf(e) :: KeyAdmissible(tree[name := CodedEntity(e)], name, k))
  }

  predicate ClaimsDefault(e: Json)
  {
    "default" in NetOf(e)
  }

  /** The configuration after an accepted addition. */
  function Grown(tree: Tree, name: string, e: Json): Tree
  {
    var tree' := tree[name := CodedEntity(e)];
    if ClaimsDefault(e) then tree'[DEFAULT_NETNS := Str(name)] else tree'
  }

  /** Network components are objects with a role, as in every good configuration. */
  ghost predicate Settled(tree: Tree)
  {
    forall n | n in tree && tree[n].Obj? && "network" in tree[n].fields ::
      HasNet(tree, n) && "role" in Net(tree, n)
  }

  // ----- The loop over the parameters --------------------------------------

  /** The tree while the loop runs: the default may have been claimed. */
  ghost predicate Midway(base: Tree, cur: Tree, name: string)
  {
    || cur == base
    || (cur == base[DEFAULT_NETNS := Str(name)]
          && (Get(base, DEFAULT_NETNS).Null? || Get(base, DEFAULT_NETNS) == Str(name)))
  }

  lemma {:induction false} MidwayNet(base: Tree, cur: Tree, name: string, n: string)
    requires Midway(base, cur, name)
    ensures HasNet(cur, n) <==> HasNet(base, n)
    ensures Net(cur, n) == Net(base, n)
  {
  }

  lemma {:induction false} CheckExact(base: Tree, cur: Tree, name: string, key: string)
    requires Settled(base) && Midway(base, cur, name)
    ensures var v := CheckParameter(cur, name, key);
            && (v.Pass? <==> KeyAdmissible(base, name, key))
            && (v.Pass? && key == "default" ==> v.tree == cur[DEFAULT_NETNS := Str(name)])
            && (v.Pass? && key != "default" ==> v.tree == cur)
            && !v.Abort? && (v.Reject? ==> v.tree == cur)
  {
    MidwayNet(base, cur, name, name);
    if key == "uplink" && Get(Net(base, name), "uplink").Str? {
      var u := Get(Net(base, name), "uplink").s;
      MidwayNet(base, cur, name, u);
      if u in cur && cur[u].Obj? {
        assert u in base && cur[u] == base[u];
      }
    } else if key == "default" && !Hidden(key) {
      if cur != base { assert cur == cur[DEFAULT_NETNS := Str(name)]; }
      if Get(cur, DEFAULT_NETNS) == Str(name) { assert cur == cur[DEFAULT_NETNS := Str(name)]; }
    }
  }

  lemma {:induction false} CheckAllExact(base: Tree, cur: Tree, name: string, keys: seq<string>)
    requires Settled(base) && Midway(base, cur, name)
    ensures var v := CheckParameters(cur, name, keys);
            && (v.Pass? <==> forall k | k in keys :: KeyAdmissible(base, name, k))
            && (v.Pass? ==> v.tree == if "default" in keys then cur[DEFAULT_NETNS := Str(name)] else cur)
            && !v.Abort? && (v.Reject? ==> Midway(base, v.tree, name))
    decreases |keys|
  {
    if keys != [] {
      CheckExact(base, cur, name, keys[0]);
      var v := CheckParameter(cur, name, keys[0]);
      hide CheckParameter, KeyAdmissible, Settled;
      if v.Pass? {
        assert cur[DEFAULT_NETNS := Str(name)] == base[DEFAULT_NETNS := Str(name)];
        assert Midway(base, v.tree, name) by {
          if keys[0] == "default" { DefaultAdmissible(base, name); }
        }
        CheckAllExact(base, v.tree, name, keys[1..]);
        assert forall k :: k in keys <==> k == keys[0] || k in keys[1..];
      } else {
        assert keys[0] in keys;
      }
    }
  }

  lemma {:induction false} DefaultAdmissible(base: Tree, name: string)
    ensures KeyAdmissible(base, name, "default") ==>
      Get(base, DEFAULT_NETNS).Null? || Get(base, DEFAULT_NETNS) == Str(name)
  {
  }

  // ----- Acceptance --------------------------------------------------------

  lemma {:induction false} GoodIsSettled(tree: Tree, name: string, e: Json)
    requires Good(tree) && name !in tree
    requires e.Obj? && ("network" in e.fields ==> e.fields["network"].Obj? && RoleKnown(NetOf(e)))
    ensures Settled(tree[name := CodedEntity(e)])
  {
    var tree' := tree[name := CodedEntity(e)];
    forall n | n in tree' && tree'[n].Obj? && "network" in tree'[n].fields
      ensures HasNet(tree', n) && "role" in Net(tree', n)
    {
      if n != name { assert n == METADATA || EntryOk(tree, n); }
    }
  }

  /** Removing the new name again leaves at most the claim of the default. */
  ghost predicate AtMostDefault(tree: Tree, tree': Tree, name: string)
  {
    tree' - {name} == tree || tree' - {name} == tree[DEFAULT_NETNS := Str(name)]
  }

  ghost predicate NetAdmissible(tree: Tree, name: string, e: Json)
    requires e.Obj? && "network" in e.fields
  {
    && e.fields["network"].Obj? && RoleKnown(NetOf(e))
    && forall k | k in NetOf(e) :: KeyAdmissible(tree[name := CodedEntity(e)], name, k)
  }

  lemma {:induction false} ClaimLeaves(tree: Tree, name: string, e: Json)
    requires name !in tree
    ensures AtMostDefault(tree, tree[name := e], name)
    ensures AtMostDefault(tree, tree[name := e][DEFAULT_NETNS := Str(name)], name)
  {
    assert tree[name := e] - {name} == tree;
    assert tree[name := e][DEFAULT_NETNS := Str(name)] - {name} ==
           if name == DEFAULT_NETNS then tree else tree[DEFAULT_NETNS := Str(name)];
  }

  lemma {:induction false} NetworkChecked(order: Order, tree: Tree, name: string, e: Json)
    requires IsOrder(order) && Good(tree) && name !in tree && e.Obj? && "network" in e.fields
    requires e.fields["network"].Obj? && RoleKnown(NetOf(e))
    ensures var v := CheckParameters(tree[name := CodedEntity(e)], name, order(WithRoleCode(NetOf(e)).Keys));
            && (v.Pass? <==> forall k | k in NetOf(e) :: KeyAdmissible(tree[name := CodedEntity(e)], name, k))
            && (v.Pass? ==> v.tree == Grown(tree, name, e))
            && !v.Abort? && AtMostDefault(tree, v.tree, name)
  {
    var base, net := tree[name := CodedEntity(e)], WithRoleCode(NetOf(e));
    var keys := order(net.Keys);
    assert forall k :: k in keys <==> k in net.Keys;
    assert Hidden(":role") && net.Keys == NetOf(e).Keys + {":role"};
    GoodIsSettled(tree, name, e);
    hide Good, IsOrder, Settled, RoleKnown, WithRoleCode;
    ClaimLeaves(tree, name, CodedEntity(e));
    CheckAllExact(base, base, name, keys);
    assert forall k | k in keys :: k in NetOf(e) || k == ":role";
    assert KeyAdmissible(base, name, ":role");
  }

  lemma {:induction false} NetworkExact(order: Order, tree: Tree, name: string, e: Json)
    requires IsOrder(order) && Good(tree) && name !in tree && e.Obj? && "network" in e.fields
    ensures var v := ValidateNetwork(order, tree[name := e], name);
            && (v.Pass? <==> NetAdmissible(tree, name, e))
            && (v.Pass? ==> v.tree == Grown(tree, name, e))
            && !v.Abort? && AtMostDefault(tree, v.tree, name)
  {
    var tree1 := tree[name := e];
    ClaimLeaves(tree, name, e);
    assert HasNet(tree1, name) ==> Net(tree1, name) == NetOf(e);
    if HasNet(tree1, name) && RoleKnown(NetOf(e)) {
      NetworkChecked(order, tree, name, e);
      assert SetNet(tree1, name, WithRoleCode(NetOf(e))) == tree[name := CodedEntity(e)];
    }
  }

  lemma {:induction false} ComponentsExact(order: Order, tree: Tree, name: string, e: Json, types: seq<string>)
    requires IsOrder(order) && Good(tree) && name !in tree && e.Obj?
    requires NoRepeats(types) && forall k :: k in types <==> k in e.fields.Keys
    ensures var v := ValidateComponents(order, tree[name := e], name, types);
            && (v.Pass? <==> Admissible(tree, name, e))
            && (v.Pass? ==> v.tree == Grown(tree, name, e))
            && !v.Abort? && AtMostDefault(tree, v.tree, name)
  {
    ClaimLeaves(tree, name, e);
    if types == [] {
      assert CodedEntity(e) == e;
    } else if types[0] != "network" {
      assert types[0] in types;
    } else {
      assert "network" in types;
      NetworkExact(order, tree, name, e);
      var v := ValidateNetwork(order, tree[name := e], name);
      hide ValidateNetwork, Good, IsOrder, KeyAdmissible, Grown;
      if v.Pass? {
        if |types| > 1 {
          assert types[1..][0] == types[1] && types[1] in types;
        } else {
          assert types == ["network"];
          assert forall k | k in e.fields.Keys :: k in types;
        }
      }
    }
  }

  lemma {:induction false} ValidateExact(order: Order, tree: Tree, name: string, e: Json)
    requires IsOrder(order) && Good(tree) && name !in tree && e.Obj?
    ensures var v := ValidateEntity(order, tree[name := e], name);
            && (v.Pass? <==> Admissible(tree, name, e))
            && (v.Pass? ==> v.tree == Grown(tree, name, e))
            && !v.Abort? && AtMostDefault(tree, v.tree, name)
  {
    var types := order(e.fields.Keys);
    assert forall k :: k in types <==> k in e.fields.Keys;
    assert NoRepeats(types);
    assert (tree[name := e])[name] == e;
    ComponentsExact(order, tree, name, e, types);
  }

  lemma {:induction false} BuildIsObject(tree: Json, settings: seq<Setting>)
    requires (forall s | s in settings :: s.path != []) && tree.Obj?
    ensures Build(tree, settings).Placed? ==> Build(tree, settings).tree.Obj?
    decreases |settings|
  {
    if settings != [] && Insert(tree, settings[0].path, settings[0].value).Placed? {
      BuildIsObject(Insert(tree, settings[0].path, settings[0].value).tree, settings[1..]);
    }
  }

  function Built(parse: Parser, ps: seq<Parameter>): Placement
  {
    Build(Empty, SettingsOf(parse, ps))
  }

  /**
    In a good configuration `add` accepts exactly the new names whose parameters build an admissible
    entity, and then changes nothing but this entity and the claim of the default.
   */
  lemma {:induction false} AddExact(order: Order, parse: Parser, tree: Tree, name: string, ps: seq<Parameter>)
    requires IsOrder(order) && Good(tree)
    ensures var r := Add(order, parse, true, tree, name, ps);
            && (r.outcome.Added? <==>
                  name !in tree && Built(parse, ps).Placed? && Admissible(tree, name, Built(parse, ps).tree))
            && (r.outcome.Added? ==> r.tree == Grown(tree, name, Built(parse, ps).tree))
            && (r.outcome.Terminated? <==> name !in tree && Built(parse, ps).Throws?)
  {
    BuildIsObject(Empty, SettingsOf(parse, ps));
    if name !in tree && Built(parse, ps).Placed? {
      ValidateExact(order, tree, name, Built(parse, ps).tree);
    }
  }

  // ----- Refusals ----------------------------------------------------------

  /** The key `default` comes up before any key that is not admissible. */
  ghost predicate ClaimReached(base: Tree, name: string, keys: seq<string>)
  {
    exists i :: 0 <= i < |keys| && keys[i] == "default" && forall j | 0 <= j <= i :: KeyAdmissible(base, name, keys[j])
  }

  lemma {:induction false} ClaimReachedLater(base: Tree, name: string, keys: seq<string>)
    requires keys != [] && keys[0] != "default" && KeyAdmissible(base, name, keys[0])
    ensures ClaimReached(base, name, keys) <==> ClaimReached(base, name, keys[1..])
  {
    hide KeyAdmissible;
    var rest := keys[1..];
    assert forall i | 0 <= i < |rest| :: rest[i] == keys[i + 1];
    if ClaimReached(base, name, rest) {
      var i :| 0 <= i < |rest| && rest[i] == "default" && forall j | 0 <= j <= i :: KeyAdmissible(base, name, rest[j]);
      assert keys[i + 1] == "default";
      assert forall j | 0 <= j <= i + 1 :: j == 0 || keys[j] == rest[j - 1];
    }
    if ClaimReached(base, name, keys) {
      var i :| 0 <= i < |keys| && keys[i] == "default" && forall j | 0 <= j <= i :: KeyAdmissible(base, name, keys[j]);
      assert rest[i - 1] == "default";
    }
  }

  /** Whether the parameters pass or not, the default ends up claimed exactly when its key came up before any flaw. */
  lemma {:induction false} ClaimOutlivesRejection(base: Tree, name: string, keys: seq<string>)
    requires Settled(base) && Get(base, DEFAULT_NETNS).Null?
    ensures var v := CheckParameters(base, name, keys);
            !v.Abort? && v.tree == if ClaimReached(base, name, keys) then base[DEFAULT_NETNS := Str(name)] else base
    decreases |keys|
  {
    if keys != [] {
      CheckExact(base, base, name, keys[0]);
      hide Settled, KeyAdmissible, CheckParameter;
      if KeyAdmissible(base, name, keys[0]) {
        if keys[0] == "default" {
          assert ClaimReached(base, name, keys);
          ClaimStays(base, base[DEFAULT_NETNS := Str(name)], name, keys[1..]);
        } else {
          ClaimReachedLater(base, name, keys);
          ClaimOutlivesRejection(base, name, keys[1..]);
        }
      }
    }
  }

  lemma {:induction false} ClaimStays(base: Tree, cur: Tree, name: string, keys: seq<string>)
    requires Settled(base) && Midway(base, cur, name) && cur == base[DEFAULT_NETNS := Str(name)]
    ensures var v := CheckParameters(cur, name, keys); !v.Abort? && v.tree == cur
    decreases |keys|
  {
    if keys != [] {
      CheckExact(base, cur, name, keys[0]);
      assert cur[DEFAULT_NETNS := Str(name)] == cur;
      hide Settled, KeyAdmissible, CheckParameter;
      ClaimStays(base, cur, name, keys[1..]);
    }
  }

  /** A default that somebody has claimed stays with him. */
  lemma {:induction false} ClaimedStays(base: Tree, name: string, keys: seq<string>)
    requires Settled(base) && !Get(base, DEFAULT_NETNS).Null?
    ensures var v := CheckParameters(base, name, keys); !v.Abort? && v.tree == base
    decreases |keys|
  {
    if keys != [] {
      CheckExact(base, base, name, keys[0]);
      if Get(base, DEFAULT_NETNS) == Str(name) { assert base == base[DEFAULT_NETNS := Str(name)]; }
      hide Settled, CheckParameter;
      ClaimedStays(base, name, keys[1..]);
    }
  }

  /**
    The claim of the default is reached: it is free, the network component is visited first and has a
    known role, and the key `default` comes up before any key that is not admissible.
   */
  ghost predicate ClaimMade(order: Order, tree: Tree, name: string, e: Json)
  {
    && e.Obj? && "network" in e.fields && RoleKnown(NetOf(e))
    && Get(tree, DEFAULT_NETNS).Null?
    && NetworkFirst(order, e.fields.Keys)
    && ClaimReached(tree[name := CodedEntity(e)], name, order(WithRoleCode(NetOf(e)).Keys))
  }

  /** The only known component comes before any other. */
  ghost predicate NetworkFirst(order: Order, types: set<string>)
  {
    order(types) != [] && order(types)[0] == "network"
  }

  lemma {:induction false} NetworkLeaves(order: Order, tree: Tree, name: string, e: Json)
    requires IsOrder(order) && Good(tree) && name !in tree && e.Obj? && "network" in e.fields
    requires NetworkFirst(order, e.fields.Keys)
    ensures var v := ValidateNetwork(order, tree[name := e], name);
            !v.Abort? && v.tree - {name} == if ClaimMade(order, tree, name, e) then tree[DEFAULT_NETNS := Str(name)] else tree
  {
    var tree1 := tree[name := e];
    assert tree1 - {name} == tree;
    assert HasNet(tree1, name) ==> Net(tree1, name) == NetOf(e);
    if HasNet(tree1, name) && RoleKnown(Net(tree1, name)) {
      var base := tree[name := CodedEntity(e)];
      var net := WithRoleCode(NetOf(e));
      var keys := order(net.Keys);
      assert SetNet(tree1, name, net) == base;
      assert base - {name} == tree;
      GoodIsSettled(tree, name, e);
      hide Good, IsOrder, Settled, NetworkFirst;
      if Get(base, DEFAULT_NETNS).Null? {
        ClaimOutlivesRejection(base, name, keys);
        assert name != DEFAULT_NETNS;
        assert base[DEFAULT_NETNS := Str(name)] - {name} == tree[DEFAULT_NETNS := Str(name)];
      } else {
        ClaimedStays(base, name, keys);
        if Get(tree, DEFAULT_NETNS).Null? { OwnNameNoClaim(base, name, keys); }
      }
    }
  }

  /** An entity called `:default-netns` stands in the way of its own claim. */
  lemma {:induction false} OwnNameNoClaim(base: Tree, name: string, keys: seq<string>)
    requires !Get(base, DEFAULT_NETNS).Null? && Get(base, DEFAULT_NETNS) != Str(name)
    ensures !ClaimReached(base, name, keys)
  {
  }

  lemma {:induction false} EntityLeaves(order: Order, tree: Tree, name: string, e: Json)
    requires IsOrder(order) && Good(tree) && name !in tree && e.Obj?
    ensures var v := ValidateEntity(order, tree[name := e], name);
            !v.Abort? && v.tree - {name} == if ClaimMade(order, tree, name, e) then tree[DEFAULT_NETNS := Str(name)] else tree
  {
    var types := order(e.fields.Keys);
    assert forall k :: k in types <==> k in e.fields.Keys;
    assert NoRepeats(types);
    assert tree[name := e] - {name} == tree;
    assert (tree[name := e])[name] == e;
    if types != [] && types[0] == "network" {
      assert "network" in types;
      NetworkLeaves(order, tree, name, e);
      hide ValidateNetwork, Good, IsOrder, ClaimMade;
      var v := ValidateNetwork(order, tree[name := e], name);
      if v.Pass? {
        if |types| > 1 { assert types[1..][0] == types[1]; }
        assert ValidateComponents(order, v.tree, name, types[1..]) == if |types| > 1 then Reject(v.tree) else v;
      }
    }
  }

  /** The two ways in which a refused `add` changes the configuration. */
  ghost predicate LeavesPartialEntity(parse: Parser, tree: Tree, name: string, ps: seq<Parameter>)
  {
    name !in tree && Built(parse, ps).Blocked?
  }

  ghost predicate LeavesClaim(order: Order, parse: Parser, tree: Tree, name: string, ps: seq<Parameter>)
  {
    name !in tree && Built(parse, ps).Placed? && ClaimMade(order, tree, name, Built(parse, ps).tree)
  }

  /** The partial entity is what the parameters up to the one that fails build. */
  lemma {:induction false} PartialMeans(tree: Json, settings: seq<Setting>) returns (k: nat)
    requires (forall s | s in settings :: s.path != []) && !Build(tree, settings).Placed?
    ensures k < |settings| && (forall s | s in settings[..k] :: s.path != []) && settings[k].path != []
    ensures Build(tree, settings[..k]) == Placed(Partial(tree, settings))
    ensures Insert(Partial(tree, settings), settings[k].path, settings[k].value) == Build(tree, settings)
    decreases |settings|
  {
    hide Insert;
    var first := settings[0];
    assert first in settings;
    match Insert(tree, first.path, first.value) {
      case Placed(tree1) =>
        var rest := settings[1..];
        var j := PartialMeans(tree1, rest);
        k := j + 1;
        assert settings[..k][0] == first && settings[..k][1..] == rest[..j];
        assert forall s | s in settings[..k] :: s in settings;
      case _ =>
        k := 0;
        assert settings[..0] == [];
    }
  }

  /**
    What a refused `add` leaves: the configuration as it was, exactly unless a parameter runs through a
    value, which leaves a partial entity, or the claim of the default came before the flaw, which
    leaves the claim.
   */
  lemma {:induction false} RefusalResidue(
      order: Order, parse: Parser, mutable: bool, tree: Tree, name: string, ps: seq<Parameter>)
    requires IsOrder(order) && Good(tree) && Add(order, parse, mutable, tree, name, ps).outcome.Refused?
    ensures var tree' := Add(order, parse, mutable, tree, name, ps).tree;
            && (tree' == tree <==>
                  !mutable || !(LeavesPartialEntity(parse, tree, name, ps) || LeavesClaim(order, parse, tree, name, ps)))
            && (mutable && LeavesPartialEntity(parse, tree, name, ps) ==>
                  tree' == tree[name := Partial(Empty, SettingsOf(parse, ps))])
            && (mutable && LeavesClaim(order, parse, tree, name, ps) ==> tree' == tree[DEFAULT_NETNS := Str(name)])
  {
    BuildIsObject(Empty, SettingsOf(parse, ps));
    if mutable && name !in tree && Built(parse, ps).Placed? {
      var e := Built(parse, ps).tree;
      ValidateExact(order, tree, name, e);
      EntityLeaves(order, tree, name, e);
      hide Good, IsOrder, ValidateEntity, ClaimMade, Build;
      assert Get(tree[DEFAULT_NETNS := Str(name)], DEFAULT_NETNS) == Str(name);
      if ClaimMade(order, tree, name, e) { ClaimWasFree(order, tree, name, e); }
    }
  }

  lemma {:induction false} ClaimWasFree(order: Order, tree: Tree, name: string, e: Json)
    requires ClaimMade(order, tree, name, e)
    ensures Get(tree, DEFAULT_NETNS).Null?
  {
  }
}
