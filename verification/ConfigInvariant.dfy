/**
  The invariant of configurations: loading establishes it, adding keeps it.
 */
module ConfigInvariant {
  import opened JsonTree
  import opened ConfigModel

  /** The uplink is an existing entity with a network component that is not a client. */
  ghost predicate UplinkOk(tree: Tree, uplink: Json)
  {
    uplink.Str? && HasNet(tree, uplink.s) && Get(Net(tree, uplink.s), "role") != Str("client")
  }

  ghost predicate KeyOk(tree: Tree, n: string, key: string)
  {
    || Hidden(key) || key == "role" || key == "external"
    || (key == "default" && Get(tree, DEFAULT_NETNS) == Str(n))
    || (key == "address" && Get(Net(tree, n), "role") == Str("switch"))
    || (key == "uplink" && UplinkOk(tree, Get(Net(tree, n), "uplink")))
  }

  ghost predicate NetworkOk(tree: Tree, n: string)
  {
    && HasNet(tree, n) && RoleKnown(Net(tree, n))
    && Get(Net(tree, n), ":role") == Num(RoleCode(Net(tree, n)["role"].s))
    && (forall k | k in Net(tree, n) :: KeyOk(tree, n, k))
  }

  ghost predicate EntryOk(tree: Tree, n: string)
  {
    n in tree ==>
      match tree[n]
      case Null => true
      case Arr(items) => items == []
      case Str(_) => n == DEFAULT_NETNS
      case Obj(fields) => fields.Keys <= {"network"} && ("network" in fields ==> NetworkOk(tree, n))
      case _ => false
  }

  /**
    Only known components, roles and parameters; addresses only on switches; every uplink names an
    existing network entity that is not a client; at most one entity has a `default` parameter.
   */
  ghost predicate Good(tree: Tree)
  {
    MetadataOk(tree) && forall n: string | n != METADATA :: EntryOk(tree, n)
  }

  lemma {:induction false} OneDefault(tree: Tree, a: string, b: string)
    requires Good(tree) && "default" in Net(tree, a) && "default" in Net(tree, b)
    requires a != METADATA && b != METADATA
    ensures a == b
  {
    assert EntryOk(tree, a) && EntryOk(tree, b);
    assert KeyOk(tree, a, "default") && KeyOk(tree, b, "default");
  }

  // ----- What validation may change ----------------------------------------

  /** A missing role was made null while the entity was looked at as an uplink. */
  ghost predicate RoleAdded(a: Json, b: Json)
  {
    && a.Obj? && "network" in a.fields && a.fields["network"].Obj? && "role" !in a.fields["network"].fields
    && b == Obj(a.fields["network" := Obj(a.fields["network"].fields["role" := Null])])
  }

  ghost predicate Drifted(n: string, a: Json, b: Json, name: string)
  {
    b == a || (n == DEFAULT_NETNS && a.Null? && b == Str(name)) || RoleAdded(a, b)
  }

  ghost predicate Drift(tree: Tree, tree': Tree, name: string)
  {
    && tree.Keys <= tree'.Keys
    && (forall n | n in tree :: Drifted(n, tree[n], tree'[n], name))
    && (forall n | n in tree' && n !in tree :: n == DEFAULT_NETNS && tree'[n] == Str(name))
  }

  lemma {:induction false} DriftTrans(a: Tree, b: Tree, c: Tree, name: string)
    requires Drift(a, b, name) && Drift(b, c, name)
    ensures Drift(a, c, name)
  {
    forall n | n in a ensures Drifted(n, a[n], c[n], name) {
      assert Drifted(n, a[n], b[n], name) && Drifted(n, b[n], c[n], name);
    }
  }

  lemma {:induction false} DriftKeepsNet(tree: Tree, tree': Tree, name: string, n: string)
    requires Drift(tree, tree', name) && HasNet(tree, n)
    ensures HasNet(tree', n)
    ensures "role" in Net(tree, n) ==> tree'[n] == tree[n]
    ensures Get(Net(tree', n), "role") == Get(Net(tree, n), "role")
  {
    assert Drifted(n, tree[n], tree'[n], name);
  }

  lemma {:induction false} DriftKeepsKey(tree: Tree, tree': Tree, name: string, n: string, k: string)
    requires Drift(tree, tree', name) && HasNet(tree, n) && "role" in Net(tree, n) && KeyOk(tree, n, k)
    ensures KeyOk(tree', n, k)
  {
    DriftKeepsNet(tree, tree', name, n);
    if k == "uplink" && !Hidden(k) {
      DriftKeepsNet(tree, tree', name, Get(Net(tree, n), "uplink").s);
    }
    if k == "default" && !Hidden(k) {
      assert DEFAULT_NETNS in tree;
      assert Drifted(DEFAULT_NETNS, tree[DEFAULT_NETNS], tree'[DEFAULT_NETNS], name);
    }
  }

  lemma {:induction false} DriftKeepsEntry(tree: Tree, tree': Tree, name: string, n: string)
    requires Drift(tree, tree', name) && n in tree && EntryOk(tree, n)
    ensures EntryOk(tree', n)
  {
    assert Drifted(n, tree[n], tree'[n], name);
    if HasNet(tree, n) {
      DriftKeepsNet(tree, tree', name, n);
      if NetworkOk(tree, n) {
        forall k | k in Net(tree', n) ensures KeyOk(tree', n, k) {
          DriftKeepsKey(tree, tree', name, n, k);
        }
      }
    }
  }

  lemma {:induction false} CheckParameterSound(tree: Tree, name: string, key: string)
    requires HasNet(tree, name) && RoleKnown(Net(tree, name))
    requires Get(Net(tree, name), ":role") == Num(RoleCode(Net(tree, name)["role"].s))
    requires key in Net(tree, name) && CheckParameter(tree, name, key).Pass?
    ensures var tree' := CheckParameter(tree, name, key).tree;
            Drift(tree, tree', name) && KeyOk(tree', name, key)
  {
  }

  lemma {:induction false} CheckParametersSound(tree: Tree, name: string, keys: seq<string>)
    requires HasNet(tree, name) && RoleKnown(Net(tree, name))
    requires Get(Net(tree, name), ":role") == Num(RoleCode(Net(tree, name)["role"].s))
    requires forall k | k in keys :: k in Net(tree, name)
    requires CheckParameters(tree, name, keys).Pass?
    ensures var tree' := CheckParameters(tree, name, keys).tree;
            Drift(tree, tree', name) && forall k | k in keys :: KeyOk(tree', name, k)
    decreases |keys|
  {
    if keys != [] {
      var tree1 := CheckParameter(tree, name, keys[0]).tree;
      CheckParameterSound(tree, name, keys[0]);
      DriftKeepsNet(tree, tree1, name, name);
      hide Drift, KeyOk, CheckParameter;
      CheckParametersSound(tree1, name, keys[1..]);
      var tree' := CheckParameters(tree, name, keys).tree;
      DriftTrans(tree, tree1, tree', name);
      forall k | k in keys ensures KeyOk(tree', name, k) {
        if k == keys[0] { DriftKeepsKey(tree1, tree', name, name, k); } else { assert k in keys[1..]; }
      }
    }
  }

  // ----- Validation is sound -----------------------------------------------

  lemma {:induction false} CodedEntry(tree: Tree, name: string, n: string)
    requires HasNet(tree, name) && RoleKnown(Net(tree, name)) && n in tree && n != name && EntryOk(tree, n)
    ensures EntryOk(SetNet(tree, name, WithRoleCode(Net(tree, name))), n)
  {
    var tree' := SetNet(tree, name, WithRoleCode(Net(tree, name)));
    assert Net(tree', n) == Net(tree, n);
    if tree[n].Obj? && "network" in tree[n].fields {
      forall k | k in Net(tree', n) ensures KeyOk(tree', n, k) {
        assert KeyOk(tree, n, k);
        if name == DEFAULT_NETNS { assert Get(tree, DEFAULT_NETNS).Obj?; }
      }
    }
  }

  /** What a validation of `name` that passes does to the rest of the tree. */
  ghost predicate Kept(tree: Tree, tree': Tree, name: string)
  {
    && tree.Keys <= tree'.Keys
    && (forall n | n in tree' && n !in tree :: n == DEFAULT_NETNS && tree'[n].Str?)
    && (forall n | n in tree && n != name && n != METADATA && EntryOk(tree, n) :: EntryOk(tree', n))
    && (forall n | n in tree && tree[n].Str? :: tree'[n] == tree[n])
    && (MetadataOk(tree) && name != METADATA ==> tree'[METADATA] == tree[METADATA])
  }

  lemma {:induction false} ValidateNetworkSound(order: Order, tree: Tree, name: string)
    requires IsOrder(order) && ValidateNetwork(order, tree, name).Pass?
    ensures var tree' := ValidateNetwork(order, tree, name).tree;
            && NetworkOk(tree', name) && Kept(tree, tree', name)
            && tree'[name].fields.Keys == tree[name].fields.Keys
  {
    var net := WithRoleCode(Net(tree, name));
    var tree1 := SetNet(tree, name, net);
    var tree' := ValidateNetwork(order, tree, name).tree;
    assert Net(tree1, name) == net;
    assert forall k :: k in order(net.Keys) <==> k in net.Keys;
    CheckParametersSound(tree1, name, order(net.Keys));
    DriftKeepsNet(tree1, tree', name, name);
    KeptAfterNetwork(tree, tree', name);
  }

  lemma {:induction false} KeptAfterNetwork(tree: Tree, tree': Tree, name: string)
    requires HasNet(tree, name) && RoleKnown(Net(tree, name))
    requires Drift(SetNet(tree, name, WithRoleCode(Net(tree, name))), tree', name)
    ensures Kept(tree, tree', name)
  {
    var tree1 := SetNet(tree, name, WithRoleCode(Net(tree, name)));
    forall n | n in tree && n != name && n != METADATA && EntryOk(tree, n) ensures EntryOk(tree', n) {
      CodedEntry(tree, name, n);
      DriftKeepsEntry(tree1, tree', name, n);
    }
    hide EntryOk;
    if MetadataOk(tree) && name != METADATA {
      assert Drifted(METADATA, tree1[METADATA], tree'[METADATA], name);
    }
    forall n | n in tree && tree[n].Str? ensures tree'[n] == tree[n] {
      assert Drifted(n, tree1[n], tree'[n], name);
    }
  }

  lemma {:induction false} ValidateEntitySound(order: Order, tree: Tree, name: string)
    requires IsOrder(order) && name in tree && ValidateEntity(order, tree, name).Pass?
    ensures var tree' := ValidateEntity(order, tree, name).tree;
            EntryOk(tree', name) && Kept(tree, tree', name)
  {
    if tree[name].Obj? {
      var types := order(tree[name].fields.Keys);
      assert forall k :: k in types <==> k in tree[name].fields.Keys;
      ComponentsSound(order, tree, name, types);
    }
  }

  lemma {:induction false} ComponentsSound(order: Order, tree: Tree, name: string, types: seq<string>)
    requires IsOrder(order) && name in tree && tree[name].Obj?
    requires ValidateComponents(order, tree, name, types).Pass?
    ensures var tree' := ValidateComponents(order, tree, name, types).tree;
            && (forall k | k in types :: k == "network")
            && Kept(tree, tree', name) && tree'[name].Obj? && tree'[name].fields.Keys == tree[name].fields.Keys
            && ("network" in types || NetworkOk(tree, name) ==> NetworkOk(tree', name))
    decreases |types|
  {
    if types != [] {
      ValidateNetworkSound(order, tree, name);
      var tree1 := ValidateNetwork(order, tree, name).tree;
      hide NetworkOk, ValidateNetwork, IsOrder;
      ComponentsSound(order, tree1, name, types[1..]);
      assert forall k | k in types :: k == types[0] || k in types[1..];
      KeptTrans(tree, tree1, ValidateComponents(order, tree, name, types).tree, name);
    }
  }

  lemma {:induction false} KeptTrans(a: Tree, b: Tree, c: Tree, name: string)
    requires Kept(a, b, name) && Kept(b, c, name) && (MetadataOk(a) && name != METADATA ==> MetadataOk(b))
    ensures Kept(a, c, name)
  {
  }

  // ----- Loading -----------------------------------------------------------

  lemma {:induction false} ValidateAllSound(order: Order, tree: Tree, visits: seq<string>, done: set<string>)
    requires IsOrder(order) && MetadataOk(tree) && ValidateAll(order, tree, visits).Pass?
    requires forall n | n in done && n != METADATA :: EntryOk(tree, n)
    requires forall n | n in tree && n != METADATA :: n in done || n in visits || (n == DEFAULT_NETNS && tree[n].Str?)
    ensures Good(ValidateAll(order, tree, visits).tree)
    decreases |visits|
  {
    if visits == [] {
      forall n: string | n != METADATA ensures EntryOk(tree, n) {}
    } else {
      var v := visits[0];
      if v == METADATA || v !in tree {
        forall n | n in tree && n != METADATA
          ensures n in done || n in visits[1..] || (n == DEFAULT_NETNS && tree[n].Str?)
        {
          if n in visits && n != v { assert n in visits[1..]; }
        }
        ValidateAllSound(order, tree, visits[1..], done);
      } else {
        var tree1 := ValidateEntity(order, tree, v).tree;
        ValidateEntitySound(order, tree, v);
        hide ValidateEntity, IsOrder;
        var done1 := (done * tree.Keys) + {v};
        forall n | n in done1 && n != METADATA ensures EntryOk(tree1, n) {}
        forall n | n in tree1 && n != METADATA
          ensures n in done1 || n in visits[1..] || (n == DEFAULT_NETNS && tree1[n].Str?)
        {
          if n in visits && n != v { assert n in visits[1..]; }
        }
        ValidateAllSound(order, tree1, visits[1..], done1);
      }
    }
  }

  /** Every configuration file that loads is good. */
  lemma {:induction false} LoadGood(order: Order, file: Tree)
    requires IsOrder(order) && Load(order, file).Some?
    ensures Good(Load(order, file).value)
  {
    var keys := file.Keys + {DEFAULT_NETNS};
    assert forall k :: k in order(keys) <==> k in keys;
    ValidateAllSound(order, file, order(keys), {});
  }

  /** Adding an entity keeps a good configuration good. */
  lemma {:induction false} AddGood(order: Order, parse: Parser, tree: Tree, name: string, ps: seq<Parameter>)
    requires IsOrder(order) && Good(tree) && Add(order, parse, true, tree, name, ps).outcome.Added?
    ensures Good(Add(order, parse, true, tree, name, ps).tree)
  {
    var entity := Build(Empty, SettingsOf(parse, ps)).tree;
    var tree1 := tree[name := entity];
    var tree' := Add(order, parse, true, tree, name, ps).tree;
    ValidateEntitySound(order, tree1, name);
    hide ValidateEntity, IsOrder;
    forall n | n in tree && n != METADATA ensures EntryOk(tree1, n) {
      OtherEntryKept(tree, name, entity, n);
    }
    forall n: string | n != METADATA ensures EntryOk(tree', n) {
      if n in tree' && n != name && n in tree { assert EntryOk(tree1, n); }
    }
  }

  lemma {:induction false} OtherEntryKept(tree: Tree, name: string, entity: Json, n: string)
    requires Good(tree) && name !in tree && n in tree && n != METADATA
    ensures EntryOk(tree[name := entity], n)
  {
    var tree1 := tree[name := entity];
    assert EntryOk(tree, n);
    assert Net(tree1, n) == Net(tree, n);
    if tree[n].Obj? && "network" in tree[n].fields {
      forall k | k in Net(tree1, n) ensures KeyOk(tree1, n, k) {
        assert KeyOk(tree, n, k);
      }
    }
  }
}
