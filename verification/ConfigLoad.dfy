/**
  Exactly which files load, and what is loaded.
 */
module ConfigLoad {
  import opened JsonTree
  import opened ConfigModel
  import opened ConfigInvariant
  import opened ConfigAdd
  import opened ConfigMeaning

  // ----- What a file has to be ---------------------------------------------

  ghost predicate FileNetwork(file: Tree, net: map<string, Json>)
  {
    KnownNetwork(net) && ("uplink" in net ==> net["uplink"].Str? && UsableUplink(file, net["uplink"].s))
  }

  ghost predicate FileEntry(file: Tree, n: string)
    requires n in file
  {
    match file[n]
    case Null => true
    case Arr(items) => items == []
    case Obj(fields) =>
      && fields.Keys <= {"network"}
      && ("network" in fields ==> fields["network"].Obj? && FileNetwork(file, fields["network"].fields))
    case _ => false
  }

  ghost predicate ComesBefore(keys: seq<string>, a: string, b: string)
  {
    exists i, j :: 0 <= i < j < |keys| && keys[i] == a && keys[j] == b
  }

  /** `n` is the only entity to claim the default, which is free, and whose place is visited before `n`. */
  ghost predicate SoleClaim(order: Order, file: Tree, n: string)
  {
    && n != ":default-netns"
    && (":default-netns" in file ==> file[":default-netns"] == Null)
    && (forall m | m in file && Claims(file[m]) :: m == n)
    && ComesBefore(order(file.Keys + {":default-netns"}), ":default-netns", n)
  }

  /** Version 1 and nothing else under `!metadata`, valid entities, and one claim of the default at most. */
  ghost predicate Loadable(order: Order, file: Tree)
  {
    && "!metadata" in file && file["!metadata"] == Obj(map["version" := Num(1)])
    && (forall n | n in file && n != "!metadata" :: FileEntry(file, n))
    && (forall n | n in file && n != "!metadata" && Claims(file[n]) :: SoleClaim(order, file, n))
  }

  /** What is loaded: the entities of the file, with the numbers of their roles, and the claim of the default. */
  ghost predicate LoadedAs(file: Tree, tree: Tree)
  {
    && file.Keys <= tree.Keys <= file.Keys + {":default-netns"}
    && "!metadata" in file && tree["!metadata"] == file["!metadata"]
    && (forall n | n in file && file[n].Obj? && n != "!metadata" :: StoredAs(file[n], tree[n]))
    && (forall n | n in file && !file[n].Obj? && n != ":default-netns" :: tree[n] == file[n])
    && (forall n | n in file && n != "!metadata" && Claims(file[n]) ::
          ":default-netns" in tree && tree[":default-netns"] == Str(n))
    && ((forall n | n in file && n != "!metadata" :: !Claims(file[n])) ==>
          tree.Keys == file.Keys && (":default-netns" in file && !file[":default-netns"].Obj? ==> tree[":default-netns"] == file[":default-netns"]))
  }

  // ----- Files that are loadable load --------------------------------------

  /** The tree after the entries `done` have been visited. */
  function Visited(file: Tree, done: set<string>, claim: Json): Tree
  {
    var tree := map n | n in file :: if n in done && n != METADATA then CodedEntity(file[n]) else file[n];
    if claim.Null? then tree else tree[DEFAULT_NETNS := claim]
  }

  /** The claim has been made exactly if the claimant has been visited. */
  ghost predicate ClaimSoFar(file: Tree, done: set<string>, claim: Json)
  {
    && (forall n | n in file && n != METADATA && Claims(file[n]) && n in done :: claim == Str(n))
    && ((forall n | n in file && n != METADATA && Claims(file[n]) :: n !in done) ==> claim == Null)
    && ClaimOf(file, claim)
  }

  ghost predicate ClaimOf(file: Tree, claim: Json)
  {
    claim == Null || (claim.Str? && claim.s in file && claim.s != METADATA && Claims(file[claim.s]))
  }

  lemma {:induction false} VisitedNet(file: Tree, done: set<string>, claim: Json, n: string)
    requires METADATA in file && (claim == Null || (claim.Str? && (DEFAULT_NETNS in file ==> file[DEFAULT_NETNS] == Null)))
    ensures HasNet(Visited(file, done, claim), n) <==> HasNet(file, n)
    ensures Get(Net(Visited(file, done, claim), n), "role") == Get(Net(file, n), "role")
    ensures "role" in Net(file, n) ==> "role" in Net(Visited(file, done, claim), n)
  {
  }

  lemma {:induction false} LoadableSettled(order: Order, file: Tree, done: set<string>, claim: Json)
    requires Loadable(order, file) && ClaimOf(file, claim)
    ensures Settled(Visited(file, done, claim))
    ensures claim == Null || (claim.Str? && (DEFAULT_NETNS in file ==> file[DEFAULT_NETNS] == Null))
  {
    var tree := Visited(file, done, claim);
    assert claim != Null ==> SoleClaim(order, file, claim.s);
    forall n | n in tree && tree[n].Obj? && "network" in tree[n].fields ensures HasNet(tree, n) && "role" in Net(tree, n) {
      assert n in file;
      assert n != METADATA ==> FileEntry(file, n);
      VisitedNet(file, done, claim, n);
    }
  }

  /** The parameters of a network of a loadable file are admissible when it is visited. */
  lemma {:induction false} VisitedKeys(order: Order, file: Tree, done: set<string>, claim: Json, n: string, k: string)
    requires Loadable(order, file) && ClaimSoFar(file, done, claim) && n in file && n != METADATA && n !in done
    requires HasNet(file, n) && RoleKnown(Net(file, n)) && k in WithRoleCode(Net(file, n))
    ensures var base := Visited(file, done + {n}, claim);
            HasNet(base, n) && Net(base, n) == WithRoleCode(Net(file, n)) && KeyAdmissible(base, n, k)
  {
    var base, net := Visited(file, done + {n}, claim), Net(file, n);
    assert FileEntry(file, n);
    assert claim != Null ==> SoleClaim(order, file, claim.s);
    assert n == DEFAULT_NETNS ==> claim == Null;
    assert base[n] == CodedEntity(file[n]);
    assert Hidden(":role");
    RoleMeans(net);
    hide RoleKnown, RoleNumber;
    if k == "uplink" {
      VisitedNet(file, done + {n}, claim, net["uplink"].s);
      hide Visited;
    } else if k == "default" {
      assert Claims(file[n]);
      assert SoleClaim(order, file, n);
      assert claim == Null;
    }
  }

  ghost function ClaimAfter(file: Tree, claim: Json, v: string): Json
    requires v in file
  {
    if Claims(file[v]) then Str(v) else claim
  }

  lemma {:induction false} ClaimSoFarNext(order: Order, file: Tree, done: set<string>, claim: Json, v: string)
    requires Loadable(order, file) && ClaimSoFar(file, done, claim) && v in file && v != METADATA && v !in done
    ensures ClaimSoFar(file, done + {v}, ClaimAfter(file, claim, v))
  {
    var claim' := ClaimAfter(file, claim, v);
    forall n | n in file && n != METADATA && Claims(file[n]) && n in done + {v} ensures claim' == Str(n) {
      assert SoleClaim(order, file, n);
    }
  }

  lemma {:induction false} VisitedFacts(file: Tree, done: set<string>, claim: Json, v: string)
    requires v in file && v != METADATA && v !in done && (v == DEFAULT_NETNS ==> claim == Null)
    ensures v in Visited(file, done, claim) && Visited(file, done, claim)[v] == file[v]
    ensures HasNet(file, v) && RoleKnown(Net(file, v)) ==>
            && HasNet(Visited(file, done, claim), v) && Net(Visited(file, done, claim), v) == Net(file, v)
            && SetNet(Visited(file, done, claim), v, WithRoleCode(Net(file, v))) == Visited(file, done + {v}, claim)
    ensures Visited(file, done + {v}, Str(v)) == Visited(file, done + {v}, claim)[DEFAULT_NETNS := Str(v)]
    ensures CodedEntity(file[v]) == file[v] ==> Visited(file, done + {v}, claim) == Visited(file, done, claim)
  {
  }

  /** Visiting a network of a loadable file. */
  lemma {:induction false} VisitNetwork(order: Order, file: Tree, done: set<string>, claim: Json, v: string)
    requires IsOrder(order) && Loadable(order, file) && ClaimSoFar(file, done, claim)
    requires v in file && v != METADATA && v !in done && HasNet(file, v) && (v == DEFAULT_NETNS ==> claim == Null)
    ensures ValidateNetwork(order, Visited(file, done, claim), v) ==
            Pass(Visited(file, done + {v}, ClaimAfter(file, claim, v)))
  {
    var cur, base := Visited(file, done, claim), Visited(file, done + {v}, claim);
    var net := Net(file, v);
    VisitedFacts(file, done, claim, v);
    assert FileEntry(file, v);
    RoleMeans(net);
    var coded := WithRoleCode(net);
    var keys := order(coded.Keys);
    assert forall k :: k in keys <==> k in coded.Keys;
    LoadableSettled(order, file, done + {v}, claim);
    hide Visited, RoleKnown, RoleNumber, KnownNetwork;
    forall k | k in keys ensures KeyAdmissible(base, v, k) { VisitedKeys(order, file, done, claim, v, k); }
    hide Settled, KeyAdmissible, IsOrder, Loadable, ClaimSoFar;
    CheckAllExact(base, base, v, keys);
    assert "default" in keys <==> Claims(file[v]);
  }

  lemma {:induction false} OnlyNetwork(order: Order, types: set<string>)
    requires IsOrder(order) && types <= {"network"}
    ensures order(types) == if "network" in types then ["network"] else []
  {
    var ts := order(types);
    assert forall k :: k in ts <==> k in types;
    assert NoRepeats(ts);
    forall i | 0 <= i < |ts| ensures ts[i] == "network" && ts[i] in types {
      assert ts[i] in ts;
    }
    assert ts != [] ==> ts[0] == ts[|ts| - 1];
    assert "network" in types <==> ts != [];
  }

  /** Visiting any entry of a loadable file. */
  lemma {:induction false} VisitOne(order: Order, file: Tree, done: set<string>, claim: Json, v: string)
    requires IsOrder(order) && Loadable(order, file) && ClaimSoFar(file, done, claim)
    requires v in file && v != METADATA && v !in done && (v == DEFAULT_NETNS ==> claim == Null)
    ensures v in Visited(file, done, claim)
    ensures ValidateEntity(order, Visited(file, done, claim), v) ==
            Pass(Visited(file, done + {v}, ClaimAfter(file, claim, v)))
  {
    var cur := Visited(file, done, claim);
    assert FileEntry(file, v);
    VisitedFacts(file, done, claim, v);
    if file[v].Obj? && "network" in file[v].fields {
      OnlyNetwork(order, file[v].fields.Keys);
      assert ["network"][1..] == [];
      hide Visited, ValidateNetwork;
      VisitNetwork(order, file, done, claim, v);
      hide Loadable, IsOrder, ClaimSoFar;
    } else {
      if file[v].Obj? { OnlyNetwork(order, file[v].fields.Keys); }
      hide Visited, Loadable, IsOrder, ClaimSoFar;
    }
  }

  ghost function Firsts(keys: seq<string>, i: nat): set<string>
    requires i <= |keys|
  {
    set j | 0 <= j < i :: keys[j]
  }

  lemma {:induction false} FirstsNext(keys: seq<string>, i: nat)
    requires NoRepeats(keys) && i < |keys|
    ensures keys[i] !in Firsts(keys, i) && Firsts(keys, i + 1) == Firsts(keys, i) + {keys[i]}
  {
  }

  /** When the place of the default is visited, the claimant has not been. */
  lemma {:induction false} NotYetClaimed(order: Order, file: Tree, i: nat, claim: Json)
    requires IsOrder(order) && Loadable(order, file)
    requires var keys := order(file.Keys + {DEFAULT_NETNS});
             i < |keys| && keys[i] == DEFAULT_NETNS && ClaimSoFar(file, Firsts(keys, i), claim)
    ensures claim == Null
  {
    var keys := order(file.Keys + {DEFAULT_NETNS});
    assert NoRepeats(keys);
    forall n | n in file && n != METADATA && Claims(file[n]) ensures n !in Firsts(keys, i) {
      assert SoleClaim(order, file, n);
      var a, b :| 0 <= a < b < |keys| && keys[a] == DEFAULT_NETNS && keys[b] == n;
      assert a == i;
    }
  }

  lemma {:induction false} NothingLeft(order: Order, tree: Tree)
    ensures ValidateAll(order, tree, []) == Pass(tree)
  {
  }

  lemma {:induction false} VisitStep(order: Order, file: Tree, i: nat, claim: Json) returns (claim': Json)
    requires IsOrder(order) && Loadable(order, file)
    requires var keys := order(file.Keys + {DEFAULT_NETNS}); i < |keys| && ClaimSoFar(file, Firsts(keys, i), claim)
    ensures var keys := order(file.Keys + {DEFAULT_NETNS});
            && ClaimSoFar(file, Firsts(keys, i + 1), claim')
            && ValidateAll(order, Visited(file, Firsts(keys, i), claim), keys[i..]) ==
               ValidateAll(order, Visited(file, Firsts(keys, i + 1), claim'), keys[i + 1..])
  {
    var keys := order(file.Keys + {DEFAULT_NETNS});
    var v, done := keys[i], Firsts(keys, i);
    assert NoRepeats(keys) && v in keys && v in file.Keys + {DEFAULT_NETNS};
    FirstsNext(keys, i);
    if v == DEFAULT_NETNS { NotYetClaimed(order, file, i, claim); }
    hide IsOrder, Loadable, Visited, ClaimSoFar, Firsts, ValidateEntity;
    assert keys[i..][0] == v && keys[i..][1..] == keys[i + 1..];
    if v == METADATA || v !in file {
      SkipOne(file, done, claim, v);
      claim' := claim;
    } else {
      VisitOne(order, file, done, claim, v);
      ClaimSoFarNext(order, file, done, claim, v);
      claim' := ClaimAfter(file, claim, v);
    }
  }

  lemma {:induction false} VisitFrom(order: Order, file: Tree, i: nat, claim: Json) returns (claim': Json)
    requires IsOrder(order) && Loadable(order, file)
    requires var keys := order(file.Keys + {DEFAULT_NETNS}); i <= |keys| && ClaimSoFar(file, Firsts(keys, i), claim)
    ensures var keys := order(file.Keys + {DEFAULT_NETNS});
            && ClaimSoFar(file, Firsts(keys, |keys|), claim')
            && ValidateAll(order, Visited(file, Firsts(keys, i), claim), keys[i..]) ==
               Pass(Visited(file, Firsts(keys, |keys|), claim'))
    decreases |order(file.Keys + {DEFAULT_NETNS})| - i
  {
    hide IsOrder, Loadable, Visited, ClaimSoFar, Firsts, ValidateAll;
    var keys := order(file.Keys + {DEFAULT_NETNS});
    if i == |keys| {
      claim' := claim;
      NothingLeft(order, Visited(file, Firsts(keys, i), claim));
      assert keys[i..] == [];
    } else {
      var claim1 := VisitStep(order, file, i, claim);
      claim' := VisitFrom(order, file, i + 1, claim1);
    }
  }

  lemma {:induction false} SkipOne(file: Tree, done: set<string>, claim: Json, v: string)
    requires ClaimSoFar(file, done, claim) && (v == METADATA || (v !in file && claim == Null))
    ensures v == METADATA || v !in Visited(file, done, claim)
    ensures Visited(file, done + {v}, claim) == Visited(file, done, claim) && ClaimSoFar(file, done + {v}, claim)
  {
  }

  // ----- Files that load are loadable --------------------------------------

  /** The network parameters of the file are there, and a missing role has not become one. */
  ghost predicate SameNet(a: map<string, Json>, b: map<string, Json>)
  {
    && (forall k | k != ":role" && k != "role" :: k in a <==> k in b)
    && (forall k | k in a && k != ":role" && k != "role" :: k in b && b[k] == a[k])
    && ("role" in a ==> "role" in b && b["role"] == a["role"])
    && ("role" !in a && "role" in b ==> b["role"] == Null)
  }

  /** What an entry of the file can have become. */
  ghost predicate Traced(n: string, a: Json, b: Json)
  {
    || b == a
    || (n == DEFAULT_NETNS && a.Null? && b.Str?)
    || (&& a.Obj? && b.Obj? && a.fields.Keys == b.fields.Keys && "network" in a.fields
        && (forall k | k in a.fields && k != "network" :: b.fields[k] == a.fields[k])
        && a.fields["network"].Obj? && b.fields["network"].Obj?
        && SameNet(a.fields["network"].fields, b.fields["network"].fields))
  }

  ghost predicate TracedTree(file: Tree, tree: Tree)
  {
    && file.Keys <= tree.Keys
    && (forall n | n in tree && n !in file :: n == DEFAULT_NETNS && tree[n].Str?)
    && (forall n | n in file :: Traced(n, file[n], tree[n]))
  }

  lemma {:induction false} TracedTrans(n: string, a: Json, b: Json, c: Json)
    requires Traced(n, a, b) && Traced(n, b, c)
    ensures Traced(n, a, c)
  {
    if b != a && c != b && a.Obj? {
      var x, y, z := a.fields["network"].fields, b.fields["network"].fields, c.fields["network"].fields;
      assert SameNet(x, z);
    }
  }

  lemma {:induction false} TracedTreeTrans(a: Tree, b: Tree, c: Tree)
    requires TracedTree(a, b) && TracedTree(b, c)
    ensures TracedTree(a, c)
  {
    hide Traced;
    forall n | n in a ensures Traced(n, a[n], c[n]) { TracedTrans(n, a[n], b[n], c[n]); }
    forall n | n in c && n !in a ensures n == DEFAULT_NETNS && c[n].Str? {
      if n in b {
        assert Traced(n, b[n], c[n]);
        StrStays(n, b[n], c[n]);
      }
    }
  }

  lemma {:induction false} StrStays(n: string, a: Json, b: Json)
    requires Traced(n, a, b) && a.Str?
    ensures b == a
  {
  }

  lemma {:induction false} DriftTraced(tree: Tree, tree': Tree, name: string)
    requires Drift(tree, tree', name)
    ensures TracedTree(tree, tree')
  {
    forall n | n in tree ensures Traced(n, tree[n], tree'[n]) {
      assert Drifted(n, tree[n], tree'[n], name);
    }
  }

  lemma {:induction false} CodedTraced(tree: Tree, name: string)
    requires HasNet(tree, name) && RoleKnown(Net(tree, name))
    ensures TracedTree(tree, SetNet(tree, name, WithRoleCode(Net(tree, name))))
  {
    var a, b := tree[name], SetNet(tree, name, WithRoleCode(Net(tree, name)))[name];
    assert a.fields.Keys == b.fields.Keys;
    assert SameNet(a.fields["network"].fields, b.fields["network"].fields);
    assert Traced(name, a, b);
  }

  lemma {:induction false} NetworkTraced(order: Order, tree: Tree, name: string)
    requires IsOrder(order) && ValidateNetwork(order, tree, name).Pass?
    ensures TracedTree(tree, ValidateNetwork(order, tree, name).tree)
  {
    var net := WithRoleCode(Net(tree, name));
    var tree1, tree' := SetNet(tree, name, net), ValidateNetwork(order, tree, name).tree;
    assert Net(tree1, name) == net;
    assert forall k :: k in order(net.Keys) <==> k in net.Keys;
    CheckParametersSound(tree1, name, order(net.Keys));
    CodedTraced(tree, name);
    hide IsOrder, Drift, TracedTree, ValidateNetwork;
    DriftTraced(tree1, tree', name);
    TracedTreeTrans(tree, tree1, tree');
  }

  lemma {:induction false} SameTraced(tree: Tree)
    ensures TracedTree(tree, tree)
  {
  }

  lemma {:induction false} ComponentsTraced(order: Order, tree: Tree, name: string, types: seq<string>)
    requires IsOrder(order) && ValidateComponents(order, tree, name, types).Pass?
    ensures TracedTree(tree, ValidateComponents(order, tree, name, types).tree)
    decreases |types|
  {
    hide IsOrder, TracedTree, ValidateNetwork;
    SameTraced(tree);
    if types != [] {
      NetworkTraced(order, tree, name);
      var tree1 := ValidateNetwork(order, tree, name).tree;
      ComponentsTraced(order, tree1, name, types[1..]);
      TracedTreeTrans(tree, tree1, ValidateComponents(order, tree, name, types).tree);
    }
  }

  lemma {:induction false} EntityTraced(order: Order, tree: Tree, name: string)
    requires IsOrder(order) && name in tree && ValidateEntity(order, tree, name).Pass?
    ensures TracedTree(tree, ValidateEntity(order, tree, name).tree)
  {
    SameTraced(tree);
    if tree[name].Obj? { ComponentsTraced(order, tree, name, order(tree[name].fields.Keys)); }
  }

  lemma {:induction false} AllTraced(order: Order, tree: Tree, visits: seq<string>)
    requires IsOrder(order) && ValidateAll(order, tree, visits).Pass?
    ensures TracedTree(tree, ValidateAll(order, tree, visits).tree)
    decreases |visits|
  {
    hide IsOrder, TracedTree, ValidateEntity;
    SameTraced(tree);
    if visits != [] {
      var v := visits[0];
      if v == METADATA || v !in tree {
        AllTraced(order, tree, visits[1..]);
      } else {
        EntityTraced(order, tree, v);
        var tree1 := ValidateEntity(order, tree, v).tree;
        AllTraced(order, tree1, visits[1..]);
        TracedTreeTrans(tree, tree1, ValidateAll(order, tree, visits).tree);
      }
    }
  }

  /** A string where an entity should be is refused. */
  lemma {:induction false} StringRefused(order: Order, tree: Tree, visits: seq<string>, n: string)
    requires IsOrder(order) && n in tree && tree[n].Str? && n in visits && n != METADATA
    ensures !ValidateAll(order, tree, visits).Pass?
    decreases |visits|
  {
    var v := visits[0];
    if v != n {
      assert n in visits[1..];
      if v == METADATA || v !in tree {
        StringRefused(order, tree, visits[1..], n);
      } else if ValidateEntity(order, tree, v).Pass? {
        EntityTraced(order, tree, v);
        var tree1 := ValidateEntity(order, tree, v).tree;
        hide ValidateEntity, IsOrder;
        StrStays(n, tree[n], tree1[n]);
        StringRefused(order, tree1, visits[1..], n);
      }
    }
  }

  lemma {:induction false} ClaimsStay(n: string, a: Json, b: Json)
    requires Traced(n, a, b) && Claims(a)
    ensures Claims(b)
  {
  }

  /** A claimant is visited after the place of the default. */
  lemma {:induction false} ClaimLate(order: Order, tree: Tree, visits: seq<string>, n: string)
    requires IsOrder(order) && ValidateAll(order, tree, visits).Pass? && NoRepeats(visits)
    requires n in tree && n != METADATA && n != DEFAULT_NETNS && Claims(tree[n]) && n in visits && DEFAULT_NETNS in visits
    ensures ComesBefore(visits, DEFAULT_NETNS, n)
    decreases |visits|
  {
    var v, rest := visits[0], visits[1..];
    assert forall i | 0 <= i < |rest| :: rest[i] == visits[i + 1];
    if v == DEFAULT_NETNS {
      var j :| 0 <= j < |visits| && visits[j] == n;
      assert visits[0] == DEFAULT_NETNS && 0 < j;
    } else {
      assert DEFAULT_NETNS in rest;
      if v == n {
        EntityClaims(order, tree, n);
        hide ValidateEntity, IsOrder;
        StringRefused(order, ValidateEntity(order, tree, n).tree, rest, DEFAULT_NETNS);
      } else {
        assert n in rest;
        ClaimLateRest(order, tree, visits, n);
      }
    }
  }

  lemma {:induction false} ClaimLateRest(order: Order, tree: Tree, visits: seq<string>, n: string)
    requires IsOrder(order) && ValidateAll(order, tree, visits).Pass? && NoRepeats(visits) && visits != []
    requires n in tree && n != METADATA && n != DEFAULT_NETNS && Claims(tree[n])
    requires n in visits[1..] && DEFAULT_NETNS in visits[1..]
    ensures ComesBefore(visits, DEFAULT_NETNS, n)
    decreases |visits|, 0
  {
    var v, rest := visits[0], visits[1..];
    assert forall i | 0 <= i < |rest| :: rest[i] == visits[i + 1];
    if v == METADATA || v !in tree {
      hide IsOrder, ValidateEntity, Claims;
      ClaimLate(order, tree, rest, n);
    } else {
      EntityTraced(order, tree, v);
      var tree1 := ValidateEntity(order, tree, v).tree;
      ClaimsStay(n, tree[n], tree1[n]);
      hide IsOrder, ValidateEntity, Claims;
      ClaimLate(order, tree1, rest, n);
    }
    var i, j :| 0 <= i < j < |rest| && rest[i] == DEFAULT_NETNS && rest[j] == n;
    assert visits[i + 1] == DEFAULT_NETNS && visits[j + 1] == n;
  }

  lemma {:induction false} EntityClaims(order: Order, tree: Tree, n: string)
    requires IsOrder(order) && n in tree && n != DEFAULT_NETNS && Claims(tree[n]) && ValidateEntity(order, tree, n).Pass?
    ensures var tree' := ValidateEntity(order, tree, n).tree; DEFAULT_NETNS in tree' && tree'[DEFAULT_NETNS] == Str(n)
  {
    var tree' := ValidateEntity(order, tree, n).tree;
    ValidateEntitySound(order, tree, n);
    EntityTraced(order, tree, n);
    ClaimsStay(n, tree[n], tree'[n]);
    hide ValidateEntity, IsOrder, Traced;
    EntryMeans(tree', n);
  }

  lemma {:induction false} TracedUplink(file: Tree, tree: Tree, u: string)
    requires TracedTree(file, tree) && UsableUplink(tree, u)
    ensures UsableUplink(file, u)
  {
    assert u in file;
    assert Traced(u, file[u], tree[u]);
  }

  lemma {:induction false} TracedEntry(file: Tree, tree: Tree, n: string)
    requires TracedTree(file, tree) && n in file && ValidEntry(tree, n) && !file[n].Str?
    ensures FileEntry(file, n)
  {
    assert Traced(n, file[n], tree[n]);
    if file[n].Obj? && "network" in file[n].fields {
      var a, b := file[n].fields["network"].fields, tree[n].fields["network"].fields;
      assert file[n].fields["network"].Obj? && SameNet(a, b);
      if "uplink" in a { TracedUplink(file, tree, a["uplink"].s); }
      forall k | k in a ensures (k != "" && k[0] == ':') || k in {"role", "external", "default", "address", "uplink"} {
        if k != ":role" && k != "role" { assert k in b; }
      }
    }
  }

  lemma {:induction false} ClaimIsDefault(file: Tree, tree: Tree, n: string)
    requires TracedTree(file, tree) && Good(tree) && n in file && n != METADATA && Claims(file[n])
    ensures n != DEFAULT_NETNS && DEFAULT_NETNS in tree && tree[DEFAULT_NETNS] == Str(n)
  {
    assert Traced(n, file[n], tree[n]);
    ClaimsStay(n, file[n], tree[n]);
    hide Traced, TracedTree;
    GoodMeans(tree);
    assert ValidEntry(tree, n);
  }

  lemma {:induction false} StringFromNull(file: Tree, tree: Tree)
    requires TracedTree(file, tree) && DEFAULT_NETNS in file && !file[DEFAULT_NETNS].Str?
    requires DEFAULT_NETNS in tree && tree[DEFAULT_NETNS].Str?
    ensures file[DEFAULT_NETNS] == Null
  {
    assert Traced(DEFAULT_NETNS, file[DEFAULT_NETNS], tree[DEFAULT_NETNS]);
  }

  lemma {:induction false} LoadedClaim(order: Order, file: Tree, tree: Tree, n: string)
    requires IsOrder(order) && TracedTree(file, tree) && Good(tree)
    requires ValidateAll(order, file, order(file.Keys + {DEFAULT_NETNS})).Pass?
    requires n in file && n != METADATA && Claims(file[n]) && (DEFAULT_NETNS in file ==> !file[DEFAULT_NETNS].Str?)
    requires METADATA in file && !Claims(file[METADATA])
    ensures SoleClaim(order, file, n)
  {
    var keys := order(file.Keys + {DEFAULT_NETNS});
    assert NoRepeats(keys) && n in keys && DEFAULT_NETNS in keys;
    hide Good, Claims;
    ClaimIsDefault(file, tree, n);
    assert n != DEFAULT_NETNS ==> ComesBefore(keys, DEFAULT_NETNS, n) by {
      if n != DEFAULT_NETNS { ClaimLate(order, file, keys, n); }
    }
    hide IsOrder, ValidateAll;
    forall m | m in file && Claims(file[m]) ensures m == n { ClaimIsDefault(file, tree, m); }
    if DEFAULT_NETNS in file { StringFromNull(file, tree); }
  }

  lemma {:induction false} LoadsOnlyLoadable(order: Order, file: Tree)
    requires IsOrder(order) && Load(order, file).Some?
    ensures Loadable(order, file)
  {
    var keys := order(file.Keys + {DEFAULT_NETNS});
    var tree := Load(order, file).value;
    assert forall k :: k in keys <==> k in file.Keys + {DEFAULT_NETNS};
    LoadGood(order, file);
    AllTraced(order, file, keys);
    GoodMeans(tree);
    assert file[METADATA].fields == map["version" := Num(1)];
    forall n | n in file && n != METADATA ensures !file[n].Str? {
      if file[n].Str? { StringRefused(order, file, keys, n); }
    }
    hide Good, ValidateAll, TracedTree, IsOrder;
    forall n | n in file && n != METADATA ensures FileEntry(file, n) {
      assert n in tree by { KeysStay(file, tree); }
      TracedEntry(file, tree, n);
    }
    forall n | n in file && n != METADATA && Claims(file[n]) ensures SoleClaim(order, file, n) {
      LoadedClaim(order, file, tree, n);
    }
  }

  lemma {:induction false} KeysStay(file: Tree, tree: Tree)
    requires TracedTree(file, tree)
    ensures file.Keys <= tree.Keys
  {
  }

  lemma {:induction false} VisitedLoaded(order: Order, file: Tree, done: set<string>, claim: Json)
    requires Loadable(order, file) && file.Keys <= done && ClaimSoFar(file, done, claim)
    ensures LoadedAs(file, Visited(file, done, claim))
  {
    var tree := Visited(file, done, claim);
    forall n | n in file && file[n].Obj? && n != METADATA ensures StoredAs(file[n], tree[n]) {
      assert FileEntry(file, n);
      if claim != Null { assert SoleClaim(order, file, claim.s); }
      assert tree[n] == CodedEntity(file[n]);
      if "network" in file[n].fields {
        var net := NetOf(file[n]);
        RoleMeans(net);
        assert WithRoleCode(net) - {":role"} == net - {":role"};
      }
    }
    if claim != Null { assert SoleClaim(order, file, claim.s); }
  }

  /** A file loads exactly if it is loadable, and then its entities are loaded. */
  lemma {:induction false} LoadExact(order: Order, file: Tree)
    requires IsOrder(order)
    ensures Load(order, file).Some? <==> Loadable(order, file)
    ensures Load(order, file).Some? ==> LoadedAs(file, Load(order, file).value)
  {
    if Load(order, file).Some? {
      hide Load, Loadable, IsOrder;
      LoadsOnlyLoadable(order, file);
    }
    if Loadable(order, file) {
      var keys := order(file.Keys + {DEFAULT_NETNS});
      assert forall k :: k in keys <==> k in file.Keys + {DEFAULT_NETNS};
      assert MetadataOk(file);
      assert Firsts(keys, 0) == {} && Visited(file, {}, Null) == file && ClaimSoFar(file, {}, Null);
      assert file.Keys <= Firsts(keys, |keys|);
      hide IsOrder, Loadable, Visited, ClaimSoFar, Firsts, LoadedAs;
      var claim := VisitFrom(order, file, 0, Null);
      assert keys[0..] == keys;
      VisitedLoaded(order, file, Firsts(keys, |keys|), claim);
    }
  }
}
