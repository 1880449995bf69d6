/**
  What a valid configuration and an acceptable entity are, written out in terms
  of the JSON values alone.
 */
module ConfigMeaning {
  import opened Uplinks
  import opened JsonTree
  import opened ConfigModel
  import opened ConfigInvariant
  import opened ConfigAdd

  /** The network component has one of the five roles and only parameters that exist, or that start with a colon. */
  ghost predicate KnownNetwork(net: map<string, Json>)
  {
    && "role" in net && net["role"] in {Str("root"), Str("interface"), Str("router"), Str("switch"), Str("client")}
    && (forall k | k in net :: (k != "" && k[0] == ':') || k in {"role", "external", "default", "address", "uplink"})
    && ("address" in net ==> net["role"] == Str("switch"))
  }

  /** The name is that of an entity with a network component that is not a client. */
  ghost predicate UsableUplink(tree: Tree, u: string)
  {
    && u in tree && tree[u].Obj? && "network" in tree[u].fields && tree[u].fields["network"].Obj?
    && var net := tree[u].fields["network"].fields; "role" in net ==> net["role"] != Str("client")
  }

  /** The number recorded under `:role`. */
  ghost predicate RoleNumber(role: Json, code: Json)
  {
    || (role == Str("root") && code == Num(0)) || (role == Str("interface") && code == Num(1))
    || (role == Str("router") && code == Num(2)) || (role == Str("switch") && code == Num(3))
    || (role == Str("client") && code == Num(4))
  }

  ghost predicate ValidNetwork(tree: Tree, n: string, net: map<string, Json>)
  {
    && KnownNetwork(net)
    && ":role" in net && RoleNumber(net["role"], net[":role"])
    && ("uplink" in net ==> net["uplink"].Str? && UsableUplink(tree, net["uplink"].s))
    && ("default" in net ==> ":default-netns" in tree && tree[":default-netns"] == Str(n))
  }

  ghost predicate ValidEntry(tree: Tree, n: string)
    requires n in tree
  {
    match tree[n]
    case Null => true
    case Arr(items) => items == []
    case Str(_) => n == ":default-netns"
    case Obj(fields) =>
      && fields.Keys <= {"network"}
      && ("network" in fields ==> fields["network"].Obj? && ValidNetwork(tree, n, fields["network"].fields))
    case _ => false
  }

  lemma {:induction false} RoleMeans(net: map<string, Json>)
    ensures RoleKnown(net) <==>
            "role" in net && net["role"] in {Str("root"), Str("interface"), Str("router"), Str("switch"), Str("client")}
    ensures RoleKnown(net) ==> RoleNumber(net["role"], Num(RoleCode(net["role"].s)))
    ensures RoleKnown(net) ==> forall code | RoleNumber(net["role"], code) :: code == Num(RoleCode(net["role"].s))
  {
  }

  lemma {:induction false} NetworkMeans(tree: Tree, n: string)
    requires HasNet(tree, n)
    ensures NetworkOk(tree, n) <==> ValidNetwork(tree, n, tree[n].fields["network"].fields)
  {
    var net := Net(tree, n);
    RoleMeans(net);
    hide RoleKnown, RoleCode, RoleNumber;
    if NetworkOk(tree, n) {
      forall k | k in net ensures (k != "" && k[0] == ':') || k in {"role", "external", "default", "address", "uplink"} {
        assert KeyOk(tree, n, k);
      }
      assert "address" in net ==> KeyOk(tree, n, "address");
      assert "uplink" in net ==> KeyOk(tree, n, "uplink");
      assert "default" in net ==> KeyOk(tree, n, "default");
    }
    if ValidNetwork(tree, n, net) {
      forall k | k in net ensures KeyOk(tree, n, k) {
        assert (k != "" && k[0] == ':') || k in {"role", "external", "default", "address", "uplink"};
      }
    }
  }

  lemma {:induction false} EntryMeans(tree: Tree, n: string)
    requires n in tree
    ensures EntryOk(tree, n) <==> ValidEntry(tree, n)
  {
    if HasNet(tree, n) {
      NetworkMeans(tree, n);
      hide NetworkOk, ValidNetwork;
    }
  }

  /** The invariant, written out. */
  lemma {:induction false} GoodMeans(tree: Tree)
    ensures Good(tree) <==>
      && "!metadata" in tree && tree["!metadata"] == Obj(map["version" := Num(1)])
      && forall n | n in tree && n != "!metadata" :: ValidEntry(tree, n)
  {
    assert MetadataOk(tree) <==> "!metadata" in tree && tree["!metadata"] == Obj(map["version" := Num(1)]) by {
      if MetadataOk(tree) { assert tree[METADATA].fields == map["version" := Num(1)]; }
    }
    hide EntryOk, ValidEntry;
    forall n | n in tree && n != METADATA ensures EntryOk(tree, n) <==> ValidEntry(tree, n) { EntryMeans(tree, n); }
    forall n: string | n !in tree ensures EntryOk(tree, n) { Absent(tree, n); }
  }

  lemma {:induction false} Absent(tree: Tree, n: string)
    requires n !in tree
    ensures EntryOk(tree, n)
  {
  }

  // ----- Keys --------------------------------------------------------------

  function Joined(path: Path): string
    requires path != []
  {
    if |path| == 1 then path[0] else path[0] + "." + Joined(path[1..])
  }

  lemma {:induction false} SegmentsFromMean(key: string, from: nat)
    requires from <= |key|
    ensures Joined(SegmentsFrom(key, from)) == key[from..]
    ensures forall i | 0 <= i < |SegmentsFrom(key, from)| :: '.' !in SegmentsFrom(key, from)[i]
    decreases |key| - from
  {
    match FindDot(key, from) {
      case None =>
        assert forall i | 0 <= i < |key[from..]| :: key[from..][i] == key[from + i];
      case Some(dot) =>
        SegmentsFromMean(key, dot + 1);
        var first, rest := key[from..dot], SegmentsFrom(key, dot + 1);
        assert ([first] + rest)[1..] == rest;
        assert forall i | 0 <= i < |first| :: first[i] == key[from + i];
        assert key[from..] == first + "." + key[dot + 1..];
    }
  }

  /** The segments of a key are the parts between its dots; a key that starts with a dot is one segment. */
  lemma {:induction false} SegmentsMean(key: string)
    ensures key != "" && key[0] == '.' ==> Segments(key) == [key]
    ensures !(key != "" && key[0] == '.') ==>
      Joined(Segments(key)) == key && forall i | 0 <= i < |Segments(key)| :: '.' !in Segments(key)[i]
  {
    if !(key != "" && key[0] == '.') {
      SegmentsFromMean(key, 0);
      assert key[0..] == key;
    }
  }

  /** A parameter's value is the JSON that its text is, or the text itself if it is not JSON. */
  lemma {:induction false} SettingsMean(parse: Parser, ps: seq<Parameter>, i: nat)
    requires i < |ps|
    ensures var settings := SettingsOf(parse, ps);
            && |settings| == |ps| && settings[i].path == Segments(ps[i].key)
            && (parse(ps[i].text).None? ==> settings[i].value == Str(ps[i].text))
            && (parse(ps[i].text).Some? ==> settings[i].value == parse(ps[i].text).value)
  {
  }

  // ----- Adding ------------------------------------------------------------

  /**
    What a new entity has to be: nothing but a network component, known, with a usable uplink, which
    may be the entity itself unless it is a client, and the default only if nobody has claimed it.
   */
  ghost predicate Acceptable(tree: Tree, name: string, e: Json)
  {
    && e.Obj? && e.fields.Keys <= {"network"}
    && ("network" in e.fields ==>
          && e.fields["network"].Obj?
          && var net := e.fields["network"].fields;
          && KnownNetwork(net)
          && ("uplink" in net ==>
                && net["uplink"].Str?
                && if net["uplink"].s == name then net["role"] != Str("client") else UsableUplink(tree, net["uplink"].s))
          && ("default" in net ==>
                && name != ":default-netns"
                && (":default-netns" in tree ==> tree[":default-netns"] == Null || tree[":default-netns"] == Str(name))))
  }

  lemma {:induction false} KeyMeans(tree: Tree, name: string, e: Json, k: string)
    requires name !in tree && e.Obj? && "network" in e.fields && e.fields["network"].Obj? && RoleKnown(NetOf(e))
    requires k in NetOf(e)
    ensures var net := NetOf(e);
            KeyAdmissible(tree[name := CodedEntity(e)], name, k) <==>
              || (k != "" && k[0] == ':') || k == "role" || k == "external"
              || (k == "default" && name != ":default-netns" &&
                  (":default-netns" in tree ==> tree[":default-netns"] == Null || tree[":default-netns"] == Str(name)))
              || (k == "address" && net["role"] == Str("switch"))
              || (k == "uplink" && net["uplink"].Str? &&
                  if net["uplink"].s == name then net["role"] != Str("client") else UsableUplink(tree, net["uplink"].s))
  {
    var base, net := tree[name := CodedEntity(e)], NetOf(e);
    assert Net(base, name) == WithRoleCode(net);
    RoleMeans(net);
    if k == "uplink" && net["uplink"].Str? && net["uplink"].s != name {
      var u := net["uplink"].s;
      assert Net(base, u) == Net(tree, u);
    }
  }

  lemma {:induction false} AcceptableMeans(tree: Tree, name: string, e: Json)
    requires name !in tree
    ensures Admissible(tree, name, e) <==> Acceptable(tree, name, e)
  {
    if e.Obj? && "network" in e.fields && e.fields["network"].Obj? {
      var net := NetOf(e);
      RoleMeans(net);
      if RoleKnown(net) {
        hide RoleKnown, KeyAdmissible, UsableUplink, CodedEntity;
        KeysAdmissible(tree, name, e);
      }
    }
  }

  lemma {:induction false} KeysAdmissible(tree: Tree, name: string, e: Json)
    requires name !in tree && e.Obj? && "network" in e.fields && e.fields["network"].Obj? && RoleKnown(NetOf(e))
    ensures (forall k | k in NetOf(e) :: KeyAdmissible(tree[name := CodedEntity(e)], name, k)) <==>
            Acceptable(tree, name, Obj(map["network" := e.fields["network"]]))
  {
    var net := NetOf(e);
    RoleMeans(net);
    var only := Obj(map["network" := e.fields["network"]]);
    assert only.fields.Keys == {"network"};
    hide RoleKnown, KeyAdmissible, UsableUplink, CodedEntity;
    if forall k | k in net :: KeyAdmissible(tree[name := CodedEntity(e)], name, k) {
      forall k | k in net ensures (k != "" && k[0] == ':') || k in {"role", "external", "default", "address", "uplink"} {
        KeyMeans(tree, name, e, k);
      }
      if "address" in net { KeyMeans(tree, name, e, "address"); }
      if "uplink" in net { KeyMeans(tree, name, e, "uplink"); }
      if "default" in net { KeyMeans(tree, name, e, "default"); }
    }
    if Acceptable(tree, name, only) {
      forall k | k in net ensures KeyAdmissible(tree[name := CodedEntity(e)], name, k) {
        KeyMeans(tree, name, e, k);
      }
    }
  }

  /** The entity as it is stored: its network component has the number of its role under `:role`. */
  ghost predicate StoredAs(e: Json, stored: Json)
  {
    && e.Obj? && stored.Obj? && stored.fields.Keys == e.fields.Keys
    && (forall k | k in e.fields && k != "network" :: stored.fields[k] == e.fields[k])
    && ("network" in e.fields ==>
          && e.fields["network"].Obj? && stored.fields["network"].Obj?
          && var net, net' := e.fields["network"].fields, stored.fields["network"].fields;
          && ":role" in net' && net' - {":role"} == net - {":role"}
          && "role" in net && RoleNumber(net["role"], net'[":role"]))
  }

  ghost predicate Claims(e: Json)
  {
    e.Obj? && "network" in e.fields && e.fields["network"].Obj? && "default" in e.fields["network"].fields
  }

  /** The configuration is as before but for the new entity and the claim of the default. */
  ghost predicate OnlyAdded(tree: Tree, tree': Tree, name: string, e: Json)
  {
    && tree'.Keys == tree.Keys + {name} + (if Claims(e) then {":default-netns"} else {})
    && StoredAs(e, tree'[name])
    && (Claims(e) ==> tree'[":default-netns"] == Str(name))
    && forall n | n in tree && !(Claims(e) && n == ":default-netns") :: tree'[n] == tree[n]
  }

  /**
    The outcome of every `add` in a valid configuration, with its error numbers, and the configuration
    after an accepted one.
   */
  lemma {:induction false} AddOutcome(order: Order, parse: Parser, mutable: bool, tree: Tree, name: string, ps: seq<Parameter>)
    requires IsOrder(order) && Good(tree)
    ensures var r := Add(order, parse, mutable, tree, name, ps);
            && r.outcome ==
                 (if !mutable then Refused(30)
                  else if name in tree then Refused(17)
                  else match Built(parse, ps)
                       case Throws => Terminated
                       case Placed(e) => if Acceptable(tree, name, e) then Added else Refused(22)
                       case _ => Refused(22))
            && (r.outcome.Added? ==> OnlyAdded(tree, r.tree, name, Built(parse, ps).tree))
  {
    if mutable && name !in tree {
      AddExact(order, parse, tree, name, ps);
      OtherRefusals(order, parse, tree, name, ps);
      hide Good, IsOrder, Add, Built, Admissible, Acceptable, OnlyAdded, Grown;
      if Built(parse, ps).Placed? {
        var e := Built(parse, ps).tree;
        AcceptableMeans(tree, name, e);
        if Acceptable(tree, name, e) { StoredMeans(tree, name, e); }
      }
    } else {
      hide Good, IsOrder, Built, Acceptable, OnlyAdded;
    }
  }

  lemma {:induction false} OtherRefusals(order: Order, parse: Parser, tree: Tree, name: string, ps: seq<Parameter>)
    requires name !in tree
    ensures var r := Add(order, parse, true, tree, name, ps);
            && (r.outcome.Refused? ==> r.outcome == Refused(22))
            && (Built(parse, ps).Throws? ==> r.outcome.Terminated?)
            && (Built(parse, ps).Blocked? || Built(parse, ps).Taken? ==> r.outcome == Refused(22))
  {
    hide ValidateEntity, Build;
  }

  lemma {:induction false} StoredMeans(tree: Tree, name: string, e: Json)
    requires name !in tree && Acceptable(tree, name, e)
    ensures OnlyAdded(tree, Grown(tree, name, e), name, e)
  {
    assert StoredAs(e, CodedEntity(e)) by {
      if "network" in e.fields {
        var net := NetOf(e);
        RoleMeans(net);
        assert WithRoleCode(net) - {":role"} == net - {":role"};
      }
    }
    assert Claims(e) <==> ClaimsDefault(e);
    hide StoredAs, CodedEntity, KnownNetwork, UsableUplink;
  }

  /** A role that does not exist is refused, whatever else the entity has. */
  lemma {:induction false} UnknownRoleRefused(order: Order, parse: Parser, tree: Tree, name: string, ps: seq<Parameter>, role: Json)
    requires IsOrder(order) && Good(tree) && name !in tree && Built(parse, ps).Placed?
    requires role !in {Str("root"), Str("interface"), Str("router"), Str("switch"), Str("client")}
    requires Lookup(Built(parse, ps).tree, ["network", "role"]) == Some(role)
    ensures Add(order, parse, true, tree, name, ps).outcome == Refused(22)
  {
    AddOutcome(order, parse, true, tree, name, ps);
    hide Add, Built, Good;
    var e := Built(parse, ps).tree;
    assert ["network", "role"][1..] == ["role"] && ["role"][1..] == [];
    assert Lookup(e.fields["network"], ["role"]) == Some(role);
  }
}
