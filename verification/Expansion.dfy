/**
  The expansion of uplinks: the network component sent to an entity daemon
  carries its uplink's component, which carries its uplink's, and so on.
 */
module Expansion {
  import opened Uplinks
  import opened JsonTree
  import opened ConfigModel
  import opened ConfigInvariant
  import opened ConfigAdd
  import opened Commits
  import opened ConfigStore

  type Component = map<string, Json>

  const UPLINK_NAME := ":uplink-name"

  /** The component with its uplink's name moved aside and the uplink's document in its place. */
  function Embed(component: Component, uplink: Json): Component
    requires "uplink" in component
  {
    component[UPLINK_NAME := component["uplink"]]["uplink" := uplink]
  }

  /**
    The meaning of an expansion, by the shape of the document alone: without an uplink it is the
    component; with one, it embeds an expansion of the uplink's component.
   */
  predicate IsExpansion(tree: Tree, component: Component, doc: Json)
    decreases doc
  {
    if "uplink" !in component then doc == Obj(component)
    else
      && component["uplink"].Str? && doc.Obj? && "uplink" in doc.fields
      && doc.fields == Embed(component, doc.fields["uplink"])
      && HasNet(tree, component["uplink"].s)
      && IsExpansion(tree, Net(tree, component["uplink"].s), doc.fields["uplink"])
  }

  /** The component names no uplink, or one that is a network entity. */
  ghost predicate Linked(tree: Tree, component: Component)
  {
    "uplink" in component ==> component["uplink"].Str? && HasNet(tree, component["uplink"].s)
  }

  lemma {:induction false} GoodLinked(tree: Tree, n: Name)
    requires Good(tree) && HasNet(tree, n)
    ensures Linked(tree, Net(tree, n))
    ensures n in tree && UplinkOf(tree[n]) ==
            if "uplink" in Net(tree, n) then Some(Net(tree, n)["uplink"].s) else None
  {
    assert n != METADATA;
    assert EntryOk(tree, n);
    if "uplink" in Net(tree, n) { assert KeyOk(tree, n, "uplink"); }
    assert NetOf(tree[n]) == Net(tree, n);
  }

  // ----- Flattening --------------------------------------------------------

  /** What a level says of its entity alone. */
  function Level(doc: Json): Component
  {
    if !doc.Obj? then map[]
    else if "uplink" in doc.fields && UPLINK_NAME in doc.fields then
      (doc.fields - {UPLINK_NAME})["uplink" := doc.fields[UPLINK_NAME]]
    else doc.fields
  }

  /** The component, without a `:uplink-name` of its own if it has an uplink. */
  function Plain(component: Component): Component
  {
    if "uplink" in component then component - {UPLINK_NAME} else component
  }

  /** The nested levels in a row, innermost last. */
  function Flatten(n: Name, doc: Json): seq<(Name, Component)>
    decreases doc
  {
    if doc.Obj? && "uplink" in doc.fields && UPLINK_NAME in doc.fields && doc.fields[UPLINK_NAME].Str? then
      [(n, Level(doc))] + Flatten(doc.fields[UPLINK_NAME].s, doc.fields["uplink"])
    else [(n, Level(doc))]
  }

  /** Flattening an expansion gives exactly the names and components met by walking uplinks by name. */
  lemma {:induction false} FlattenIsWalk(tree: Tree, n: Name, doc: Json)
    requires Good(tree) && HasNet(tree, n) && IsExpansion(tree, Net(tree, n), doc)
    ensures var t, levels := TopologyOf(tree), Flatten(n, doc);
            && Walk(t, n, |levels|).None?
            && (forall i | 0 <= i < |levels| :: Walk(t, n, i) == Some(levels[i].0))
            && (forall i | 0 <= i < |levels| ::
                  var net := Net(tree, levels[i].0);
                  levels[i].1 == if "uplink" in net then net - {":uplink-name"} else net)
    decreases doc
  {
    var t, levels, net := TopologyOf(tree), Flatten(n, doc), Net(tree, n);
    GoodLinked(tree, n);
    hide Good, HasNet, Net, UplinkOf;
    if "uplink" in net {
      var u, sub := net["uplink"].s, doc.fields["uplink"];
      FlattenIsWalk(tree, u, sub);
      var above := Flatten(u, sub);
      assert Level(doc) == Plain(net);
      assert levels == [(n, Plain(net))] + above;
      forall i | 0 <= i <= |above| ensures Walk(t, n, i + 1) == Walk(t, u, i) { WalkStep(t, n, i); }
      forall i | 0 <= i < |levels| ensures Walk(t, n, i) == Some(levels[i].0) {
        if i > 0 { assert Walk(t, n, (i - 1) + 1) == Walk(t, u, i - 1); }
      }
    } else {
      assert levels == [(n, Plain(net))];
    }
  }

  /** There is one expansion at most. */
  lemma {:induction false} ExpansionUnique(tree: Tree, component: Component, doc: Json, doc': Json)
    requires IsExpansion(tree, component, doc) && IsExpansion(tree, component, doc')
    ensures doc == doc'
    decreases doc
  {
    if "uplink" in component {
      ExpansionUnique(tree, Net(tree, component["uplink"].s), doc.fields["uplink"], doc'.fields["uplink"]);
    }
  }

  // ----- Termination -------------------------------------------------------

  /** How many more uplinks the recursion follows, at most. */
  ghost function Steps(rank: Rank, component: Component): nat
  {
    if "uplink" in component && component["uplink"].Str? && component["uplink"].s in rank
    then rank[component["uplink"].s] + 1 else 0
  }

  lemma {:induction false} StepsDrop(tree: Tree, rank: Rank, n: Name)
    requires Good(tree) && Ranked(TopologyOf(tree), rank) && HasNet(tree, n)
    ensures n in rank && Steps(rank, Net(tree, n)) < rank[n] + 1
  {
    GoodLinked(tree, n);
  }

  /** A document in the making: `deep_uplink_info` rewrites it in place. */
  class Document {
    var fields: Component

    constructor (fields: Component)
      ensures this.fields == fields
    {
      this.fields := fields;
    }

    /**
      `deep_uplink_info`, on a configuration whose uplink chains all end: it finishes, the
      component becomes its expansion, and the configuration is not touched.
     */
    method DeepUplinkInfo(config: Config, ghost rank: Rank)
      requires Good(config.tree) && Ranked(TopologyOf(config.tree), rank) && Linked(config.tree, fields)
      modifies this
      ensures IsExpansion(config.tree, old(fields), Obj(fields))
      decreases Steps(rank, fields)
    {
      if "uplink" !in fields {
        return;
      }
      var name := fields["uplink"].s;
      var entity := config.TryGet(name);
      assert entity.Some?;
      var uplink := new Document(entity.value.fields["network"].fields);
      GoodLinked(config.tree, name);
      StepsDrop(config.tree, rank, name);
      assert uplink.fields == Net(config.tree, name);
      uplink.DeepUplinkInfo(config, rank);
      fields := fields[UPLINK_NAME := fields["uplink"]];
      fields := fields["uplink" := Obj(uplink.fields)];
    }
  }

  /** An entity has an expansion exactly when its uplink chain ends. */
  lemma {:induction false} ExpandsIffChainEnds(tree: Tree, n: Name)
    requires Good(tree) && HasNet(tree, n)
    ensures (exists doc :: IsExpansion(tree, Net(tree, n), doc)) <==> ChainEnds(TopologyOf(tree), n)
  {
    if doc :| IsExpansion(tree, Net(tree, n), doc) {
      FlattenIsWalk(tree, n, doc);
    }
    if ChainEnds(TopologyOf(tree), n) {
      var k: nat :| Walk(TopologyOf(tree), n, k).None?;
      var doc := ExpandWithin(tree, n, k);
      assert IsExpansion(tree, Net(tree, n), doc);
    }
  }

  ghost function ExpandWithin(tree: Tree, n: Name, k: nat): (doc: Json)
    requires Good(tree) && HasNet(tree, n) && Walk(TopologyOf(tree), n, k).None?
    ensures IsExpansion(tree, Net(tree, n), doc)
    decreases k
  {
    GoodLinked(tree, n);
    var net := Net(tree, n);
    if "uplink" in net then
      WalkStep(TopologyOf(tree), n, k - 1);
      Obj(Embed(net, ExpandWithin(tree, net["uplink"].s, k - 1)))
    else Obj(net)
  }
}
