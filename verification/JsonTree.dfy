/**
  JSON values and the in-place insertion of dotted parameters into a tree.
 */
module JsonTree {
  import opened Uplinks

  datatype Json =
    | Null
    | Bool(b: bool)
    | Num(n: int)
    | Str(s: string)
    | Arr(items: seq<Json>)
    | Obj(fields: map<string, Json>)

  type Path = seq<string>

  const Empty: Json := Obj(map[])

  /** The fields an object has, or would have once indexed: indexing null makes it an object. */
  function Fields(tree: Json): map<string, Json>
  {
    if tree.Obj? then tree.fields else map[]
  }

  function Get(m: map<string, Json>, key: string): Json
  {
    if key in m then m[key] else Null
  }

  // ----- Lookup ------------------------------------------------------------

  function Lookup(tree: Json, path: Path): Option<Json>
    decreases |path|
  {
    if path == [] then Some(tree)
    else if tree.Obj? && path[0] in tree.fields then Lookup(tree.fields[path[0]], path[1..])
    else None
  }

  // ----- Insertion ---------------------------------------------------------

  datatype Placement =
    | Placed(tree: Json)
    | Blocked   // an inner node is a value, not an object
    | Taken     // the place already has a non-null value
    | Throws    // a sub-key of a value: `operator[]` throws

  /** Following and creating the nodes of `path`, then storing `v`. */
  function Insert(tree: Json, path: Path, v: Json): Placement
    requires path != []
    decreases |path|
  {
    var child := Get(Fields(tree), path[0]);
    if |path| == 1 then
      if !tree.Null? && !tree.Obj? then Throws
      else if !child.Null? then Taken
      else Placed(Obj(Fields(tree)[path[0] := v]))
    else if !tree.Null? && !tree.Obj? then Blocked
    else
      match Insert(child, path[1..], v)
      case Placed(sub) => Placed(Obj(Fields(tree)[path[0] := sub]))
      case other => other
  }

  predicate Comparable(p: Path, q: Path)
  {
    p <= q || q <= p
  }

  lemma {:induction false} LookupThrough(tree: Json, p: Path, q: Path)
    requires p <= q
    ensures Lookup(tree, q) == match Lookup(tree, p) case None => None case Some(sub) => Lookup(sub, q[|p|..])
    decreases |p|
  {
    if p != [] {
      assert p[1..] <= q[1..];
      assert q[1..][|p| - 1..] == q[|p|..];
      if tree.Obj? && p[0] in tree.fields {
        LookupThrough(tree.fields[p[0]], p[1..], q[1..]);
      }
    }
  }

  predicate IsNode(found: Option<Json>)
  {
    found.None? || found.value.Null? || found.value.Obj?
  }

  /** The place `path` can be filled: every node above it is an object or can become one, and it is free. */
  ghost predicate Free(tree: Json, path: Path)
  {
    && (forall r: Path | r < path :: IsNode(Lookup(tree, r)))
    && (Lookup(tree, path).None? || Lookup(tree, path).value.Null?)
  }

  /** The child of a node answers for the paths below it. */
  lemma {:induction false} ChildLookup(tree: Json, key: string, rest: Path)
    requires tree.Null? || tree.Obj?
    ensures var child := Get(Fields(tree), key);
            rest != [] || key in Fields(tree) ==> Lookup(tree, [key] + rest) == Lookup(child, rest)
  {
    assert ([key] + rest)[1..] == rest;
  }

  lemma {:induction false} InsertPlacesIffFree(tree: Json, path: Path, v: Json)
    requires path != []
    ensures Insert(tree, path, v).Placed? <==> Free(tree, path)
    decreases |path|
  {
    var child := Get(Fields(tree), path[0]);
    var rest := path[1..];
    assert path == [path[0]] + rest;
    assert IsNode(Lookup(tree, [])) <==> tree.Null? || tree.Obj?;
    assert [] < path;
    if tree.Null? || tree.Obj? {
      ChildLookup(tree, path[0], rest);
      if |path| == 1 {
        assert rest == [];
        assert Lookup(child, []) == Some(child);
      } else {
        InsertPlacesIffFree(child, rest, v);
        forall r: Path | r < rest ensures [path[0]] + r < path && IsNode(Lookup(tree, [path[0]] + r)) == IsNode(Lookup(child, r)) {
          ChildLookup(tree, path[0], r);
          assert ([path[0]] + r)[1..] == r;
        }
        forall r: Path | r < path ensures r == [] || (r == [path[0]] + r[1..] && r[1..] < rest) {
          if r != [] { assert r[0] == path[0]; }
        }
      }
    }
  }

  /**
    Why an insertion fails.  A value further up than the last step blocks it; a value right above the
    place makes the library throw; otherwise the place is taken by a value that is not null.
   */
  lemma {:induction false} InsertFails(tree: Json, path: Path, v: Json)
    requires path != []
    ensures Insert(tree, path, v) == Blocked <==>
            exists k :: 0 <= k < |path| - 1 && !IsNode(Lookup(tree, path[..k]))
    ensures Insert(tree, path, v) == Throws <==>
            && (forall k | 0 <= k < |path| - 1 :: IsNode(Lookup(tree, path[..k])))
            && !IsNode(Lookup(tree, path[..|path| - 1]))
    ensures Insert(tree, path, v) == Taken <==>
            && (forall k | 0 <= k < |path| :: IsNode(Lookup(tree, path[..k])))
            && Lookup(tree, path).Some? && !Lookup(tree, path).value.Null?
    decreases |path|
  {
    var child, rest := Get(Fields(tree), path[0]), path[1..];
    assert path == [path[0]] + rest && path[..0] == [];
    assert IsNode(Lookup(tree, path[..0])) <==> tree.Null? || tree.Obj?;
    if tree.Null? || tree.Obj? {
      forall k | 0 < k < |path|
        ensures IsNode(Lookup(tree, path[..k])) <==> IsNode(Lookup(child, rest[..k - 1]))
      {
        assert path[..k] == [path[0]] + rest[..k - 1];
        ChildLookup(tree, path[0], rest[..k - 1]);
      }
      ChildLookup(tree, path[0], rest);
      if |path| > 1 {
        InsertFails(child, rest, v);
        ShiftNodes(tree, path, child, |path| - 1);
        ShiftNodes(tree, path, child, |path|);
        assert path[..|path| - 1] == [path[0]] + rest[..|rest| - 1];
      }
    } else {
      assert forall k | 0 < k <= |path| :: path[..k] != [] && path[..k][0] == path[0];
    }
  }

  lemma {:induction false} ShiftNodes(tree: Json, path: Path, child: Json, m: nat)
    requires 0 < m <= |path| && IsNode(Lookup(tree, path[..0]))
    requires forall k | 0 < k < |path| :: IsNode(Lookup(tree, path[..k])) <==> IsNode(Lookup(child, path[1..][..k - 1]))
    ensures (forall k | 0 <= k < m :: IsNode(Lookup(tree, path[..k]))) <==>
            (forall k | 0 <= k < m - 1 :: IsNode(Lookup(child, path[1..][..k])))
  {
    hide Lookup, IsNode;
    if forall k | 0 <= k < m :: IsNode(Lookup(tree, path[..k])) {
      forall k | 0 <= k < m - 1 ensures IsNode(Lookup(child, path[1..][..k])) {
        assert IsNode(Lookup(tree, path[..k + 1]));
      }
    }
    if forall k | 0 <= k < m - 1 :: IsNode(Lookup(child, path[1..][..k])) {
      forall k | 0 <= k < m ensures IsNode(Lookup(tree, path[..k])) {
        if k > 0 { assert IsNode(Lookup(child, path[1..][..k - 1])); }
      }
    }
  }

  /** What is found after an insertion: the value at the path, objects above it, and the rest as before. */
  lemma {:induction false} InsertLookup(tree: Json, p: Path, v: Json, q: Path)
    requires p != [] && Insert(tree, p, v).Placed?
    ensures var tree' := Insert(tree, p, v).tree;
            && (p <= q ==> Lookup(tree', q) == Lookup(v, q[|p|..]))
            && (q < p ==> Lookup(tree', q).Some? && Lookup(tree', q).value.Obj?)
            && (!Comparable(p, q) ==> Lookup(tree', q) == Lookup(tree, q))
    decreases |p|
  {
    var tree' := Insert(tree, p, v).tree;
    var child := Get(Fields(tree), p[0]);
    if q != [] {
      if q[0] == p[0] {
        assert Lookup(tree', q) == Lookup(tree'.fields[p[0]], q[1..]);
        assert p <= q <==> p[1..] <= q[1..];
        assert q < p <==> q[1..] < p[1..];
        assert p <= q ==> q[1..][|p| - 1..] == q[|p|..];
        if |p| > 1 {
          InsertLookup(child, p[1..], v, q[1..]);
          if !Comparable(p, q) {
            assert q == [p[0]] + q[1..];
            ChildLookup(tree, p[0], q[1..]);
          }
        }
      } else {
        assert !(p <= q) && !(q <= p);
      }
    }
  }

  function InsertedAt(m: map<string, Json>, p: Path, v: Json): Placement
    requires p != []
  {
    var child := Get(m, p[0]);
    if |p| == 1 then (if child.Null? then Placed(v) else Taken) else Insert(child, p[1..], v)
  }

  /** An insertion changes one field, in a way that depends on that field only. */
  lemma {:induction false} InsertOneField(tree: Json, p: Path, v: Json)
    requires p != []
    ensures tree.Null? || tree.Obj? ==>
      Insert(tree, p, v) ==
        match InsertedAt(Fields(tree), p, v)
        case Placed(sub) => Placed(Obj(Fields(tree)[p[0] := sub]))
        case other => other
    ensures Insert(tree, p, v).Placed? ==> tree.Null? || tree.Obj?
  {
  }

  lemma {:induction false} InsertedElsewhere(m: map<string, Json>, key: string, sub: Json, q: Path, w: Json)
    requires q != [] && q[0] != key
    ensures InsertedAt(m[key := sub], q, w) == InsertedAt(m, q, w)
  {
    assert Get(m[key := sub], q[0]) == Get(m, q[0]);
  }

  lemma {:induction false} DifferentKeys(tree: Json, p: Path, v: Json, q: Path, w: Json)
    requires p != [] && q != [] && p[0] != q[0]
    requires Insert(tree, p, v).Placed? && Insert(Insert(tree, p, v).tree, q, w).Placed?
    ensures Insert(tree, q, w).Placed? && Insert(Insert(tree, q, w).tree, p, v).Placed?
    ensures Insert(Insert(tree, p, v).tree, q, w) == Insert(Insert(tree, q, w).tree, p, v)
  {
    hide Insert, InsertedAt;
    var m := Fields(tree);
    InsertOneField(tree, p, v);
    var a := InsertedAt(m, p, v).tree;
    InsertedElsewhere(m, p[0], a, q, w);
    InsertOneField(Insert(tree, p, v).tree, q, w);
    InsertOneField(tree, q, w);
    var b := InsertedAt(m, q, w).tree;
    InsertedElsewhere(m, q[0], b, p, v);
    InsertOneField(Insert(tree, q, w).tree, p, v);
    assert m[p[0] := a][q[0] := b] == m[q[0] := b][p[0] := a];
  }

  lemma {:induction false} TailsIncomparable(p: Path, q: Path)
    requires p != [] && q != [] && p[0] == q[0] && !Comparable(p, q)
    ensures |p| > 1 && |q| > 1 && !Comparable(p[1..], q[1..])
  {
    assert p[1..] <= q[1..] ==> p <= q;
    assert q[1..] <= p[1..] ==> q <= p;
  }

  /** Inserting below the key `p[0]`, where the child is known. */
  lemma {:induction false} InsertBelow(m: map<string, Json>, x: Json, p: Path, v: Json)
    requires |p| > 1
    ensures Insert(Obj(m[p[0] := x]), p, v) ==
      match Insert(x, p[1..], v)
      case Placed(sub) => Placed(Obj(m[p[0] := sub]))
      case other => other
  {
    if Insert(x, p[1..], v).Placed? {
      var sub := Insert(x, p[1..], v).tree;
      assert m[p[0] := x][p[0] := sub] == m[p[0] := sub];
    }
  }

  lemma {:induction false} NodeAsObject(tree: Json, p: Path, v: Json)
    requires |p| > 1 && (tree.Null? || tree.Obj?)
    ensures Insert(tree, p, v) ==
      match Insert(Get(Fields(tree), p[0]), p[1..], v)
      case Placed(sub) => Placed(Obj(Fields(tree)[p[0] := sub]))
      case other => other
  {
  }

  /** Insertions at incomparable paths commute. */
  lemma {:induction false} InsertCommutes(tree: Json, p: Path, v: Json, q: Path, w: Json)
    requires p != [] && q != [] && !Comparable(p, q)
    requires Insert(tree, p, v).Placed? && Insert(Insert(tree, p, v).tree, q, w).Placed?
    ensures Insert(tree, q, w).Placed? && Insert(Insert(tree, q, w).tree, p, v).Placed?
    ensures Insert(Insert(tree, p, v).tree, q, w) == Insert(Insert(tree, q, w).tree, p, v)
    decreases |p|
  {
    if p[0] != q[0] {
      DifferentKeys(tree, p, v, q, w);
    } else {
      hide Comparable;
      TailsIncomparable(p, q);
      InsertOneField(tree, p, v);
      hide Insert;
      var m := Fields(tree);
      var child := Get(m, p[0]);
      NodeAsObject(tree, p, v);
      NodeAsObject(tree, q, w);
      var a := Insert(child, p[1..], v).tree;
      InsertBelow(m, a, q, w);
      InsertCommutes(child, p[1..], v, q[1..], w);
      InsertBelow(m, Insert(child, q[1..], w).tree, p, v);
    }
  }

  /** A place that has a non-null value keeps one. */
  lemma {:induction false} InsertKeepsFilled(tree: Json, p: Path, v: Json, q: Path)
    requires p != [] && Insert(tree, p, v).Placed?
    requires Lookup(tree, q).Some? && !Lookup(tree, q).value.Null?
    ensures Lookup(Insert(tree, p, v).tree, q).Some? && !Lookup(Insert(tree, p, v).tree, q).value.Null?
  {
    InsertLookup(tree, p, v, q);
    InsertPlacesIffFree(tree, p, v);
    if p <= q {
      LookupThrough(tree, p, q);
    }
  }

  // ----- Building an entity from its parameters ----------------------------

  datatype Setting = Setting(path: Path, value: Json)

  /** Inserting the settings one after the other. */
  function Build(tree: Json, settings: seq<Setting>): Placement
    requires forall s | s in settings :: s.path != []
    decreases |settings|
  {
    if settings == [] then Placed(tree)
    else
      match Insert(tree, settings[0].path, settings[0].value)
      case Placed(tree') => Build(tree', settings[1..])
      case other => other
  }

  ghost predicate PrefixFree(settings: seq<Setting>)
  {
    && (forall s | s in settings :: s.path != [] && !s.value.Null?)
    && (forall i, j | 0 <= i < j < |settings| :: !Comparable(settings[i].path, settings[j].path))
  }

  /** `tree` holds exactly the settings: their values, the objects leading to them, and nothing else. */
  ghost predicate Holds(tree: Json, settings: seq<Setting>)
  {
    && tree.Obj?
    && (forall q: Path, i | 0 <= i < |settings| && settings[i].path <= q ::
          Lookup(tree, q) == Lookup(settings[i].value, q[|settings[i].path|..]))
    && (forall q: Path, i | 0 <= i < |settings| && q < settings[i].path ::
          Lookup(tree, q).Some? && Lookup(tree, q).value.Obj?)
    && (forall q: Path | q != [] && (forall i | 0 <= i < |settings| :: !Comparable(settings[i].path, q)) ::
          Lookup(tree, q).None?)
  }

  lemma {:induction false} HoldsStep(tree: Json, settings: seq<Setting>, s: Setting)
    requires Holds(tree, settings) && s.path != []
    requires forall i | 0 <= i < |settings| :: !Comparable(settings[i].path, s.path)
    ensures Insert(tree, s.path, s.value).Placed?
    ensures Holds(Insert(tree, s.path, s.value).tree, settings + [s])
  {
    forall r: Path | r < s.path ensures IsNode(Lookup(tree, r)) {
      if r != [] && !(forall i | 0 <= i < |settings| :: !Comparable(settings[i].path, r)) {
        var i :| 0 <= i < |settings| && Comparable(settings[i].path, r);
        assert settings[i].path != r && !(settings[i].path <= r);
        assert r < settings[i].path;
      }
    }
    InsertPlacesIffFree(tree, s.path, s.value);
    HoldsAfter(tree, settings, s);
  }

  lemma {:induction false} HoldsAfter(tree: Json, settings: seq<Setting>, s: Setting)
    requires Holds(tree, settings) && s.path != []
    requires forall i | 0 <= i < |settings| :: !Comparable(settings[i].path, s.path)
    requires Insert(tree, s.path, s.value).Placed?
    ensures Holds(Insert(tree, s.path, s.value).tree, settings + [s])
  {
    var tree' := Insert(tree, s.path, s.value).tree;
    var all := settings + [s];
    forall q: Path, i | 0 <= i < |all| && all[i].path <= q
      ensures Lookup(tree', q) == Lookup(all[i].value, q[|all[i].path|..])
    {
      InsertLookup(tree, s.path, s.value, q);
      if i < |settings| { IncomparableBelow(settings[i].path, s.path, q); }
    }
    forall q: Path, i | 0 <= i < |all| && q < all[i].path
      ensures Lookup(tree', q).Some? && Lookup(tree', q).value.Obj?
    {
      InsertLookup(tree, s.path, s.value, q);
      if i < |settings| { assert !(s.path <= settings[i].path); }
    }
    forall q: Path | q != [] && (forall i | 0 <= i < |all| :: !Comparable(all[i].path, q))
      ensures Lookup(tree', q).None?
    {
      InsertLookup(tree, s.path, s.value, q);
      assert !Comparable(all[|settings|].path, q);
      forall i | 0 <= i < |settings| ensures !Comparable(settings[i].path, q) {
        assert all[i] == settings[i];
      }
    }
  }

  lemma {:induction false} IncomparableBelow(p: Path, s: Path, q: Path)
    requires !Comparable(p, s) && p <= q
    ensures !Comparable(s, q)
  {
    assert s <= q && |s| <= |p| ==> s <= p;
    assert s <= q && |p| <= |s| ==> p <= s;
  }

  lemma {:induction false} BuildFrom(tree: Json, done: seq<Setting>, todo: seq<Setting>)
    requires Holds(tree, done) && PrefixFree(done + todo)
    ensures (forall s | s in todo :: s.path != []) && Build(tree, todo).Placed?
    ensures Holds(Build(tree, todo).tree, done + todo)
    decreases |todo|
  {
    assert forall s | s in todo :: s in done + todo;
    if todo == [] {
      assert done + todo == done;
    } else {
      var all := done + todo;
      forall i | 0 <= i < |done| ensures !Comparable(done[i].path, todo[0].path) {
        assert all[i] == done[i] && all[|done|] == todo[0];
      }
      HoldsStep(tree, done, todo[0]);
      assert (done + [todo[0]]) + todo[1..] == all;
      BuildFrom(Insert(tree, todo[0].path, todo[0].value).tree, done + [todo[0]], todo[1..]);
    }
  }

  /** Non-null values at prefix-free paths build a tree that holds exactly them. */
  lemma {:induction false} BuildHolds(settings: seq<Setting>)
    requires PrefixFree(settings)
    ensures Build(Empty, settings).Placed? && Holds(Build(Empty, settings).tree, settings)
  {
    forall q: Path | q != [] ensures Lookup(Empty, q).None? {}
    assert [] + settings == settings;
    BuildFrom(Empty, [], settings);
  }

  lemma {:induction false} PrefixFreeTail(ss: seq<Setting>)
    requires PrefixFree(ss) && ss != []
    ensures PrefixFree(ss[1..])
  {
    assert forall i | 0 <= i < |ss[1..]| :: ss[1..][i] == ss[i + 1];
    assert forall s | s in ss[1..] :: s in ss;
  }

  lemma {:induction false} MoveToFront(tree: Json, a: seq<Setting>, x: Setting, b: seq<Setting>)
    requires PrefixFree(a + [x] + b) && forall s | s in a + [x] + b :: s.path != []
    requires Build(tree, a + [x] + b).Placed?
    ensures forall s | s in [x] + a + b :: s.path != []
    ensures Build(tree, [x] + a + b) == Build(tree, a + [x] + b)
    decreases |a|
  {
    var all := a + [x] + b;
    forall s | s in [x] + a + b ensures s.path != [] { assert s in all; }
    if a == [] {
      assert [x] + a + b == all;
    } else {
      var y := a[0];
      assert all[0] == y && all[1..] == a[1..] + [x] + b;
      var tree1 := Insert(tree, y.path, y.value).tree;
      PrefixFreeTail(all);
      assert !Comparable(y.path, x.path) by { assert all[0] == y && all[|a|] == x; }
      hide PrefixFree, Insert, Comparable;
      assert forall s | s in a[1..] + [x] + b :: s in all;
      MoveToFront(tree1, a[1..], x, b);
      assert ([x] + a[1..] + b)[1..] == a[1..] + b;
      InsertCommutes(tree, y.path, y.value, x.path, x.value);
      assert ([x] + a + b)[1..] == a + b && (a + b)[0] == y && (a + b)[1..] == a[1..] + b;
    }
  }

  lemma {:induction false} WithoutOne(ss: seq<Setting>, i: nat)
    requires PrefixFree(ss) && i < |ss|
    ensures PrefixFree(ss[..i] + ss[i + 1..])
  {
    var r := ss[..i] + ss[i + 1..];
    assert forall j | 0 <= j < |r| :: r[j] == if j < i then ss[j] else ss[j + 1];
    assert forall s | s in r :: s in ss;
  }

  /** The same settings, each as often. */
  ghost predicate Reordered(ss: seq<Setting>, rs: seq<Setting>)
  {
    multiset(ss) == multiset(rs)
  }

  lemma {:induction false} RemoveOne(ss: seq<Setting>, rs: seq<Setting>, i: nat)
    requires Reordered(ss, rs) && rs != [] && i < |ss| && ss[i] == rs[0]
    ensures Reordered(Rest(ss, i), rs[1..]) && |Rest(ss, i)| < |ss|
  {
    var a, b := ss[..i], ss[i + 1..];
    assert ss == a + [rs[0]] + b;
    assert rs == [rs[0]] + rs[1..];
    assert multiset(a + b) == multiset(a) + multiset(b);
    assert multiset(ss) == multiset(a) + multiset{rs[0]} + multiset(b);
    assert multiset(rs) == multiset{rs[0]} + multiset(rs[1..]);
    assert multiset(a + b) == multiset(ss) - multiset{rs[0]};
    assert multiset(rs[1..]) == multiset(rs) - multiset{rs[0]};
  }

  lemma {:induction false} SamePaths(ss: seq<Setting>, rs: seq<Setting>)
    requires Reordered(ss, rs) && PrefixFree(ss)
    ensures |ss| == |rs| && forall s | s in rs :: s in ss && s.path != []
  {
    assert |ss| == |multiset(ss)| == |multiset(rs)| == |rs|;
    forall s | s in rs ensures s in ss { assert s in multiset(rs); }
  }

  lemma {:induction false} BuildFirst(tree: Json, x: Setting, rest: seq<Setting>)
    requires forall s | s in [x] + rest :: s.path != []
    ensures x.path != [] && (forall s | s in rest :: s.path != [])
    ensures Build(tree, [x] + rest) ==
            match Insert(tree, x.path, x.value) case Placed(tree') => Build(tree', rest) case other => other
  {
    hide Insert;
    assert forall s | s in rest :: s in [x] + rest;
    assert x in [x] + rest && ([x] + rest)[1..] == rest;
  }

  function Rest(ss: seq<Setting>, i: nat): seq<Setting>
    requires i < |ss|
  {
    ss[..i] + ss[i + 1..]
  }

  /** Any one of prefix-free settings may come first. */
  lemma {:induction false} TakeOut(tree: Json, ss: seq<Setting>, i: nat)
    requires PrefixFree(ss) && Build(tree, ss).Placed? && i < |ss|
    ensures PrefixFree(Rest(ss, i)) && (forall s | s in Rest(ss, i) :: s.path != []) && ss[i].path != []
    ensures Insert(tree, ss[i].path, ss[i].value).Placed?
    ensures Build(Insert(tree, ss[i].path, ss[i].value).tree, Rest(ss, i)) == Build(tree, ss)
  {
    var a, x, b := ss[..i], ss[i], ss[i + 1..];
    assert ss == a + [x] + b;
    WithoutOne(ss, i);
    assert Rest(ss, i) == a + b && [x] + a + b == [x] + (a + b);
    assert x in ss && forall s | s in a + b :: s in ss;
    hide PrefixFree, Insert, Build, Rest;
    MoveToFront(tree, a, x, b);
    BuildFirst(tree, x, a + b);
  }

  /** The order of prefix-free settings does not matter. */
  lemma {:induction false} BuildAnyOrder(tree: Json, ss: seq<Setting>, rs: seq<Setting>)
    requires Reordered(ss, rs) && PrefixFree(ss)
    requires Build(tree, ss).Placed?
    ensures (forall s | s in rs :: s.path != []) && Build(tree, rs) == Build(tree, ss)
    decreases |ss|
  {
    SamePaths(ss, rs);
    hide Reordered, PrefixFree, Insert, Rest;
    if rs != [] {
      var x := rs[0];
      assert x in rs;
      var i :| 0 <= i < |ss| && ss[i] == x;
      RemoveOne(ss, rs, i);
      TakeOut(tree, ss, i);
      BuildAnyOrder(Insert(tree, x.path, x.value).tree, Rest(ss, i), rs[1..]);
    }
  }

  lemma {:induction false} FilledBlocks(tree: Json, settings: seq<Setting>, p: Path)
    requires forall s | s in settings :: s.path != []
    requires Lookup(tree, p).Some? && !Lookup(tree, p).value.Null?
    requires exists i | 0 <= i < |settings| :: settings[i].path == p
    ensures !Build(tree, settings).Placed?
    decreases |settings|
  {
    var s := settings[0];
    InsertPlacesIffFree(tree, s.path, s.value);
    if s.path != p && Insert(tree, s.path, s.value).Placed? {
      InsertKeepsFilled(tree, s.path, s.value, p);
      var i :| 0 <= i < |settings| && settings[i].path == p;
      assert settings[1..][i - 1].path == p;
      FilledBlocks(Insert(tree, s.path, s.value).tree, settings[1..], p);
    }
  }

  /** A parameter given twice is rejected, whatever else is given, if its first value is not null. */
  lemma {:induction false} RepeatedKeyRejected(tree: Json, settings: seq<Setting>, i: nat, j: nat)
    requires forall s | s in settings :: s.path != []
    requires i < j < |settings| && settings[i].path == settings[j].path && !settings[i].value.Null?
    ensures !Build(tree, settings).Placed?
    decreases |settings|
  {
    var s := settings[0];
    if Insert(tree, s.path, s.value).Placed? {
      var tree' := Insert(tree, s.path, s.value).tree;
      var rest := settings[1..];
      assert forall k | 0 <= k < |rest| :: rest[k] == settings[k + 1];
      if i == 0 {
        InsertLookup(tree, s.path, s.value, s.path);
        assert s.path[|s.path|..] == [];
        assert rest[j - 1].path == s.path;
        FilledBlocks(tree', rest, s.path);
      } else {
        RepeatedKeyRejected(tree', rest, i - 1, j - 1);
      }
    }
  }
}
