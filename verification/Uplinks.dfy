/**
  The uplink relation between entities, seen by name.

  An entity names at most one uplink, so following uplinks from a name is a
  walk.  The lifecycle protocol, the uplink expansion and the routing all need
  such walks to end.
 */
module Uplinks {

  type Name = string

  datatype Option<+T> = None | Some(value: T)

  /** What the lifecycle needs to know of an entity: its uplink and how many components it has. */
  datatype Entity = Entity(uplink: Option<Name>, components: nat)

  type Topology = map<Name, Entity>

  /** Every uplink that is named exists. */
  ghost predicate Closed(t: Topology)
  {
    forall n | n in t && t[n].uplink.Some? :: t[n].uplink.value in t
  }

  /** The name met after `k` uplinks, if the walk gets that far. */
  ghost function Walk(t: Topology, n: Name, k: nat): Option<Name>
    decreases k
  {
    if n !in t then None
    else if k == 0 then Some(n)
    else if t[n].uplink.None? then None
    else Walk(t, t[n].uplink.value, k - 1)
  }

  ghost predicate ChainEnds(t: Topology, n: Name)
  {
    exists k: nat :: Walk(t, n, k).None?
  }

  ghost predicate AllChainsEnd(t: Topology)
  {
    forall n | n in t :: ChainEnds(t, n)
  }

  type Rank = map<Name, nat>

  /** `rank` drops along every uplink. */
  ghost predicate Ranked(t: Topology, rank: Rank)
  {
    && t.Keys <= rank.Keys
    && forall n | n in t && t[n].uplink.Some? ::
         t[n].uplink.value in t && rank[t[n].uplink.value] < rank[n]
  }

  /** The number of names met before the walk ends, searching from `k` on. */
  ghost function LengthFrom(t: Topology, n: Name, k: nat, bound: nat): (len: nat)
    requires k <= bound && Walk(t, n, bound).None?
    requires forall j: nat | j < k :: Walk(t, n, j).Some?
    ensures Walk(t, n, len).None?
    ensures forall j: nat | j < len :: Walk(t, n, j).Some?
    decreases bound - k
  {
    if Walk(t, n, k).None? then k else LengthFrom(t, n, k + 1, bound)
  }

  ghost function ChainLength(t: Topology, n: Name): (len: nat)
    requires ChainEnds(t, n)
    ensures Walk(t, n, len).None?
    ensures forall j: nat | j < len :: Walk(t, n, j).Some?
  {
    var bound: nat :| Walk(t, n, bound).None?;
    LengthFrom(t, n, 0, bound)
  }

  lemma {:induction false} WalkStep(t: Topology, n: Name, k: nat)
    requires n in t && t[n].uplink.Some?
    ensures Walk(t, n, k + 1) == Walk(t, t[n].uplink.value, k)
  {
  }

  /** Once a walk has ended it stays ended. */
  lemma {:induction false} WalkStaysEnded(t: Topology, n: Name, j: nat, k: nat)
    requires j <= k && Walk(t, n, j).None?
    ensures Walk(t, n, k).None?
    decreases j
  {
    if n in t && j > 0 && t[n].uplink.Some? {
      WalkStaysEnded(t, t[n].uplink.value, j - 1, k - 1);
    }
  }

  lemma {:induction false} RankBoundsWalk(t: Topology, rank: Rank, n: Name)
    requires Ranked(t, rank) && n in t
    ensures Walk(t, n, rank[n] + 1).None?
    decreases rank[n]
  {
    if t[n].uplink.Some? {
      var u := t[n].uplink.value;
      RankBoundsWalk(t, rank, u);
      WalkStaysEnded(t, u, rank[u] + 1, rank[n]);
    }
  }

  ghost function RankOf(t: Topology): (rank: Rank)
    requires AllChainsEnd(t)
  {
    map n | n in t :: ChainLength(t, n)
  }

  /** A rank exists exactly when every chain ends. */
  lemma {:induction false} RankedIffAllChainsEnd(t: Topology)
    requires Closed(t)
    ensures (exists rank: Rank :: Ranked(t, rank)) <==> AllChainsEnd(t)
    ensures AllChainsEnd(t) ==> Ranked(t, RankOf(t))
  {
    if rank: Rank :| Ranked(t, rank) {
      forall n | n in t ensures ChainEnds(t, n) {
        RankBoundsWalk(t, rank, n);
      }
    }
    if AllChainsEnd(t) {
      var rank := RankOf(t);
      forall n | n in t && t[n].uplink.Some?
        ensures t[n].uplink.value in t && rank[t[n].uplink.value] < rank[n]
      {
        var u := t[n].uplink.value;
        var len := ChainLength(t, n);
        assert len > 0;
        WalkStep(t, n, len - 1);
        assert ChainEnds(t, u);
        assert !(len - 1 < ChainLength(t, u));
      }
      assert Ranked(t, rank);
    }
  }

  /** `to` is met by walking one or more uplinks from `from`. */
  ghost predicate Above(t: Topology, from: Name, to: Name)
  {
    exists k: nat :: k > 0 && Walk(t, from, k) == Some(to)
  }

  lemma {:induction false} WalkConcat(t: Topology, a: Name, j: nat, b: Name, k: nat)
    requires Walk(t, a, j) == Some(b)
    ensures Walk(t, a, j + k) == Walk(t, b, k)
    decreases j
  {
    if j > 0 {
      WalkConcat(t, t[a].uplink.value, j - 1, b, k);
    }
  }

  lemma {:induction false} WalkDropsRank(t: Topology, rank: Rank, a: Name, k: nat)
    requires Ranked(t, rank) && Walk(t, a, k).Some?
    ensures a in t && Walk(t, a, k).value in t
    ensures rank[Walk(t, a, k).value] + k <= rank[a]
    decreases k
  {
    if k > 0 {
      WalkDropsRank(t, rank, t[a].uplink.value, k - 1);
    }
  }
}
