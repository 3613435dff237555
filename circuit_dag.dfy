/**
 * The gate dependency graph of the circuit editor. Each placed gate lists
 * its parents (the nearest earlier gate on each of its qubits) and its
 * children, by id. Inserting a gate splices it between the nearest earlier
 * and later gates on its qubits; removing one reconnects its children to its
 * parents. Depths are recomputed downwards from the touched gate.
 *
 * The editing functions work on a copy of the gates held in a JavaScript
 * `Map` from id to gate; here that copy is an `OrderedMap`, and a gate held
 * by reference in the source is named by its id (the copy stores each gate
 * under its own id, so the two coincide).
 *
 * The recursive depth recalculation carries a `fuel` bound on its recursion
 * depth, where the source recurses without one. A path in an acyclic graph
 * of n gates has fewer than n edges, so a fuel of n follows every path:
 * `RankIsEnough` and `GateCountIsEnough` state this through a rank that drops
 * along child edges.
 */
module CircuitDag {
  import opened Wrappers
  import opened JsMap
  import opened Gates

  type GatesMap = OrderedMap<string, Gate>

  /** The map is well formed and stores every gate under its own id. */
  ghost predicate Keyed(m: GatesMap) {
    m.Valid() && forall k <- m.entries :: m.entries[k].id == k
  }

  /** The ids of a list of gates, in order. */
  function Ids(gates: seq<Gate>): (r: seq<string>)
    ensures |r| == |gates| && forall i | 0 <= i < |gates| :: r[i] == gates[i].id
  {
    seq(|gates|, i requires 0 <= i < |gates| => gates[i].id)
  }

  /** `createGatesMap`: the gates keyed by id; a repeated id keeps its first place and its last gate. */
  function GatesMapOf(gates: seq<Gate>): (m: GatesMap)
    ensures Keyed(m)
    ensures forall k :: k in m.entries <==> k in Ids(gates)
    decreases |gates|
  {
    if gates == [] then Empty()
    else
      var g := gates[|gates| - 1];
      var prefix := gates[..|gates| - 1];
      assert Ids(gates) == Ids(prefix) + [g.id];
      GatesMapOf(prefix).Set(g.id, g)
  }

  /** With distinct ids, the map lists the gates in their original order. */
  lemma {:induction false} GatesMapOfOrder(gates: seq<Gate>)
    requires Distinct(Ids(gates))
    ensures GatesMapOf(gates).keys == Ids(gates)
    ensures GatesMapOf(gates).Values() == gates
    decreases |gates|
  {
    if gates != [] {
      var prefix := gates[..|gates| - 1];
      assert Ids(gates) == Ids(prefix) + [gates[|gates| - 1].id];
      GatesMapOfOrder(prefix);
      assert gates[|gates| - 1].id !in Ids(prefix);
      var m := GatesMapOf(gates);
      forall i | 0 <= i < |gates|
        ensures m.entries[m.keys[i]] == gates[i]
      {
        if i < |gates| - 1 {
          assert GatesMapOf(prefix).Values()[i] == prefix[i];
        }
      }
    }
  }

  /** Every stored gate is one of the input gates. */
  lemma {:induction false} GatesMapOfValues(gates: seq<Gate>)
    ensures forall k <- GatesMapOf(gates).entries :: GatesMapOf(gates).entries[k] in gates
    decreases |gates|
  {
    if gates != [] {
      var prefix := gates[..|gates| - 1];
      GatesMapOfValues(prefix);
      assert forall x <- prefix :: x in gates;
    }
  }

  // ---------------------------------------------------------------------
  // Depth recalculation
  // ---------------------------------------------------------------------

  /** `Math.max(-1, ...parentDepths)`, where a parent missing from the map counts as -1. */
  function MaxParentDepth(parents: seq<string>, m: GatesMap): (d: int)
    ensures d >= -1
    decreases |parents|
  {
    if parents == [] then -1
    else
      var p := parents[|parents| - 1];
      var rest := MaxParentDepth(parents[..|parents| - 1], m);
      var here := if p in m.entries then m.entries[p].depth else -1;
      if here > rest then here else rest
  }

  /** The result is the greatest depth among the parents found, or -1 when none is deeper. */
  lemma {:induction false} MaxParentDepthMeaning(parents: seq<string>, m: GatesMap)
    ensures forall p <- parents | p in m.entries :: m.entries[p].depth <= MaxParentDepth(parents, m)
    ensures var d := MaxParentDepth(parents, m);
            d == -1 || exists p <- parents :: p in m.entries && m.entries[p].depth == d
    decreases |parents|
  {
    if parents != [] {
      var prefix := parents[..|parents| - 1];
      MaxParentDepthMeaning(prefix, m);
      assert forall x <- parents :: x == parents[|parents| - 1] || x in prefix;
    }
  }

  /** `b` is `a` at some depth. */
  predicate SameButDepth(a: Gate, b: Gate) {
    b == a.(depth := b.depth)
  }

  /** `r` differs from `m` at most in gate depths. */
  predicate DepthsOnly(m: GatesMap, r: GatesMap) {
    && r.keys == m.keys
    && r.entries.Keys == m.entries.Keys
    && forall k <- m.entries :: SameButDepth(m.entries[k], r.entries[k])
  }

  /** The map with gate `id` placed one deeper than its deepest parent. */
  function Relevel(m: GatesMap, id: string): (r: GatesMap)
    requires m.Valid() && id in m.entries
    ensures r.Valid() && r.keys == m.keys && r.entries.Keys == m.entries.Keys
    ensures r.entries[id].depth == MaxParentDepth(m.entries[id].parents, m) + 1
    ensures forall k <- m.entries | k != id :: r.entries[k] == m.entries[k]
  {
    var gate := m.entries[id];
    m.Set(id, gate.(depth := MaxParentDepth(gate.parents, m) + 1))
  }

  /**
   * `recalculateDepth`: the gate's depth becomes one more than its deepest
   * parent's, then each child is recalculated in turn. With no fuel left the
   * children are not visited.
   */
  function Recalc(m: GatesMap, id: string, fuel: nat): (r: GatesMap)
    requires m.Valid()
    ensures r.Valid() && r.keys == m.keys && r.entries.Keys == m.entries.Keys
    decreases fuel, 0
  {
    if id !in m.entries then m
    else if fuel == 0 then Relevel(m, id)
    else RecalcAll(Relevel(m, id), m.entries[id].children, fuel - 1)
  }

  /** Recalculating each of `ids` in order. */
  function RecalcAll(m: GatesMap, ids: seq<string>, fuel: nat): (r: GatesMap)
    requires m.Valid()
    ensures r.Valid() && r.keys == m.keys && r.entries.Keys == m.entries.Keys
    decreases fuel, |ids| + 1
  {
    if ids == [] then m
    else Recalc(RecalcAll(m, ids[..|ids| - 1], fuel), ids[|ids| - 1], fuel)
  }

  lemma RelevelDepthsOnly(m: GatesMap, id: string)
    requires m.Valid() && id in m.entries
    ensures DepthsOnly(m, Relevel(m, id))
  {
    var r := Relevel(m, id);
    assert SameButDepth(m.entries[id], r.entries[id]);
  }

  lemma DepthsOnlyRefl(m: GatesMap)
    ensures DepthsOnly(m, m)
  {
    forall k <- m.entries
      ensures m.entries[k] == m.entries[k].(depth := m.entries[k].depth)
    {
      var g := m.entries[k];
      assert g.(depth := g.depth) == g;
    }
  }

  lemma DepthsOnlyTrans(a: GatesMap, b: GatesMap, c: GatesMap)
    requires DepthsOnly(a, b) && DepthsOnly(b, c)
    ensures DepthsOnly(a, c)
  {
  }

  /** Recalculation changes gate depths and nothing else. */
  lemma {:induction false} RecalcDepthsOnly(m: GatesMap, id: string, fuel: nat)
    requires m.Valid()
    ensures DepthsOnly(m, Recalc(m, id, fuel))
    decreases fuel, 1
  {
    if id !in m.entries {
      RecalcAbsent(m, id, fuel);
      DepthsOnlyRefl(m);
    } else if fuel > 0 {
      RecalcThroughDepthsOnly(m, id, fuel);
    }
  }

  lemma RecalcAbsent(m: GatesMap, id: string, fuel: nat)
    requires m.Valid() && id !in m.entries
    ensures Recalc(m, id, fuel) == m
  {
  }

  lemma {:induction false} RecalcThroughDepthsOnly(m: GatesMap, id: string, fuel: nat)
    requires m.Valid() && id in m.entries && fuel > 0
    ensures DepthsOnly(m, Recalc(m, id, fuel))
    decreases fuel, 0
  {
    var m1 := Relevel(m, id);
    var r := RecalcAll(m1, m.entries[id].children, fuel - 1);
    assert Recalc(m, id, fuel) == r;
    RelevelDepthsOnly(m, id);
    RecalcAllDepthsOnly(m1, m.entries[id].children, fuel - 1, r);
    DepthsOnlyTrans(m, m1, r);
  }

  /** `r` is what recalculating each of `ids` in order leaves of `m`. */
  predicate IsRecalcAll(m: GatesMap, ids: seq<string>, fuel: nat, r: GatesMap)
    requires m.Valid()
  {
    r == RecalcAll(m, ids, fuel)
  }

  lemma {:induction false} RecalcAllDepthsOnly(m: GatesMap, ids: seq<string>, fuel: nat, r: GatesMap)
    requires m.Valid() && IsRecalcAll(m, ids, fuel, r)
    ensures DepthsOnly(m, r)
    decreases fuel, |ids| + 1
  {
    if ids == [] {
      DepthsOnlyRefl(m);
    } else {
      var prefix := ids[..|ids| - 1];
      var m1 := RecalcAll(m, prefix, fuel);
      assert r == Recalc(m1, ids[|ids| - 1], fuel);
      RecalcAllDepthsOnly(m, prefix, fuel, m1);
      RecalcDepthsOnly(m1, ids[|ids| - 1], fuel);
      DepthsOnlyTrans(m, m1, r);
    }
  }

  /** The children lists of the map, which recalculation leaves alone. */
  function Edges(m: GatesMap): map<string, seq<string>> {
    map k | k in m.entries :: m.entries[k].children
  }

  lemma DepthsOnlyEdges(m: GatesMap, r: GatesMap)
    requires DepthsOnly(m, r)
    ensures Edges(r) == Edges(m)
  {
  }

  /** The ids recalculation may visit from `id` with `fuel` levels of recursion left. */
  function Reached(e: map<string, seq<string>>, id: string, fuel: nat): set<string>
    decreases fuel, 0
  {
    if id !in e then {}
    else if fuel == 0 then {id}
    else {id} + ReachedAll(e, e[id], fuel - 1)
  }

  function ReachedAll(e: map<string, seq<string>>, ids: seq<string>, fuel: nat): set<string>
    decreases fuel, |ids| + 1
  {
    if ids == [] then {}
    else ReachedAll(e, ids[..|ids| - 1], fuel) + Reached(e, ids[|ids| - 1], fuel)
  }

  /** Recalculation changes no gate it cannot reach through child edges. */
  lemma {:induction false} RecalcFrame(m: GatesMap, id: string, fuel: nat, k: string)
    requires m.Valid() && k in m.entries && k !in Reached(Edges(m), id, fuel)
    ensures Recalc(m, id, fuel).entries[k] == m.entries[k]
    decreases fuel, 0
  {
    if id in m.entries && fuel > 0 {
      var gate := m.entries[id];
      var m1 := Relevel(m, id);
      DepthsOnlyEdges(m, m1);
      assert Edges(m)[id] == gate.children;
      RecalcAllFrame(m1, gate.children, fuel - 1, k);
    }
  }

  lemma {:induction false} RecalcAllFrame(m: GatesMap, ids: seq<string>, fuel: nat, k: string)
    requires m.Valid() && k in m.entries && k !in ReachedAll(Edges(m), ids, fuel)
    ensures RecalcAll(m, ids, fuel).entries[k] == m.entries[k]
    decreases fuel, |ids| + 1
  {
    if ids != [] {
      var prefix := ids[..|ids| - 1];
      RecalcAllFrame(m, prefix, fuel, k);
      var m1 := RecalcAll(m, prefix, fuel);
      RecalcAllDepthsOnly(m, prefix, fuel, m1);
      DepthsOnlyEdges(m, m1);
      RecalcFrame(m1, ids[|ids| - 1], fuel, k);
    }
  }

  /** The deepest parent depends only on the parents' own depths. */
  lemma {:induction false} MaxParentDepthAgree(parents: seq<string>, m: GatesMap, r: GatesMap)
    requires forall p <- parents :: (p in m.entries <==> p in r.entries) && (p in m.entries ==> m.entries[p].depth == r.entries[p].depth)
    ensures MaxParentDepth(parents, r) == MaxParentDepth(parents, m)
    decreases |parents|
  {
    if parents != [] {
      MaxParentDepthAgree(parents[..|parents| - 1], m, r);
    }
  }

  /** A gate its children cannot reach keeps the depth `Relevel` gave it. */
  lemma {:induction false} RecalcKeepsRoot(m: GatesMap, id: string, fuel: nat)
    requires m.Valid() && id in m.entries && fuel > 0
    requires id !in ReachedAll(Edges(m), m.entries[id].children, fuel - 1)
    ensures Recalc(m, id, fuel).entries[id] == Relevel(m, id).entries[id]
  {
    var m1 := Relevel(m, id);
    DepthsOnlyEdges(m, m1);
    RecalcAllFrame(m1, m.entries[id].children, fuel - 1, id);
  }

  /**
   * When neither the gate nor any of its parents can be reached from its
   * children (as in an acyclic graph), recalculation leaves the gate exactly
   * one deeper than its deepest parent, or at depth 0 without parents.
   */
  lemma {:induction false} RecalcSetsDepth(m: GatesMap, id: string, fuel: nat)
    requires m.Valid() && id in m.entries && id !in m.entries[id].parents
    requires fuel > 0 ==> forall k | k == id || k in m.entries[id].parents ::
               k !in ReachedAll(Edges(m), m.entries[id].children, fuel - 1)
    ensures var r := Recalc(m, id, fuel);
            r.entries[id].depth == MaxParentDepth(r.entries[id].parents, r) + 1
    ensures m.entries[id].parents == [] ==> Recalc(m, id, fuel).entries[id].depth == 0
  {
    var gate := m.entries[id];
    var r := Recalc(m, id, fuel);
    if fuel > 0 {
      RecalcKeepsRoot(m, id, fuel);
      forall p <- gate.parents | p in m.entries
        ensures r.entries[p] == m.entries[p]
      {
        RecalcFrame(m, id, fuel, p);
      }
    }
    MaxParentDepthAgree(gate.parents, m, r);
  }

  // ---------------------------------------------------------------------
  // Depth recalculation below the root
  // ---------------------------------------------------------------------

  /** Every stored parent a gate lists names that gate among its children. */
  ghost predicate ParentsLinked(m: GatesMap) {
    forall k <- m.entries, p <- m.entries[k].parents | p in m.entries :: k in m.entries[p].children
  }

  /**
   * The graph is acyclic, witnessed by a rank that drops along every child
   * edge between stored gates. An acyclic graph of n gates can always be
   * ranked below n, by the length of the longest path from each gate.
   */
  ghost predicate RankedBy(m: GatesMap, rank: map<string, nat>) {
    && m.entries.Keys <= rank.Keys
    && forall p <- m.entries, c <- m.entries[p].children | c in m.entries :: rank[c] < rank[p]
  }

  /** `fuel` lets recalculation from `id` follow every child edge between stored gates. */
  ghost predicate Enough(e: map<string, seq<string>>, id: string, fuel: nat)
    decreases fuel
  {
    id !in e || forall c <- e[id] | c in e :: fuel > 0 && Enough(e, c, fuel - 1)
  }

  /** Gate `k` sits one deeper than its deepest parent. */
  ghost predicate Levelled(m: GatesMap, k: string) {
    k in m.entries && m.entries[k].depth == MaxParentDepth(m.entries[k].parents, m) + 1
  }

  /** On a ranked map, a fuel of at least the root's rank is enough. */
  lemma {:induction false} RankIsEnough(m: GatesMap, rank: map<string, nat>, id: string, fuel: nat)
    requires RankedBy(m, rank) && (id in m.entries ==> rank[id] <= fuel)
    ensures Enough(Edges(m), id, fuel)
    decreases fuel
  {
    if id in m.entries {
      var e := Edges(m);
      assert e[id] == m.entries[id].children;
      forall c <- e[id] | c in e
        ensures fuel > 0 && Enough(e, c, fuel - 1)
      {
        RankIsEnough(m, rank, c, fuel - 1);
      }
    }
  }

  /** On a map ranked below its number of gates, that number is enough fuel from any gate. */
  lemma GateCountIsEnough(m: GatesMap, rank: map<string, nat>, id: string)
    requires RankedBy(m, rank) && forall k <- m.entries :: rank[k] < |m.entries|
    ensures Enough(Edges(m), id, |m.entries|)
  {
    RankIsEnough(m, rank, id, |m.entries|);
  }

  lemma {:induction false} ReachedAllHas(e: map<string, seq<string>>, ids: seq<string>, fuel: nat, c: string, k: string)
    requires c in ids && k in Reached(e, c, fuel)
    ensures k in ReachedAll(e, ids, fuel)
    decreases |ids|
  {
    var prefix := ids[..|ids| - 1];
    if c != ids[|ids| - 1] {
      assert c in prefix;
      ReachedAllHas(e, prefix, fuel, c, k);
    }
  }

  lemma {:induction false} ReachedAllFrom(e: map<string, seq<string>>, ids: seq<string>, fuel: nat, k: string) returns (c: string)
    requires k in ReachedAll(e, ids, fuel)
    ensures c in ids && k in Reached(e, c, fuel)
    decreases |ids|
  {
    assert ids != [];
    var prefix := ids[..|ids| - 1];
    if k in Reached(e, ids[|ids| - 1], fuel) {
      c := ids[|ids| - 1];
    } else {
      c := ReachedAllFrom(e, prefix, fuel, k);
    }
  }

  /**
   * With enough fuel the gates recalculation visits are closed under child
   * edges, so it visits every descendant of the root.
   */
  lemma {:induction false} ReachedClosed(e: map<string, seq<string>>, id: string, fuel: nat, p: string, k: string)
    requires Enough(e, id, fuel) && p in Reached(e, id, fuel) && p in e && k in e[p] && k in e
    ensures k in Reached(e, id, fuel)
    decreases fuel
  {
    if p == id {
      assert fuel > 0;
      ReachedAllHas(e, e[id], fuel - 1, k, k);
    } else {
      var c := ReachedAllFrom(e, e[id], fuel - 1, p);
      ReachedClosed(e, c, fuel - 1, p, k);
      ReachedAllHas(e, e[id], fuel - 1, c, k);
    }
  }

  /** Every gate reached from `id` ranks no higher than `id`. */
  lemma {:induction false} ReachedRanks(m: GatesMap, rank: map<string, nat>, id: string, fuel: nat, k: string)
    requires RankedBy(m, rank) && k in Reached(Edges(m), id, fuel)
    ensures id in m.entries && k in m.entries && rank[k] <= rank[id]
    decreases fuel
  {
    if k != id {
      var e := Edges(m);
      var c := ReachedAllFrom(e, e[id], fuel - 1, k);
      ReachedRanks(m, rank, c, fuel - 1, k);
    }
  }

  /** Nothing reachable from a gate's children ranks as high as the gate. */
  lemma ChildrenReachLower(m: GatesMap, rank: map<string, nat>, id: string, fuel: nat, k: string)
    requires RankedBy(m, rank) && id in m.entries && k in ReachedAll(Edges(m), m.entries[id].children, fuel)
    ensures k in m.entries && rank[k] < rank[id]
  {
    var c := ReachedAllFrom(Edges(m), m.entries[id].children, fuel, k);
    ReachedRanks(m, rank, c, fuel, k);
  }

  lemma DepthsOnlyKeepsLinks(m: GatesMap, r: GatesMap, rank: map<string, nat>)
    requires DepthsOnly(m, r) && ParentsLinked(m) && RankedBy(m, rank)
    ensures ParentsLinked(r) && RankedBy(r, rank) && Edges(r) == Edges(m)
  {
  }

  /**
   * On a linked, acyclic map with enough fuel, every gate recalculation
   * visits from `id` ends one deeper than its deepest parent.
   */
  lemma {:induction false} RecalcLevels(m: GatesMap, rank: map<string, nat>, id: string, fuel: nat)
    requires m.Valid() && ParentsLinked(m) && RankedBy(m, rank) && Enough(Edges(m), id, fuel)
    ensures forall k <- Reached(Edges(m), id, fuel) :: Levelled(Recalc(m, id, fuel), k)
    decreases fuel, 0
  {
    if id in m.entries {
      var gate := m.entries[id];
      var m1 := Relevel(m, id);
      var r := Recalc(m, id, fuel);
      RelevelDepthsOnly(m, id);
      DepthsOnlyKeepsLinks(m, m1, rank);
      forall p <- gate.parents | p in m.entries
        ensures rank[id] < rank[p]
      {
        assert id in m.entries[p].children;
      }
      if fuel == 0 {
        MaxParentDepthAgree(gate.parents, m, r);
      } else {
        var e := Edges(m);
        assert e[id] == gate.children;
        forall c <- gate.children
          ensures Enough(Edges(m1), c, fuel - 1)
        {
        }
        RecalcAllLevels(m1, rank, gate.children, fuel - 1);
        forall k | k in m.entries && (k == id || k in gate.parents)
          ensures k !in ReachedAll(Edges(m1), gate.children, fuel - 1)
          ensures r.entries[k] == m1.entries[k]
        {
          if k in ReachedAll(Edges(m1), gate.children, fuel - 1) {
            ChildrenReachLower(m, rank, id, fuel - 1, k);
          }
          RecalcAllFrame(m1, gate.children, fuel - 1, k);
        }
        MaxParentDepthAgree(gate.parents, m, r);
      }
    }
  }

  lemma {:induction false} RecalcAllLevels(m: GatesMap, rank: map<string, nat>, ids: seq<string>, fuel: nat)
    requires m.Valid() && ParentsLinked(m) && RankedBy(m, rank)
    requires forall c <- ids :: Enough(Edges(m), c, fuel)
    ensures forall k <- ReachedAll(Edges(m), ids, fuel) :: Levelled(RecalcAll(m, ids, fuel), k)
    decreases fuel, |ids| + 1
  {
    if ids != [] {
      var prefix := ids[..|ids| - 1];
      var last := ids[|ids| - 1];
      var m1 := RecalcAll(m, prefix, fuel);
      var r := Recalc(m1, last, fuel);
      var e := Edges(m);
      RecalcAllLevels(m, rank, prefix, fuel);
      RecalcAllDepthsOnly(m, prefix, fuel, m1);
      DepthsOnlyKeepsLinks(m, m1, rank);
      RecalcLevels(m1, rank, last, fuel);
      forall k <- ReachedAll(e, prefix, fuel) | k !in Reached(e, last, fuel)
        ensures Levelled(r, k)
      {
        RecalcFrame(m1, last, fuel, k);
        var ps := m1.entries[k].parents;
        forall p <- ps | p in m1.entries
          ensures r.entries[p] == m1.entries[p]
        {
          if p in Reached(e, last, fuel) {
            assert k in e[p];
            ReachedClosed(e, last, fuel, p, k);
          }
          RecalcFrame(m1, last, fuel, p);
        }
        MaxParentDepthAgree(ps, m1, r);
      }
    }
  }

  /**
   * Recalculating from a gate of a linked map ranked by `rank`, with fuel at
   * least the gate's rank, visits the gate and every descendant, leaves each
   * of them one deeper than its deepest parent, and changes no other gate.
   */
  lemma RecalcFromRank(m: GatesMap, rank: map<string, nat>, id: string, fuel: nat)
    requires m.Valid() && ParentsLinked(m) && RankedBy(m, rank) && id in m.entries && rank[id] <= fuel
    ensures var s := Reached(Edges(m), id, fuel);
            && id in s && s <= m.entries.Keys
            && (forall p <- s, k <- m.entries[p].children | k in m.entries :: k in s)
            && (forall k <- s :: Levelled(Recalc(m, id, fuel), k))
            && (forall k <- m.entries | k !in s :: Recalc(m, id, fuel).entries[k] == m.entries[k])
  {
    var e := Edges(m);
    var s := Reached(e, id, fuel);
    RankIsEnough(m, rank, id, fuel);
    RecalcLevels(m, rank, id, fuel);
    forall p <- s
      ensures p in m.entries
    {
      ReachedRanks(m, rank, id, fuel, p);
    }
    forall p <- s, k <- m.entries[p].children | k in m.entries
      ensures k in s
    {
      ReachedRanks(m, rank, id, fuel, p);
      ReachedClosed(e, id, fuel, p, k);
    }
    forall k <- m.entries | k !in s
      ensures Recalc(m, id, fuel).entries[k] == m.entries[k]
    {
      RecalcFrame(m, id, fuel, k);
    }
  }

  // ---------------------------------------------------------------------
  // Inserting a gate
  // ---------------------------------------------------------------------

  /** The elements of `s`, in order, that also occur in `t`. */
  function KeepIn(s: seq<int>, t: seq<int>): (r: seq<int>)
    ensures forall q :: q in r <==> q in s && q in t
    decreases |s|
  {
    if s == [] then []
    else
      var prefix := s[..|s| - 1];
      assert forall x <- s :: x == s[|s| - 1] || x in prefix;
      KeepIn(prefix, t) + (if s[|s| - 1] in t then [s[|s| - 1]] else [])
  }

  /** The qubits of `gate`, in its order, that `g` also touches. */
  function SharedQubits(gate: Gate, g: Gate): (r: seq<int>)
    ensures forall q :: q in r <==> q in InvolvedQubits(gate) && q in InvolvedQubits(g)
  {
    KeepIn(InvolvedQubits(gate), InvolvedQubits(g))
  }

  /** How a qubit's recorded gate is replaced by a new candidate. */
  datatype Policy = Deepest | Shallowest | LastSeen

  predicate Replaces(policy: Policy, gate: Gate, current: Gate) {
    match policy
    case Deepest => gate.depth > current.depth
    case Shallowest => gate.depth < current.depth
    case LastSeen => true
  }

  /** A JavaScript `Map` from qubit to gate. */
  type QubitMap = OrderedMap<int, Gate>

  /** Records `gate` for each of `qs` that has no gate yet or whose gate it replaces under `policy`. */
  function Pick(qm: QubitMap, gate: Gate, qs: seq<int>, policy: Policy): (r: QubitMap)
    requires qm.Valid()
    ensures r.Valid()
    decreases |qs|
  {
    if qs == [] then qm
    else
      var q := qs[|qs| - 1];
      var r1 := Pick(qm, gate, qs[..|qs| - 1], policy);
      if q !in r1.entries || Replaces(policy, gate, r1.entries[q]) then r1.Set(q, gate) else r1
  }

  /**
   * After `Pick`, a listed qubit holds `gate` when it had no gate or `gate`
   * replaces the one it had; every other qubit keeps what it had.
   */
  lemma {:induction false} PickAt(qm: QubitMap, gate: Gate, qs: seq<int>, policy: Policy, q: int)
    requires qm.Valid()
    ensures var r := Pick(qm, gate, qs, policy);
            && (q in r.entries <==> q in qm.entries || q in qs)
            && (q in r.entries ==>
                  r.entries[q] == if q in qs && (q !in qm.entries || Replaces(policy, gate, qm.entries[q])) then gate else qm.entries[q])
    decreases |qs|
  {
    if qs != [] {
      var prefix := qs[..|qs| - 1];
      PickAt(qm, gate, prefix, policy, q);
      assert q in qs <==> q == qs[|qs| - 1] || q in prefix by {
        assert qs == prefix + [qs[|qs| - 1]];
      }
    }
  }

  /** The two tables `injectGate` fills: per shared qubit, the nearest gate before and after the new one. */
  datatype Nearest = Nearest(parents: QubitMap, children: QubitMap)

  /**
   * The scan over the existing gates: a gate sharing qubits with `g` is a
   * parent candidate when it is shallower than `g`, otherwise a child
   * candidate.
   */
  function Scan(vals: seq<Gate>, g: Gate): (r: Nearest)
    ensures r.parents.Valid() && r.children.Valid()
    decreases |vals|
  {
    if vals == [] then Nearest(Empty(), Empty())
    else
      var prev := Scan(vals[..|vals| - 1], g);
      var gate := vals[|vals| - 1];
      var shared := SharedQubits(gate, g);
      if shared == [] then prev
      else if gate.depth < g.depth then prev.(parents := Pick(prev.parents, gate, shared, Deepest))
      else prev.(children := Pick(prev.children, gate, shared, Shallowest))
  }

  /** `gate` could precede `g` on qubit `q`. */
  predicate Before(gate: Gate, g: Gate, q: int) {
    gate.depth < g.depth && q in InvolvedQubits(gate)
  }

  /** `gate` could follow `g` on qubit `q`. */
  predicate After(gate: Gate, g: Gate, q: int) {
    gate.depth >= g.depth && q in InvolvedQubits(gate)
  }

  /**
   * The parent recorded for a qubit of `g` is the deepest of the gates
   * shallower than `g` on that qubit, and there is one exactly when such a
   * gate exists.
   */
  lemma {:induction false} ScanFindsNearestParent(vals: seq<Gate>, g: Gate, q: int)
    ensures var qp := Scan(vals, g).parents;
            && (q in qp.entries <==> q in InvolvedQubits(g) && exists x <- vals :: Before(x, g, q))
            && (q in qp.entries ==>
                  && qp.entries[q] in vals && Before(qp.entries[q], g, q)
                  && forall x <- vals | Before(x, g, q) :: x.depth <= qp.entries[q].depth)
    decreases |vals|
  {
    if vals != [] {
      var prefix := vals[..|vals| - 1];
      var gate := vals[|vals| - 1];
      ScanFindsNearestParent(prefix, g, q);
      assert vals == prefix + [gate];
      var prev := Scan(prefix, g).parents;
      var shared := SharedQubits(gate, g);
      if shared == [] || gate.depth >= g.depth {
        assert Scan(vals, g).parents == prev;
        assert q in InvolvedQubits(g) ==> !Before(gate, g, q);
      } else {
        assert Scan(vals, g).parents == Pick(prev, gate, shared, Deepest);
        PickParentStep(prefix, gate, g, q);
      }
    }
  }

  /** The inductive step of `ScanFindsNearestParent` for a candidate shallower than `g`. */
  lemma {:induction false} PickParentStep(prefix: seq<Gate>, gate: Gate, g: Gate, q: int)
    requires gate.depth < g.depth
    requires var qp := Scan(prefix, g).parents;
             && (q in qp.entries <==> q in InvolvedQubits(g) && exists x <- prefix :: Before(x, g, q))
             && (q in qp.entries ==>
                   && qp.entries[q] in prefix && Before(qp.entries[q], g, q)
                   && forall x <- prefix | Before(x, g, q) :: x.depth <= qp.entries[q].depth)
    ensures var qp := Pick(Scan(prefix, g).parents, gate, SharedQubits(gate, g), Deepest);
            var vals := prefix + [gate];
            && (q in qp.entries <==> q in InvolvedQubits(g) && exists x <- vals :: Before(x, g, q))
            && (q in qp.entries ==>
                  && qp.entries[q] in vals && Before(qp.entries[q], g, q)
                  && forall x <- vals | Before(x, g, q) :: x.depth <= qp.entries[q].depth)
  {
    var prev := Scan(prefix, g).parents;
    var shared := SharedQubits(gate, g);
    var vals := prefix + [gate];
    PickAt(prev, gate, shared, Deepest, q);
    var qp := Pick(prev, gate, shared, Deepest);
    assert q in shared <==> q in InvolvedQubits(g) && Before(gate, g, q);
    assert forall x <- vals :: x in prefix || x == gate;
    if q in qp.entries && q in shared && (q !in prev.entries || gate.depth > prev.entries[q].depth) {
      assert qp.entries[q] == gate;
    } else if q in qp.entries {
      assert qp.entries[q] == prev.entries[q];
    }
  }

  /**
   * The child recorded for a qubit of `g` is the shallowest of the gates at
   * or below `g`'s depth on that qubit, and there is one exactly when such a
   * gate exists.
   */
  lemma {:induction false} ScanFindsNearestChild(vals: seq<Gate>, g: Gate, q: int)
    ensures var qc := Scan(vals, g).children;
            && (q in qc.entries <==> q in InvolvedQubits(g) && exists x <- vals :: After(x, g, q))
            && (q in qc.entries ==>
                  && qc.entries[q] in vals && After(qc.entries[q], g, q)
                  && forall x <- vals | After(x, g, q) :: qc.entries[q].depth <= x.depth)
    decreases |vals|
  {
    if vals != [] {
      var prefix := vals[..|vals| - 1];
      var gate := vals[|vals| - 1];
      ScanFindsNearestChild(prefix, g, q);
      assert vals == prefix + [gate];
      var prev := Scan(prefix, g).children;
      var shared := SharedQubits(gate, g);
      if shared == [] || gate.depth < g.depth {
        assert Scan(vals, g).children == prev;
        assert q in InvolvedQubits(g) ==> !After(gate, g, q);
      } else {
        assert Scan(vals, g).children == Pick(prev, gate, shared, Shallowest);
        PickChildStep(prefix, gate, g, q);
      }
    }
  }

  /** The inductive step of `ScanFindsNearestChild` for a candidate not shallower than `g`. */
  lemma {:induction false} PickChildStep(prefix: seq<Gate>, gate: Gate, g: Gate, q: int)
    requires gate.depth >= g.depth
    requires var qc := Scan(prefix, g).children;
             && (q in qc.entries <==> q in InvolvedQubits(g) && exists x <- prefix :: After(x, g, q))
             && (q in qc.entries ==>
                   && qc.entries[q] in prefix && After(qc.entries[q], g, q)
                   && forall x <- prefix | After(x, g, q) :: qc.entries[q].depth <= x.depth)
    ensures var qc := Pick(Scan(prefix, g).children, gate, SharedQubits(gate, g), Shallowest);
            var vals := prefix + [gate];
            && (q in qc.entries <==> q in InvolvedQubits(g) && exists x <- vals :: After(x, g, q))
            && (q in qc.entries ==>
                  && qc.entries[q] in vals && After(qc.entries[q], g, q)
                  && forall x <- vals | After(x, g, q) :: qc.entries[q].depth <= x.depth)
  {
    var prev := Scan(prefix, g).children;
    var shared := SharedQubits(gate, g);
    var vals := prefix + [gate];
    PickAt(prev, gate, shared, Shallowest, q);
    var qc := Pick(prev, gate, shared, Shallowest);
    assert q in shared <==> q in InvolvedQubits(g) && After(gate, g, q);
    assert forall x <- vals :: x in prefix || x == gate;
    if q in qc.entries && q in shared && (q !in prev.entries || gate.depth < prev.entries[q].depth) {
      assert qc.entries[q] == gate;
    } else if q in qc.entries {
      assert qc.entries[q] == prev.entries[q];
    }
  }

  /** Every listed value of a keyed map is the gate stored under its id. */
  lemma KeyedValues(m: GatesMap)
    requires Keyed(m)
    ensures forall v <- m.Values() :: v.id in m.entries && m.entries[v.id] == v
  {
    var vs := m.Values();
    forall v <- vs
      ensures v.id in m.entries && m.entries[v.id] == v
    {
      var i :| 0 <= i < |vs| && vs[i] == v;
      assert m.keys[i] in m.entries;
    }
  }

  /**
   * `Array.from(new Set(gates), g => g.id)`: the ids of the gates, first
   * occurrences only. The gates come from a map keyed by id, so two of them
   * are the same object exactly when their ids agree.
   */
  function DistinctIds(vs: seq<Gate>): (r: seq<string>)
    ensures Distinct(r)
    ensures forall id :: id in r <==> exists v <- vs :: v.id == id
    decreases |vs|
  {
    if vs == [] then []
    else
      var prev := DistinctIds(vs[..|vs| - 1]);
      var v := vs[|vs| - 1];
      assert forall x <- vs :: x == v || x in vs[..|vs| - 1];
      if v.id in prev then prev else prev + [v.id]
  }

  /** `r` differs from `m` at most in edge lists. */
  predicate EdgesOnly(m: GatesMap, r: GatesMap) {
    && r.keys == m.keys
    && r.entries.Keys == m.entries.Keys
    && forall k <- m.entries :: r.entries[k] == m.entries[k].(parents := r.entries[k].parents, children := r.entries[k].children)
  }

  /** Gate `id` with its children list replaced. */
  function WithChildren(m: GatesMap, id: string, cs: seq<string>): (r: GatesMap)
    requires m.Valid() && id in m.entries
    ensures r.Valid() && EdgesOnly(m, r)
    ensures r.entries[id] == m.entries[id].(children := cs)
    ensures forall k <- m.entries | k != id :: r.entries[k] == m.entries[k]
  {
    m.Set(id, m.entries[id].(children := cs))
  }

  /** Gate `id` with its parents list replaced. */
  function WithParents(m: GatesMap, id: string, ps: seq<string>): (r: GatesMap)
    requires m.Valid() && id in m.entries
    ensures r.Valid() && EdgesOnly(m, r)
    ensures r.entries[id] == m.entries[id].(parents := ps)
    ensures forall k <- m.entries | k != id :: r.entries[k] == m.entries[k]
  {
    m.Set(id, m.entries[id].(parents := ps))
  }

  /** Every element of `a` is in `b`. */
  predicate Within(a: seq<string>, b: seq<string>) {
    forall x <- a :: x in b
  }

  /** `r` differs from `m` at most by edges removed. */
  predicate Shrinks(m: GatesMap, r: GatesMap) {
    && EdgesOnly(m, r)
    && forall k <- m.entries :: Within(r.entries[k].children, m.entries[k].children) && Within(r.entries[k].parents, m.entries[k].parents)
  }

  /** Removes the edge from gate `p` to gate `c`, child side first. */
  function CutEdge(m: GatesMap, p: string, c: string): (r: GatesMap)
    requires m.Valid() && p in m.entries && c in m.entries
    ensures r.Valid() && Shrinks(m, r)
    ensures c !in r.entries[p].children && p !in r.entries[c].parents
    ensures forall k <- m.entries | k != p && k != c :: r.entries[k] == m.entries[k]
  {
    var m1 := WithParents(m, c, Without(m.entries[c].parents, p));
    WithChildren(m1, p, Without(m1.entries[p].children, c))
  }

  /**
   * For each of `qs` with both a nearest parent and a nearest child, removes
   * the edge between the two: the new gate goes between them. (The recorded
   * gates always belong to the map; the membership tests only keep the
   * function total.)
   */
  function Unbridge(m: GatesMap, near: Nearest, qs: seq<int>): (r: GatesMap)
    requires m.Valid()
    ensures r.Valid() && Shrinks(m, r)
    decreases |qs|
  {
    if qs == [] then m
    else
      var prev := Unbridge(m, near, qs[..|qs| - 1]);
      var q := qs[|qs| - 1];
      if q in near.parents.entries && q in near.children.entries then
        var p := near.parents.entries[q].id;
        var c := near.children.entries[q].id;
        if p in prev.entries && c in prev.entries then CutEdge(prev, p, c) else prev
      else prev
  }

  /** After `Unbridge`, no nearest parent on a listed qubit is still linked to the nearest child there. */
  lemma {:induction false} UnbridgeCuts(m: GatesMap, near: Nearest, qs: seq<int>, q: int)
    requires m.Valid() && q in qs && q in near.parents.entries && q in near.children.entries
    requires near.parents.entries[q].id in m.entries && near.children.entries[q].id in m.entries
    ensures var r := Unbridge(m, near, qs);
            var p := near.parents.entries[q].id;
            var c := near.children.entries[q].id;
            c !in r.entries[p].children && p !in r.entries[c].parents
    decreases |qs|
  {
    var p := near.parents.entries[q].id;
    var c := near.children.entries[q].id;
    var last := qs[|qs| - 1];
    var prev := Unbridge(m, near, qs[..|qs| - 1]);
    var r := Unbridge(m, near, qs);
    if last == q {
      assert r == CutEdge(prev, p, c);
    } else {
      assert q in qs[..|qs| - 1];
      UnbridgeCuts(m, near, qs[..|qs| - 1], q);
      assert Shrinks(prev, r);
    }
  }

  /** Adds `newId` to the children of each of `pids` that lacks it. */
  function LinkParents(m: GatesMap, pids: seq<string>, newId: string): (r: GatesMap)
    requires m.Valid()
    ensures r.Valid() && EdgesOnly(m, r)
    decreases |pids|
  {
    if pids == [] then m
    else
      var prev := LinkParents(m, pids[..|pids| - 1], newId);
      var p := pids[|pids| - 1];
      if p in prev.entries && newId !in prev.entries[p].children then WithChildren(prev, p, prev.entries[p].children + [newId])
      else prev
  }

  lemma AddChildAt(m: GatesMap, p: string, newId: string, k: string, x: string)
    requires m.Valid() && p in m.entries && k in m.entries
    ensures var r := WithChildren(m, p, m.entries[p].children + [newId]);
            && r.entries[k].parents == m.entries[k].parents
            && (x in r.entries[k].children <==> x in m.entries[k].children || (x == newId && k == p))
  {
  }

  /** One step of `LinkParents`: the last listed gate gains `newId` as a child. */
  lemma LinkParentsSnoc(m: GatesMap, pids: seq<string>, newId: string, k: string, x: string)
    requires m.Valid() && k in m.entries && pids != []
    ensures var prev := LinkParents(m, pids[..|pids| - 1], newId);
            var r := LinkParents(m, pids, newId);
            && k in prev.entries
            && r.entries[k].parents == prev.entries[k].parents
            && (x in r.entries[k].children <==> x in prev.entries[k].children || (x == newId && k == pids[|pids| - 1]))
  {
    var prev := LinkParents(m, pids[..|pids| - 1], newId);
    var p := pids[|pids| - 1];
    if p in prev.entries && newId !in prev.entries[p].children {
      AddChildAt(prev, p, newId, k, x);
    }
  }

  /** Linking parents touches only children lists, and only by adding `newId` to the listed gates. */
  lemma {:induction false} LinkParentsAt(m: GatesMap, pids: seq<string>, newId: string, k: string, x: string)
    requires m.Valid() && k in m.entries
    ensures var r := LinkParents(m, pids, newId);
            && r.entries[k].parents == m.entries[k].parents
            && (x in r.entries[k].children <==> x in m.entries[k].children || (x == newId && k in pids))
    decreases |pids|
  {
    if pids != [] {
      LinkParentsAt(m, pids[..|pids| - 1], newId, k, x);
      LinkParentsSnoc(m, pids, newId, k, x);
      assert k in pids <==> k == pids[|pids| - 1] || k in pids[..|pids| - 1];
    }
  }

  /** Adds `newId` to the parents of each of `cids` that lacks it. */
  function LinkChildren(m: GatesMap, cids: seq<string>, newId: string): (r: GatesMap)
    requires m.Valid()
    ensures r.Valid() && EdgesOnly(m, r)
    decreases |cids|
  {
    if cids == [] then m
    else
      var prev := LinkChildren(m, cids[..|cids| - 1], newId);
      var c := cids[|cids| - 1];
      if c in prev.entries && newId !in prev.entries[c].parents then WithParents(prev, c, prev.entries[c].parents + [newId])
      else prev
  }

  lemma AddParentAt(m: GatesMap, p: string, newId: string, k: string, x: string)
    requires m.Valid() && p in m.entries && k in m.entries
    ensures var r := WithParents(m, p, m.entries[p].parents + [newId]);
            && r.entries[k].children == m.entries[k].children
            && (x in r.entries[k].parents <==> x in m.entries[k].parents || (x == newId && k == p))
  {
  }

  /** One step of `LinkChildren`: the last listed gate gains `newId` as a parent. */
  lemma LinkChildrenSnoc(m: GatesMap, cids: seq<string>, newId: string, k: string, x: string)
    requires m.Valid() && k in m.entries && cids != []
    ensures var prev := LinkChildren(m, cids[..|cids| - 1], newId);
            var r := LinkChildren(m, cids, newId);
            && k in prev.entries
            && r.entries[k].children == prev.entries[k].children
            && (x in r.entries[k].parents <==> x in prev.entries[k].parents || (x == newId && k == cids[|cids| - 1]))
  {
    var prev := LinkChildren(m, cids[..|cids| - 1], newId);
    var c := cids[|cids| - 1];
    if c in prev.entries && newId !in prev.entries[c].parents {
      AddParentAt(prev, c, newId, k, x);
    }
  }

  /** Linking children touches only parents lists, and only by adding `newId` to the listed gates. */
  lemma {:induction false} LinkChildrenAt(m: GatesMap, cids: seq<string>, newId: string, k: string, x: string)
    requires m.Valid() && k in m.entries
    ensures var r := LinkChildren(m, cids, newId);
            && r.entries[k].children == m.entries[k].children
            && (x in r.entries[k].parents <==> x in m.entries[k].parents || (x == newId && k in cids))
    decreases |cids|
  {
    if cids != [] {
      LinkChildrenAt(m, cids[..|cids| - 1], newId, k, x);
      LinkChildrenSnoc(m, cids, newId, k, x);
      assert k in cids <==> k == cids[|cids| - 1] || k in cids[..|cids| - 1];
    }
  }

  /**
   * The map `injectGate` builds before recalculating depths: the bridged
   * edges cut, the new gate stored with its parents and children, and each
   * of those linked back to it.
   */
  function Splice(g: Gate, gates: seq<Gate>): (r: GatesMap)
    ensures r.Valid()
  {
    var m0 := GatesMapOf(gates);
    var near := Scan(m0.Values(), g);
    Attach(Unbridge(m0, near, near.parents.keys), DistinctIds(near.parents.Values()), DistinctIds(near.children.Values()), g)
  }

  /** Stores `g` with the given parents and children and links each of them back to it. */
  function Attach(m: GatesMap, pids: seq<string>, cids: seq<string>, g: Gate): (r: GatesMap)
    requires m.Valid()
    ensures r.Valid()
  {
    LinkChildren(LinkParents(m, pids, g.id), cids, g.id).Set(g.id, g.(parents := pids, children := cids))
  }

  /** With the linked ids in the map and the new id not, the new gate and its neighbours list each other. */
  lemma {:induction false} AttachLinks(m: GatesMap, pids: seq<string>, cids: seq<string>, g: Gate)
    requires m.Valid() && g.id !in m.entries
    requires forall p <- pids :: p in m.entries
    requires forall c <- cids :: c in m.entries
    ensures var r := Attach(m, pids, cids, g);
            && r.entries[g.id].parents == pids && r.entries[g.id].children == cids
            && (forall p <- pids :: p in r.entries && g.id in r.entries[p].children)
            && (forall c <- cids :: c in r.entries && g.id in r.entries[c].parents)
  {
    var m3 := LinkChildren(LinkParents(m, pids, g.id), cids, g.id);
    LinksBothWays(m, pids, cids, g.id);
    assert m3.entries.Keys == m.entries.Keys;
  }

  /** The map `injectGate` ends with. */
  function InjectMap(g: Gate, gates: seq<Gate>, fuel: nat): (r: GatesMap)
    ensures r.Valid()
  {
    Recalc(Splice(g, gates), g.id, fuel)
  }

  /** `injectGate`: the gates of the final map, in map order. */
  function Inject(g: Gate, gates: seq<Gate>, fuel: nat): seq<Gate> {
    InjectMap(g, gates, fuel).Values()
  }

  lemma EdgesOnlyTrans(a: GatesMap, b: GatesMap, c: GatesMap)
    requires EdgesOnly(a, b) && EdgesOnly(b, c)
    ensures EdgesOnly(a, c)
  {
    forall k <- a.entries
      ensures c.entries[k] == a.entries[k].(parents := c.entries[k].parents, children := c.entries[k].children)
    {
      assert b.entries[k] == a.entries[k].(parents := b.entries[k].parents, children := b.entries[k].children);
    }
  }

  /** Every gate the scan records is one of the scanned gates. */
  lemma {:induction false} ScanRecordsScanned(vals: seq<Gate>, g: Gate)
    ensures forall v <- Scan(vals, g).parents.Values() :: v in vals
    ensures forall v <- Scan(vals, g).children.Values() :: v in vals
  {
    var near := Scan(vals, g);
    var pv, cv := near.parents.Values(), near.children.Values();
    forall i | 0 <= i < |pv|
      ensures pv[i] in vals
    {
      ScanFindsNearestParent(vals, g, near.parents.keys[i]);
    }
    forall i | 0 <= i < |cv|
      ensures cv[i] in vals
    {
      ScanFindsNearestChild(vals, g, near.children.keys[i]);
    }
  }

  /** The ids `injectGate` links as parents and as children all belong to the map it scans. */
  lemma {:induction false} LinkedIdsInMap(gates: seq<Gate>, g: Gate)
    ensures var m0 := GatesMapOf(gates);
            var near := Scan(m0.Values(), g);
            && (forall p <- DistinctIds(near.parents.Values()) :: p in m0.entries)
            && (forall c <- DistinctIds(near.children.Values()) :: c in m0.entries)
  {
    var m0 := GatesMapOf(gates);
    KeyedValues(m0);
    ScanRecordsScanned(m0.Values(), g);
  }

  /**
   * The splice keeps the old gates but for their edges and stores the new
   * gate under its id with the recorded parents and children.
   */
  lemma {:induction false} SpliceShape(g: Gate, gates: seq<Gate>)
    ensures var m0 := GatesMapOf(gates);
            var r := Splice(g, gates);
            var near := Scan(m0.Values(), g);
            && r.keys == (if g.id in m0.keys then m0.keys else m0.keys + [g.id])
            && r.entries.Keys == m0.entries.Keys + {g.id}
            && r.entries[g.id] == g.(parents := DistinctIds(near.parents.Values()), children := DistinctIds(near.children.Values()))
            && forall k <- m0.entries | k != g.id :: r.entries[k] == m0.entries[k].(parents := r.entries[k].parents, children := r.entries[k].children)
  {
    var m0 := GatesMapOf(gates);
    var near := Scan(m0.Values(), g);
    var m1 := Unbridge(m0, near, near.parents.keys);
    var pids := DistinctIds(near.parents.Values());
    var cids := DistinctIds(near.children.Values());
    var r := Attach(m1, pids, cids, g);
    AttachShape(m1, pids, cids, g);
    assert m1.keys == m0.keys && m1.entries.Keys == m0.entries.Keys;
    forall k <- m0.entries | k != g.id
      ensures r.entries[k] == m0.entries[k].(parents := r.entries[k].parents, children := r.entries[k].children)
    {
      assert m1.entries[k] == m0.entries[k].(parents := m1.entries[k].parents, children := m1.entries[k].children);
    }
  }

  /** `Attach` changes only edge lists of the gates already present, and stores the new gate. */
  lemma {:induction false} AttachShape(m: GatesMap, pids: seq<string>, cids: seq<string>, g: Gate)
    requires m.Valid()
    ensures var r := Attach(m, pids, cids, g);
            && r.keys == (if g.id in m.keys then m.keys else m.keys + [g.id])
            && r.entries.Keys == m.entries.Keys + {g.id}
            && r.entries[g.id] == g.(parents := pids, children := cids)
            && forall k <- m.entries | k != g.id :: r.entries[k] == m.entries[k].(parents := r.entries[k].parents, children := r.entries[k].children)
  {
    var m2 := LinkParents(m, pids, g.id);
    var m3 := LinkChildren(m2, cids, g.id);
    EdgesOnlyTrans(m, m2, m3);
    var r := Attach(m, pids, cids, g);
    forall k <- m.entries | k != g.id
      ensures r.entries[k] == m.entries[k].(parents := r.entries[k].parents, children := r.entries[k].children)
    {
      assert r.entries[k] == m3.entries[k];
    }
  }

  /** The splice stores every gate under its own id. */
  lemma {:induction false} SpliceKeyed(g: Gate, gates: seq<Gate>)
    ensures Keyed(Splice(g, gates))
  {
    var m0 := GatesMapOf(gates);
    var m4 := Splice(g, gates);
    SpliceShape(g, gates);
    forall k <- m4.entries
      ensures m4.entries[k].id == k
    {
      if k != g.id {
        assert m4.entries[k].id == m0.entries[k].id;
      }
    }
  }

  /**
   * `injectGate` adds exactly the new gate: the keys are the old ids and the
   * new one, every gate is stored under its id, and an old gate keeps all but
   * its depth and its edges.
   */
  lemma {:induction false} InjectAddsGate(g: Gate, gates: seq<Gate>, fuel: nat)
    ensures var r := InjectMap(g, gates, fuel);
            && Keyed(r)
            && (forall k :: k in r.entries <==> k in Ids(gates) || k == g.id)
            && (forall k <- r.entries | k != g.id ::
                  r.entries[k].(depth := 0, parents := [], children := []) == GatesMapOf(gates).entries[k].(depth := 0, parents := [], children := []))
  {
    var m0 := GatesMapOf(gates);
    var m4 := Splice(g, gates);
    var r := InjectMap(g, gates, fuel);
    InjectKeyed(g, gates, fuel);
    SpliceShape(g, gates);
    RecalcDepthsOnly(m4, g.id, fuel);
    forall k <- r.entries | k != g.id
      ensures r.entries[k].(depth := 0, parents := [], children := []) == m0.entries[k].(depth := 0, parents := [], children := [])
    {
      assert r.entries[k] == m4.entries[k].(depth := r.entries[k].depth);
    }
  }

  /** The map `injectGate` leaves stores every gate under its own id, and keeps the spliced map's key order. */
  lemma {:induction false} InjectKeyed(g: Gate, gates: seq<Gate>, fuel: nat)
    ensures Keyed(InjectMap(g, gates, fuel))
    ensures InjectMap(g, gates, fuel).keys == Splice(g, gates).keys
  {
    var m4 := Splice(g, gates);
    var r := InjectMap(g, gates, fuel);
    SpliceKeyed(g, gates);
    RecalcDepthsOnly(m4, g.id, fuel);
    forall k <- r.entries
      ensures r.entries[k].id == k
    {
      assert r.entries[k] == m4.entries[k].(depth := r.entries[k].depth);
    }
  }

  /** The values of a keyed map carry its keys as ids, in key order. */
  lemma KeyedIds(m: GatesMap)
    requires Keyed(m)
    ensures Ids(m.Values()) == m.keys
  {
  }

  /** With distinct, new ids, `injectGate` lists the old gates in their order, followed by the new one. */
  lemma {:induction false} InjectAppends(g: Gate, gates: seq<Gate>, fuel: nat)
    requires Distinct(Ids(gates)) && g.id !in Ids(gates)
    ensures Ids(Inject(g, gates, fuel)) == Ids(gates) + [g.id]
  {
    InjectKeyed(g, gates, fuel);
    SpliceShape(g, gates);
    GatesMapOfOrder(gates);
    KeyedIds(InjectMap(g, gates, fuel));
  }

  /** The splice links the new gate both ways. */
  lemma {:induction false} SpliceLinks(g: Gate, gates: seq<Gate>)
    requires g.id !in Ids(gates)
    ensures var r := Splice(g, gates);
            && (forall p <- r.entries[g.id].parents :: p in r.entries && g.id in r.entries[p].children)
            && (forall c <- r.entries[g.id].children :: c in r.entries && g.id in r.entries[c].parents)
  {
    var m0 := GatesMapOf(gates);
    var near := Scan(m0.Values(), g);
    var m1 := Unbridge(m0, near, near.parents.keys);
    var pids := DistinctIds(near.parents.Values());
    var cids := DistinctIds(near.children.Values());
    SpliceInputs(g, gates);
    AttachLinks(m1, pids, cids, g);
  }

  /** The map `Attach` works on holds every id it links, and not the new one. */
  lemma {:induction false} SpliceInputs(g: Gate, gates: seq<Gate>)
    requires g.id !in Ids(gates)
    ensures var m0 := GatesMapOf(gates);
            var near := Scan(m0.Values(), g);
            var m1 := Unbridge(m0, near, near.parents.keys);
            && g.id !in m1.entries
            && (forall p <- DistinctIds(near.parents.Values()) :: p in m1.entries)
            && (forall c <- DistinctIds(near.children.Values()) :: c in m1.entries)
  {
    var m0 := GatesMapOf(gates);
    var near := Scan(m0.Values(), g);
    var m1 := Unbridge(m0, near, near.parents.keys);
    LinkedIdsInMap(gates, g);
    assert m1.entries.Keys == m0.entries.Keys;
  }

  /** After both linking passes, each listed gate present in the map lists `newId` back. */
  lemma {:induction false} LinksBothWays(m: GatesMap, pids: seq<string>, cids: seq<string>, newId: string)
    requires m.Valid()
    ensures var r := LinkChildren(LinkParents(m, pids, newId), cids, newId);
            && (forall p <- pids | p in m.entries :: newId in r.entries[p].children)
            && (forall c <- cids | c in m.entries :: newId in r.entries[c].parents)
  {
    var m2 := LinkParents(m, pids, newId);
    forall p <- pids | p in m.entries
      ensures newId in LinkChildren(m2, cids, newId).entries[p].children
    {
      LinkParentsAt(m, pids, newId, p, newId);
      LinkChildrenAt(m2, cids, newId, p, newId);
    }
    forall c <- cids | c in m.entries
      ensures newId in LinkChildren(m2, cids, newId).entries[c].parents
    {
      LinkChildrenAt(m2, cids, newId, c, newId);
    }
  }

  /**
   * `injectGate` links the new gate both ways: its parents are the distinct
   * recorded parents, its children the distinct recorded children, and each
   * of them lists the new gate back.
   */
  lemma {:induction false} InjectLinksNewGate(g: Gate, gates: seq<Gate>, fuel: nat)
    requires g.id !in Ids(gates)
    ensures var r := InjectMap(g, gates, fuel);
            var near := Scan(GatesMapOf(gates).Values(), g);
            && r.entries[g.id].parents == DistinctIds(near.parents.Values())
            && r.entries[g.id].children == DistinctIds(near.children.Values())
            && (forall p <- r.entries[g.id].parents :: p in r.entries && g.id in r.entries[p].children)
            && (forall c <- r.entries[g.id].children :: c in r.entries && g.id in r.entries[c].parents)
  {
    var m4 := Splice(g, gates);
    var r := InjectMap(g, gates, fuel);
    SpliceShape(g, gates);
    SpliceLinks(g, gates);
    RecalcDepthsOnly(m4, g.id, fuel);
  }

  /** `x` is a deepest gate shallower than `g` on qubit `q`. */
  predicate NearestBefore(gates: seq<Gate>, g: Gate, q: int, x: Gate) {
    Before(x, g, q) && forall y <- gates | Before(y, g, q) :: y.depth <= x.depth
  }

  /** `x` is a shallowest gate at or after `g`'s depth on qubit `q`. */
  predicate NearestAfter(gates: seq<Gate>, g: Gate, q: int, x: Gate) {
    After(x, g, q) && forall y <- gates | After(y, g, q) :: x.depth <= y.depth
  }

  /**
   * Each of `ps` is the id of a nearest predecessor of `g` on one of its
   * qubits, and each qubit of `g` with a predecessor contributes one.
   */
  ghost predicate ParentsNearest(gates: seq<Gate>, g: Gate, ps: seq<string>) {
    && (forall p <- ps :: exists q, x :: x in gates && x.id == p && q in InvolvedQubits(g) && NearestBefore(gates, g, q, x))
    && (forall q | q in InvolvedQubits(g) && (exists x <- gates :: Before(x, g, q)) ::
          exists x :: x in gates && NearestBefore(gates, g, q, x) && x.id in ps)
  }

  /**
   * Each of `cs` is the id of a nearest successor of `g` on one of its
   * qubits, and each qubit of `g` with a successor contributes one.
   */
  ghost predicate ChildrenNearest(gates: seq<Gate>, g: Gate, cs: seq<string>) {
    && (forall c <- cs :: exists q, x :: x in gates && x.id == c && q in InvolvedQubits(g) && NearestAfter(gates, g, q, x))
    && (forall q | q in InvolvedQubits(g) && (exists x <- gates :: After(x, g, q)) ::
          exists x :: x in gates && NearestAfter(gates, g, q, x) && x.id in cs)
  }

  /** A recorded gate is one of the map's values. */
  /** The distinct recorded parents are nearest predecessors, and every qubit with an earlier gate yields one. */
  lemma {:induction false} ScanParentIds(vals: seq<Gate>, g: Gate)
    ensures ParentsNearest(vals, g, DistinctIds(Scan(vals, g).parents.Values()))
  {
    var qp := Scan(vals, g).parents;
    var vs := qp.Values();
    var ps := DistinctIds(vs);
    forall p <- ps
      ensures exists q, x :: x in vals && x.id == p && q in InvolvedQubits(g) && NearestBefore(vals, g, q, x)
    {
      var v :| v in vs && v.id == p;
      var i :| 0 <= i < |vs| && vs[i] == v;
      var q := qp.keys[i];
      ScanFindsNearestParent(vals, g, q);
      assert NearestBefore(vals, g, q, v);
    }
    forall q | q in InvolvedQubits(g) && (exists x <- vals :: Before(x, g, q))
      ensures exists x :: x in vals && NearestBefore(vals, g, q, x) && x.id in ps
    {
      ScanFindsNearestParent(vals, g, q);
      ValueInValues(qp, q);
      assert NearestBefore(vals, g, q, qp.entries[q]);
    }
  }

  /** The distinct recorded children are nearest successors, and every qubit with a later gate yields one. */
  lemma {:induction false} ScanChildIds(vals: seq<Gate>, g: Gate)
    ensures ChildrenNearest(vals, g, DistinctIds(Scan(vals, g).children.Values()))
  {
    var qc := Scan(vals, g).children;
    var vs := qc.Values();
    var cs := DistinctIds(vs);
    forall c <- cs
      ensures exists q, x :: x in vals && x.id == c && q in InvolvedQubits(g) && NearestAfter(vals, g, q, x)
    {
      var v :| v in vs && v.id == c;
      var i :| 0 <= i < |vs| && vs[i] == v;
      var q := qc.keys[i];
      ScanFindsNearestChild(vals, g, q);
      assert NearestAfter(vals, g, q, v);
    }
    forall q | q in InvolvedQubits(g) && (exists x <- vals :: After(x, g, q))
      ensures exists x :: x in vals && NearestAfter(vals, g, q, x) && x.id in cs
    {
      ScanFindsNearestChild(vals, g, q);
      ValueInValues(qc, q);
      assert NearestAfter(vals, g, q, qc.entries[q]);
    }
  }

  /**
   * The parents `injectGate` gives the new gate are nearest predecessors:
   * each is a deepest gate shallower than it on a shared qubit, and every
   * qubit of the new gate that has an earlier gate contributes such a
   * deepest one.
   */
  lemma {:induction false} InjectParentsAreNearest(g: Gate, gates: seq<Gate>, fuel: nat)
    requires Distinct(Ids(gates)) && g.id !in Ids(gates)
    ensures g.id in InjectMap(g, gates, fuel).entries
    ensures ParentsNearest(gates, g, InjectMap(g, gates, fuel).entries[g.id].parents)
  {
    var r := InjectMap(g, gates, fuel);
    var near := Scan(GatesMapOf(gates).Values(), g);
    InjectLinksNewGate(g, gates, fuel);
    GatesMapOfOrder(gates);
    assert near == Scan(gates, g);
    assert r.entries[g.id].parents == DistinctIds(Scan(gates, g).parents.Values());
    ScanParentIds(gates, g);
  }

  /**
   * The children `injectGate` gives the new gate are nearest successors:
   * each is a shallowest gate at or after its depth on a shared qubit, and
   * every qubit of the new gate that has such a gate contributes one.
   */
  lemma {:induction false} InjectChildrenAreNearest(g: Gate, gates: seq<Gate>, fuel: nat)
    requires Distinct(Ids(gates)) && g.id !in Ids(gates)
    ensures g.id in InjectMap(g, gates, fuel).entries
    ensures ChildrenNearest(gates, g, InjectMap(g, gates, fuel).entries[g.id].children)
  {
    var r := InjectMap(g, gates, fuel);
    var near := Scan(GatesMapOf(gates).Values(), g);
    InjectLinksNewGate(g, gates, fuel);
    GatesMapOfOrder(gates);
    assert near == Scan(gates, g);
    assert r.entries[g.id].children == DistinctIds(Scan(gates, g).children.Values());
    ScanChildIds(gates, g);
  }

  /** `Attach` adds no edge between two old gates. */
  lemma {:induction false} AttachKeepsOldEdges(m: GatesMap, pids: seq<string>, cids: seq<string>, g: Gate, k: string, x: string)
    requires m.Valid() && k in m.entries && k != g.id && x != g.id
    ensures var r := Attach(m, pids, cids, g);
            && (x in r.entries[k].children <==> x in m.entries[k].children)
            && (x in r.entries[k].parents <==> x in m.entries[k].parents)
  {
    var m2 := LinkParents(m, pids, g.id);
    var m3 := LinkChildren(m2, cids, g.id);
    LinkParentsAt(m, pids, g.id, k, x);
    LinkChildrenAt(m2, cids, g.id, k, x);
    assert Attach(m, pids, cids, g).entries[k] == m3.entries[k];
  }

  /**
   * On each qubit where `injectGate` records both a parent and a child, the
   * direct edge between the two is gone afterwards: the new gate now sits
   * between them.
   */
  lemma {:induction false} InjectDropsBridgedEdge(g: Gate, gates: seq<Gate>, fuel: nat, q: int)
    requires g.id !in Ids(gates)
    requires var near := Scan(GatesMapOf(gates).Values(), g);
             q in near.parents.entries && q in near.children.entries
    ensures var near := Scan(GatesMapOf(gates).Values(), g);
            var r := InjectMap(g, gates, fuel);
            var p := near.parents.entries[q].id;
            var c := near.children.entries[q].id;
            && p in r.entries && c in r.entries
            && c !in r.entries[p].children && p !in r.entries[c].parents
  {
    var m0 := GatesMapOf(gates);
    var near := Scan(m0.Values(), g);
    var m1 := Unbridge(m0, near, near.parents.keys);
    var pids := DistinctIds(near.parents.Values());
    var cids := DistinctIds(near.children.Values());
    var p := near.parents.entries[q].id;
    var c := near.children.entries[q].id;
    KeyedValues(m0);
    ScanRecordsScanned(m0.Values(), g);
    ValueInValues(near.parents, q);
    ValueInValues(near.children, q);
    assert p in m0.entries && c in m0.entries;
    assert p != g.id && c != g.id;
    ValueInValues(near.parents, q);
    assert q in near.parents.keys;
    UnbridgeCuts(m0, near, near.parents.keys, q);
    AttachKeepsOldEdges(m1, pids, cids, g, p, c);
    AttachKeepsOldEdges(m1, pids, cids, g, c, p);
    var m4 := Splice(g, gates);
    assert m4 == Attach(m1, pids, cids, g);
    var r := InjectMap(g, gates, fuel);
    RecalcDepthsOnly(m4, g.id, fuel);
  }

  /** Recalculating a gate without children only relevels it. */
  lemma RecalcLeaf(m: GatesMap, id: string, fuel: nat)
    requires m.Valid() && id in m.entries && m.entries[id].children == []
    ensures Recalc(m, id, fuel) == Relevel(m, id)
  {
  }

  /** With no gate at or after `g`'s depth on its qubits, the scan records no child. */
  lemma {:induction false} ScanNoLater(vals: seq<Gate>, g: Gate)
    requires forall x <- vals, q | q in InvolvedQubits(g) :: !After(x, g, q)
    ensures Scan(vals, g).children.keys == []
    decreases |vals|
  {
    if vals != [] {
      var prefix := vals[..|vals| - 1];
      var gate := vals[|vals| - 1];
      assert forall x <- prefix :: x in vals;
      ScanNoLater(prefix, g);
      var shared := SharedQubits(gate, g);
      if shared != [] && gate.depth >= g.depth {
        assert After(gate, g, shared[0]);
      }
    }
  }

  /** With no gate at or after its depth on its qubits, the spliced gate gets no children. */
  lemma {:induction false} SpliceAtEnd(g: Gate, gates: seq<Gate>)
    requires Distinct(Ids(gates))
    requires forall x <- gates, q | q in InvolvedQubits(g) :: !After(x, g, q)
    ensures Splice(g, gates).entries[g.id].children == []
  {
    var near := Scan(GatesMapOf(gates).Values(), g);
    GatesMapOfOrder(gates);
    ScanNoLater(gates, g);
    assert near.children.Values() == [];
    SpliceShape(g, gates);
  }

  /**
   * Placing a gate after everything on its qubits: it gets no children, its
   * depth becomes one more than its deepest parent's (0 with no parents), and
   * no other gate's depth changes.
   */
  lemma {:induction false} InjectAtEndDepth(g: Gate, gates: seq<Gate>, fuel: nat)
    requires Distinct(Ids(gates)) && g.id !in Ids(gates)
    requires forall x <- gates, q | q in InvolvedQubits(g) :: !After(x, g, q)
    ensures var r := InjectMap(g, gates, fuel);
            var m0 := GatesMapOf(gates);
            && r.entries[g.id].children == []
            && r.entries[g.id].depth == MaxParentDepth(r.entries[g.id].parents, m0) + 1
            && forall k <- m0.entries :: k in r.entries && r.entries[k].depth == m0.entries[k].depth
  {
    var m0 := GatesMapOf(gates);
    var near := Scan(m0.Values(), g);
    var pids := DistinctIds(near.parents.Values());
    var m4 := Splice(g, gates);
    SpliceShape(g, gates);
    SpliceAtEnd(g, gates);
    RecalcLeaf(m4, g.id, fuel);
    var r := Relevel(m4, g.id);
    assert r == InjectMap(g, gates, fuel);
    assert m4.entries[g.id].parents == pids;
    LinkedIdsInMap(gates, g);
    forall p <- pids
      ensures (p in m0.entries <==> p in m4.entries) && (p in m0.entries ==> m0.entries[p].depth == m4.entries[p].depth)
    {
      assert p in m0.entries && p != g.id;
    }
    MaxParentDepthAgree(pids, m0, m4);
    forall k <- m0.entries
      ensures k in r.entries && r.entries[k].depth == m0.entries[k].depth
    {
      assert k != g.id;
    }
  }

  /** `r` holds the same gates as `m` but for their depths and edges. */
  predicate Relinked(m: GatesMap, r: GatesMap) {
    && r.keys == m.keys
    && r.entries.Keys == m.entries.Keys
    && forall k <- m.entries ::
         r.entries[k] == m.entries[k].(depth := r.entries[k].depth, parents := r.entries[k].parents, children := r.entries[k].children)
  }

  /** What the parents loop of `ejectGate` leaves: the map and the parent recorded per qubit. */
  datatype Detached = Detached(m: GatesMap, qm: QubitMap)

  /**
   * The parents loop of `ejectGate`: each of `pids` still in the map drops
   * `g` from its children and is recorded, under `policy`, for the qubits it
   * shares with `g`.
   */
  function DetachParents(m: GatesMap, g: Gate, pids: seq<string>, policy: Policy): (r: Detached)
    requires m.Valid()
    ensures r.m.Valid() && r.qm.Valid() && EdgesOnly(m, r.m)
    decreases |pids|
  {
    if pids == [] then Detached(m, Empty())
    else
      var prev := DetachParents(m, g, pids[..|pids| - 1], policy);
      var pid := pids[|pids| - 1];
      if pid !in prev.m.entries then prev
      else
        var parent := prev.m.entries[pid];
        Detached(WithChildren(prev.m, pid, Without(parent.children, g.id)),
                 Pick(prev.qm, parent, KeepIn(InvolvedQubits(parent), InvolvedQubits(g)), policy))
  }

  /**
   * The inner loop over a child's qubits: each recorded parent not yet among
   * the child's parents is linked to it both ways.
   */
  function Reattach(m: GatesMap, qm: QubitMap, cid: string, qs: seq<int>): (r: GatesMap)
    requires m.Valid() && cid in m.entries
    ensures r.Valid() && EdgesOnly(m, r)
    decreases |qs|
  {
    if qs == [] then m
    else
      var prev := Reattach(m, qm, cid, qs[..|qs| - 1]);
      var q := qs[|qs| - 1];
      if q !in qm.entries then prev
      else
        var pid := qm.entries[q].id;
        if pid !in prev.entries || pid in prev.entries[cid].parents then prev
        else LinkPair(prev, pid, cid)
  }

  /** Appends `pid` to the parents of `cid` and then `cid` to the children of `pid`. */
  function LinkPair(m: GatesMap, pid: string, cid: string): (r: GatesMap)
    requires m.Valid() && pid in m.entries && cid in m.entries
    ensures r.Valid() && EdgesOnly(m, r)
  {
    var m1 := WithParents(m, cid, m.entries[cid].parents + [pid]);
    WithChildren(m1, pid, m1.entries[pid].children + [cid])
  }

  lemma LinkPairAt(m: GatesMap, pid: string, cid: string, k: string, x: string)
    requires m.Valid() && pid in m.entries && cid in m.entries && k in m.entries
    ensures var r := LinkPair(m, pid, cid);
            && (x in r.entries[k].parents <==> x in m.entries[k].parents || (k == cid && x == pid))
            && (x in r.entries[k].children <==> x in m.entries[k].children || (k == pid && x == cid))
            && (k != cid ==> r.entries[k].parents == m.entries[k].parents)
  {
    var m1 := WithParents(m, cid, m.entries[cid].parents + [pid]);
    if k == cid {
      assert m1.entries[k].parents == m.entries[k].parents + [pid];
    }
  }

  /**
   * The children loop of `ejectGate`: each of `cids` still in the map drops
   * `g` from its parents, is linked to the parents recorded on the qubits it
   * shares with `g`, and has its depth recalculated.
   */
  function ReattachChildren(m: GatesMap, qm: QubitMap, g: Gate, cids: seq<string>, fuel: nat): (r: GatesMap)
    requires m.Valid()
    ensures r.Valid() && Relinked(m, r)
    decreases |cids|
  {
    if cids == [] then m
    else
      var prev := ReattachChildren(m, qm, g, cids[..|cids| - 1], fuel);
      var cid := cids[|cids| - 1];
      if cid !in prev.entries then prev
      else ReattachOne(prev, qm, g, cid, fuel)
  }

  /** One pass of the children loop. */
  function ReattachOne(m: GatesMap, qm: QubitMap, g: Gate, cid: string, fuel: nat): (r: GatesMap)
    requires m.Valid() && cid in m.entries
    ensures r.Valid() && Relinked(m, r)
  {
    var child := m.entries[cid];
    var m1 := WithParents(m, cid, Without(child.parents, g.id));
    var m2 := Reattach(m1, qm, cid, KeepIn(InvolvedQubits(child), InvolvedQubits(g)));
    RecalcDepthsOnly(m2, cid, fuel);
    Recalc(m2, cid, fuel)
  }

  /** The map `ejectGate` ends with, recording parents under `policy`. */
  function EjectMap(g: Gate, gates: seq<Gate>, policy: Policy, fuel: nat): (r: GatesMap)
    ensures r.Valid()
  {
    EjectFrom(GatesMapOf(gates), g, policy, fuel)
  }

  /** The two loops of `ejectGate` and the final delete, on an already built map. */
  function EjectFrom(m0: GatesMap, g: Gate, policy: Policy, fuel: nat): (r: GatesMap)
    requires m0.Valid()
    ensures r.Valid()
  {
    var d := DetachParents(m0, g, g.parents, policy);
    ReattachChildren(d.m, d.qm, g, g.children, fuel).Delete(g.id)
  }

  /** Detaching touches only children lists, and only by removing `g` from the listed parents. */
  lemma {:induction false} DetachAt(m: GatesMap, g: Gate, pids: seq<string>, policy: Policy, k: string, x: string)
    requires m.Valid() && k in m.entries
    ensures var r := DetachParents(m, g, pids, policy).m;
            && r.entries[k].parents == m.entries[k].parents
            && (x in r.entries[k].children <==> x in m.entries[k].children && !(x == g.id && k in pids))
    decreases |pids|
  {
    if pids != [] {
      var prev := DetachParents(m, g, pids[..|pids| - 1], policy);
      var pid := pids[|pids| - 1];
      DetachAt(m, g, pids[..|pids| - 1], policy, k, x);
      assert k in pids <==> k == pid || k in pids[..|pids| - 1];
      if pid in prev.m.entries {
        var r := WithChildren(prev.m, pid, Without(prev.m.entries[pid].children, g.id));
        assert DetachParents(m, g, pids, policy).m == r;
        if k != pid {
          assert r.entries[k] == prev.m.entries[k];
        }
      } else {
        assert DetachParents(m, g, pids, policy) == prev;
      }
    }
  }

  /** `x` is the id of a recorded parent. */
  predicate Recorded(qm: QubitMap, x: string) {
    exists q <- qm.entries :: qm.entries[q].id == x
  }

  /** Relinking adds `x` to an edge list of `k` only as stated. */
  lemma {:induction false} ReattachAt(m: GatesMap, qm: QubitMap, cid: string, qs: seq<int>, k: string, x: string)
    requires m.Valid() && cid in m.entries && k in m.entries
    ensures var r := Reattach(m, qm, cid, qs);
            && (x in m.entries[k].parents ==> x in r.entries[k].parents)
            && (x in m.entries[k].children ==> x in r.entries[k].children)
            && (x in r.entries[k].parents ==> x in m.entries[k].parents || (k == cid && Recorded(qm, x)))
            && (x in r.entries[k].children ==> x in m.entries[k].children || x == cid)
            && (k != cid ==> r.entries[k].parents == m.entries[k].parents)
    decreases |qs|
  {
    if qs != [] {
      var prev := Reattach(m, qm, cid, qs[..|qs| - 1]);
      var q := qs[|qs| - 1];
      ReattachAt(m, qm, cid, qs[..|qs| - 1], k, x);
      if q in qm.entries && qm.entries[q].id in prev.entries && qm.entries[q].id !in prev.entries[cid].parents {
        assert Reattach(m, qm, cid, qs) == LinkPair(prev, qm.entries[q].id, cid);
        LinkPairAt(prev, qm.entries[q].id, cid, k, x);
      } else {
        assert Reattach(m, qm, cid, qs) == prev;
      }
    }
  }

  /** On each listed qubit with a recorded parent in the map, that parent ends up among the child's parents. */
  /** A parent the pass added to the child lists the child back. */
  lemma {:induction false} ReattachPaired(m: GatesMap, qm: QubitMap, cid: string, qs: seq<int>, x: string)
    requires m.Valid() && cid in m.entries && x in m.entries
    ensures var r := Reattach(m, qm, cid, qs);
            x in r.entries[cid].parents ==> x in m.entries[cid].parents || cid in r.entries[x].children
    decreases |qs|
  {
    if qs != [] {
      var prefix := qs[..|qs| - 1];
      var prev := Reattach(m, qm, cid, prefix);
      var q := qs[|qs| - 1];
      ReattachPaired(m, qm, cid, prefix, x);
      ReattachStep(m, qm, cid, qs, x, cid);
      if q in qm.entries && qm.entries[q].id in prev.entries && qm.entries[q].id !in prev.entries[cid].parents {
        LinkPairAt(prev, qm.entries[q].id, cid, cid, x);
        LinkPairAt(prev, qm.entries[q].id, cid, x, cid);
      }
    }
  }

  lemma {:induction false} ReattachLinks(m: GatesMap, qm: QubitMap, cid: string, qs: seq<int>, q: int)
    requires m.Valid() && cid in m.entries && q in qs && q in qm.entries && qm.entries[q].id in m.entries
    ensures var r := Reattach(m, qm, cid, qs);
            var pid := qm.entries[q].id;
            && pid in r.entries[cid].parents
            && (pid in m.entries[cid].parents || cid in r.entries[pid].children)
    decreases |qs|
  {
    var pid := qm.entries[q].id;
    var prefix := qs[..|qs| - 1];
    var prev := Reattach(m, qm, cid, prefix);
    var r := Reattach(m, qm, cid, qs);
    if qs[|qs| - 1] == q {
      ReattachAt(m, qm, cid, prefix, cid, pid);
      if pid !in prev.entries[cid].parents {
        assert r == LinkPair(prev, pid, cid);
        LinkPairAt(prev, pid, cid, cid, pid);
        LinkPairAt(prev, pid, cid, pid, cid);
      } else {
        assert r == prev;
        ReattachPaired(m, qm, cid, prefix, pid);
      }
    } else {
      assert q in prefix;
      ReattachLinks(m, qm, cid, prefix, q);
      ReattachStep(m, qm, cid, qs, cid, pid);
      ReattachStep(m, qm, cid, qs, pid, cid);
    }
  }

  /** The last qubit's pass keeps every edge the earlier ones made. */
  lemma ReattachStep(m: GatesMap, qm: QubitMap, cid: string, qs: seq<int>, k: string, x: string)
    requires m.Valid() && cid in m.entries && k in m.entries && qs != []
    ensures var prev := Reattach(m, qm, cid, qs[..|qs| - 1]);
            var r := Reattach(m, qm, cid, qs);
            && (x in prev.entries[k].parents ==> x in r.entries[k].parents)
            && (x in prev.entries[k].children ==> x in r.entries[k].children)
  {
    var prev := Reattach(m, qm, cid, qs[..|qs| - 1]);
    var q := qs[|qs| - 1];
    if q in qm.entries && qm.entries[q].id in prev.entries && qm.entries[q].id !in prev.entries[cid].parents {
      LinkPairAt(prev, qm.entries[q].id, cid, k, x);
    }
  }

  /** One pass of the children loop drops `g` from the child's parents and adds only recorded parents and the child. */
  lemma {:induction false} ReattachOneAt(m: GatesMap, qm: QubitMap, g: Gate, cid: string, fuel: nat, k: string, x: string)
    requires m.Valid() && cid in m.entries && k in m.entries
    ensures var r := ReattachOne(m, qm, g, cid, fuel);
            && (x in m.entries[k].parents && !(x == g.id && k == cid) ==> x in r.entries[k].parents)
            && (x in m.entries[k].children ==> x in r.entries[k].children)
            && (x in r.entries[k].parents ==> (x in m.entries[k].parents && !(x == g.id && k == cid)) || Recorded(qm, x))
            && (x in r.entries[k].children ==> x in m.entries[k].children || x == cid)
            && (k != cid ==> r.entries[k].parents == m.entries[k].parents)
  {
    var child := m.entries[cid];
    var m1 := WithParents(m, cid, Without(child.parents, g.id));
    var m2 := Reattach(m1, qm, cid, KeepIn(InvolvedQubits(child), InvolvedQubits(g)));
    ReattachAt(m1, qm, cid, KeepIn(InvolvedQubits(child), InvolvedQubits(g)), k, x);
    var r := Recalc(m2, cid, fuel);
    RecalcDepthsOnly(m2, cid, fuel);
    assert r.entries[k] == m2.entries[k].(depth := r.entries[k].depth);
  }

  /** The children loop drops `g` from the parents of the listed children and adds only recorded parents and listed children. */
  lemma {:induction false} ReattachChildrenAt(m: GatesMap, qm: QubitMap, g: Gate, cids: seq<string>, fuel: nat, k: string, x: string)
    requires m.Valid() && k in m.entries
    ensures var r := ReattachChildren(m, qm, g, cids, fuel);
            && (x in m.entries[k].parents && !(x == g.id && k in cids) ==> x in r.entries[k].parents)
            && (x in m.entries[k].children ==> x in r.entries[k].children)
            && (x in r.entries[k].parents ==> (x in m.entries[k].parents && !(x == g.id && k in cids)) || Recorded(qm, x))
            && (x in r.entries[k].children ==> x in m.entries[k].children || x in cids)
            && (k !in cids ==> r.entries[k].parents == m.entries[k].parents)
    decreases |cids|
  {
    if cids != [] {
      var prefix := cids[..|cids| - 1];
      var cid := cids[|cids| - 1];
      var prev := ReattachChildren(m, qm, g, prefix, fuel);
      ReattachChildrenAt(m, qm, g, prefix, fuel, k, x);
      assert k in cids <==> k == cid || k in prefix;
      assert x in cids <==> x == cid || x in prefix;
      if cid in prev.entries {
        ReattachOneAt(prev, qm, g, cid, fuel, k, x);
      }
    }
  }

  /**
   * A listed child sharing qubit `q` with `g` ends up with the parent
   * recorded for `q`, and that parent lists it back unless the child already
   * had it.
   */
  lemma {:induction false} ReattachChildrenLinks(m: GatesMap, qm: QubitMap, g: Gate, cids: seq<string>, fuel: nat, c: string, q: int)
    requires m.Valid() && c in cids && c in m.entries
    requires q in InvolvedQubits(m.entries[c]) && q in InvolvedQubits(g)
    requires q in qm.entries && qm.entries[q].id in m.entries && qm.entries[q].id != g.id
    ensures var r := ReattachChildren(m, qm, g, cids, fuel);
            var pid := qm.entries[q].id;
            && pid in r.entries[c].parents
            && (pid in m.entries[c].parents || c in r.entries[pid].children)
    decreases |cids|
  {
    var pid := qm.entries[q].id;
    var prefix := cids[..|cids| - 1];
    var last := cids[|cids| - 1];
    var prev := ReattachChildren(m, qm, g, prefix, fuel);
    var r := ReattachChildren(m, qm, g, cids, fuel);
    if c in prefix {
      ReattachChildrenLinks(m, qm, g, prefix, fuel, c, q);
      if last in prev.entries {
        ReattachOneAt(prev, qm, g, last, fuel, c, pid);
        ReattachOneAt(prev, qm, g, last, fuel, pid, c);
      }
    } else {
      assert last == c;
      assert r == ReattachOne(prev, qm, g, last, fuel);
      ReattachChildrenAt(m, qm, g, prefix, fuel, c, pid);
      var child := prev.entries[c];
      assert InvolvedQubits(child) == InvolvedQubits(m.entries[c]);
      var qs := KeepIn(InvolvedQubits(child), InvolvedQubits(g));
      var m1 := WithParents(prev, c, Without(child.parents, g.id));
      var m2 := Reattach(m1, qm, c, qs);
      ReattachLinks(m1, qm, c, qs, q);
      RecalcDepthsOnly(m2, c, fuel);
      assert r.entries[c] == m2.entries[c].(depth := r.entries[c].depth);
      assert r.entries[pid] == m2.entries[pid].(depth := r.entries[pid].depth);
    }
  }

  /** `x` is one of `pids` in the map and touches qubit `q`. */
  predicate ParentOn(m: GatesMap, pids: seq<string>, q: int, p: string) {
    p in pids && p in m.entries && q in InvolvedQubits(m.entries[p])
  }

  /** The parents loop records a parent for a qubit of `g` exactly when one of the listed parents in the map is on it. */
  lemma {:induction false} DetachRecordsWhen(m: GatesMap, g: Gate, pids: seq<string>, policy: Policy, q: int)
    requires Keyed(m)
    ensures var qm := DetachParents(m, g, pids, policy).qm;
            q in qm.entries <==> q in InvolvedQubits(g) && exists p :: ParentOn(m, pids, q, p)
    decreases |pids|
  {
    if pids != [] {
      var prefix := pids[..|pids| - 1];
      var pid := pids[|pids| - 1];
      var prev := DetachParents(m, g, prefix, policy);
      var qm := DetachParents(m, g, pids, policy).qm;
      DetachRecordsWhen(m, g, prefix, policy, q);
      ParentOnSnoc(m, pids, prefix, q);
      if pid in prev.m.entries {
        var parent := prev.m.entries[pid];
        assert InvolvedQubits(parent) == InvolvedQubits(m.entries[pid]);
        var qs := KeepIn(InvolvedQubits(parent), InvolvedQubits(g));
        PickAt(prev.qm, parent, qs, policy, q);
        assert qm == Pick(prev.qm, parent, qs, policy);
        assert q in qs <==> ParentOn(m, pids, q, pid) && q in InvolvedQubits(g);
      } else {
        assert qm == prev.qm;
        assert !ParentOn(m, pids, q, pid);
      }
    }
  }

  lemma ParentOnSnoc(m: GatesMap, pids: seq<string>, prefix: seq<string>, q: int)
    requires pids != [] && prefix == pids[..|pids| - 1]
    ensures (exists p :: ParentOn(m, pids, q, p)) <==>
              (exists p :: ParentOn(m, prefix, q, p)) || ParentOn(m, pids, q, pids[|pids| - 1])
  {
    if exists p :: ParentOn(m, prefix, q, p) {
      var p :| ParentOn(m, prefix, q, p);
      assert ParentOn(m, pids, q, p);
    }
    if exists p :: ParentOn(m, pids, q, p) {
      var p :| ParentOn(m, pids, q, p);
      if p != pids[|pids| - 1] {
        assert ParentOn(m, prefix, q, p);
      }
    }
  }

  /** The recorded parent is one of the listed parents on its qubit, at its depth in the map. */
  lemma {:induction false} DetachRecords(m: GatesMap, g: Gate, pids: seq<string>, policy: Policy, q: int)
    requires Keyed(m)
    ensures var qm := DetachParents(m, g, pids, policy).qm;
            q in qm.entries ==>
              && ParentOn(m, pids, q, qm.entries[q].id)
              && qm.entries[q].depth == m.entries[qm.entries[q].id].depth
    decreases |pids|
  {
    if pids != [] {
      var prefix := pids[..|pids| - 1];
      var pid := pids[|pids| - 1];
      var prev := DetachParents(m, g, prefix, policy);
      DetachRecords(m, g, prefix, policy, q);
      if pid in prev.m.entries {
        var parent := prev.m.entries[pid];
        assert parent == m.entries[pid].(parents := parent.parents, children := parent.children);
        var qs := KeepIn(InvolvedQubits(parent), InvolvedQubits(g));
        PickAt(prev.qm, parent, qs, policy, q);
        if q in prev.qm.entries {
          assert ParentOn(m, prefix, q, prev.qm.entries[q].id);
        }
      } else {
        assert DetachParents(m, g, pids, policy) == prev;
      }
    }
  }

  /** Under `Deepest`, the recorded parent is a deepest listed parent on its qubit. */
  lemma {:induction false} DetachRecordsDeepest(m: GatesMap, g: Gate, pids: seq<string>, q: int)
    requires Keyed(m)
    ensures var qm := DetachParents(m, g, pids, Deepest).qm;
            q in qm.entries ==> forall p | ParentOn(m, pids, q, p) :: m.entries[p].depth <= qm.entries[q].depth
    decreases |pids|
  {
    if pids != [] {
      var prefix := pids[..|pids| - 1];
      var pid := pids[|pids| - 1];
      var prev := DetachParents(m, g, prefix, Deepest);
      DetachRecordsDeepest(m, g, prefix, q);
      DetachRecords(m, g, prefix, Deepest, q);
      DetachRecordsWhen(m, g, prefix, Deepest, q);
      var qm := DetachParents(m, g, pids, Deepest).qm;
      if pid in prev.m.entries {
        var parent := prev.m.entries[pid];
        assert parent == m.entries[pid].(parents := parent.parents, children := parent.children);
        var qs := KeepIn(InvolvedQubits(parent), InvolvedQubits(g));
        PickAt(prev.qm, parent, qs, Deepest, q);
        assert qm == Pick(prev.qm, parent, qs, Deepest);
        if q in qm.entries {
          forall p | ParentOn(m, pids, q, p)
            ensures m.entries[p].depth <= qm.entries[q].depth
          {
            if p != pid {
              assert ParentOn(m, prefix, q, p);
            }
          }
        }
      } else {
        assert qm == prev.qm;
        forall p | ParentOn(m, pids, q, p)
          ensures ParentOn(m, prefix, q, p)
        {
        }
      }
    }
  }

  lemma EdgesOnlyRelinked(m: GatesMap, r: GatesMap)
    requires EdgesOnly(m, r)
    ensures Relinked(m, r)
  {
    forall k <- m.entries
      ensures r.entries[k] == m.entries[k].(depth := r.entries[k].depth, parents := r.entries[k].parents, children := r.entries[k].children)
    {
      assert r.entries[k] == m.entries[k].(parents := r.entries[k].parents, children := r.entries[k].children);
    }
  }

  lemma RelinkedTrans(a: GatesMap, b: GatesMap, c: GatesMap)
    requires Relinked(a, b) && Relinked(b, c)
    ensures Relinked(a, c)
  {
    forall k <- a.entries
      ensures c.entries[k] == a.entries[k].(depth := c.entries[k].depth, parents := c.entries[k].parents, children := c.entries[k].children)
    {
      assert b.entries[k] == a.entries[k].(depth := b.entries[k].depth, parents := b.entries[k].parents, children := b.entries[k].children);
    }
  }

  /** The map before the final delete: both loops of `ejectGate` run, the gate itself still present. */
  function Unlinked(g: Gate, gates: seq<Gate>, policy: Policy, fuel: nat): (r: GatesMap)
    ensures r.Valid()
  {
    var d := DetachParents(GatesMapOf(gates), g, g.parents, policy);
    ReattachChildren(d.m, d.qm, g, g.children, fuel)
  }

  lemma {:induction false} UnlinkedRelinked(g: Gate, gates: seq<Gate>, policy: Policy, fuel: nat)
    ensures Relinked(GatesMapOf(gates), Unlinked(g, gates, policy, fuel))
    ensures EjectMap(g, gates, policy, fuel) == Unlinked(g, gates, policy, fuel).Delete(g.id)
  {
    var m0 := GatesMapOf(gates);
    var d := DetachParents(m0, g, g.parents, policy);
    EdgesOnlyRelinked(m0, d.m);
    RelinkedTrans(m0, d.m, Unlinked(g, gates, policy, fuel));
  }

  /**
   * `ejectGate` removes exactly the gate: the keys are the old ones without
   * its id, in their order, every gate is stored under its id, and every
   * other gate keeps all but its depth and its edges.
   */
  lemma {:induction false} EjectRemovesGate(g: Gate, gates: seq<Gate>, policy: Policy, fuel: nat)
    ensures var r := EjectMap(g, gates, policy, fuel);
            var m0 := GatesMapOf(gates);
            && Keyed(r)
            && r.keys == Without(m0.keys, g.id)
            && (forall k :: k in r.entries <==> k in Ids(gates) && k != g.id)
            && (forall k <- r.entries ::
                  r.entries[k] == m0.entries[k].(depth := r.entries[k].depth, parents := r.entries[k].parents, children := r.entries[k].children))
  {
    var m0 := GatesMapOf(gates);
    var u := Unlinked(g, gates, policy, fuel);
    UnlinkedRelinked(g, gates, policy, fuel);
    var r := u.Delete(g.id);
    forall k <- r.entries
      ensures r.entries[k].id == k
    {
      assert u.entries[k] == m0.entries[k].(depth := u.entries[k].depth, parents := u.entries[k].parents, children := u.entries[k].children);
    }
  }

  /** With distinct ids, `ejectGate` lists the remaining gates in their original order. */
  lemma {:induction false} EjectKeepsOrder(g: Gate, gates: seq<Gate>, policy: Policy, fuel: nat)
    requires Distinct(Ids(gates))
    ensures Ids(EjectMap(g, gates, policy, fuel).Values()) == Without(Ids(gates), g.id)
  {
    var r := EjectMap(g, gates, policy, fuel);
    EjectRemovesGate(g, gates, policy, fuel);
    GatesMapOfOrder(gates);
    var vs := r.Values();
    assert Ids(vs) == r.keys;
  }

  /** Every parent the parents loop records is one of the listed ones, so never `g` itself when `g` is not its own parent. */
  lemma {:induction false} NotRecordedSelf(m: GatesMap, g: Gate, policy: Policy)
    requires Keyed(m) && g.id !in g.parents
    ensures !Recorded(DetachParents(m, g, g.parents, policy).qm, g.id)
  {
    var qm := DetachParents(m, g, g.parents, policy).qm;
    forall q <- qm.entries
      ensures qm.entries[q].id != g.id
    {
      DetachRecords(m, g, g.parents, policy, q);
    }
  }

  /**
   * When the gate's own edge lists agree with the gates that point at it,
   * and it is neither its own parent nor its own child, no gate refers to it
   * after `ejectGate`.
   */
  lemma {:induction false} EjectDropsReferences(g: Gate, gates: seq<Gate>, policy: Policy, fuel: nat)
    requires g.id !in g.parents && g.id !in g.children
    requires forall x <- gates :: (g.id in x.children ==> x.id in g.parents) && (g.id in x.parents ==> x.id in g.children)
    ensures var r := EjectMap(g, gates, policy, fuel);
            forall k <- r.entries :: g.id !in r.entries[k].parents && g.id !in r.entries[k].children
  {
    var m0 := GatesMapOf(gates);
    var d := DetachParents(m0, g, g.parents, policy);
    var u := ReattachChildren(d.m, d.qm, g, g.children, fuel);
    var r := EjectMap(g, gates, policy, fuel);
    assert r == u.Delete(g.id);
    GatesMapOfValues(gates);
    NotRecordedSelf(m0, g, policy);
    forall k <- r.entries
      ensures g.id !in r.entries[k].parents && g.id !in r.entries[k].children
    {
      assert k in m0.entries && m0.entries[k].id == k;
      DetachAt(m0, g, g.parents, policy, k, g.id);
      ReattachChildrenAt(d.m, d.qm, g, g.children, fuel, k, g.id);
      assert r.entries[k] == u.entries[k];
    }
  }

  /** `p` is one of `pids` on qubit `q` and no such parent is deeper. */
  ghost predicate DeepestOn(m: GatesMap, pids: seq<string>, q: int, p: string) {
    && ParentOn(m, pids, q, p)
    && forall p' | ParentOn(m, pids, q, p') :: m.entries[p'].depth <= m.entries[p].depth
  }

  /** In `r`, `c` lists `p` as a parent, and `p` lists `c` back unless `c` had `p` already in `m0`. */
  predicate LinkedUnder(m0: GatesMap, r: GatesMap, c: string, p: string) {
    && c in m0.entries && p in r.entries && c in r.entries
    && p in r.entries[c].parents
    && (p in m0.entries[c].parents || c in r.entries[p].children)
  }

  /** Recording deepest-first, a qubit `g` shares with one of its parents records a deepest such parent. */
  lemma DetachRecordsDeepestOn(m: GatesMap, g: Gate, q: int)
    requires Keyed(m) && q in InvolvedQubits(g)
    requires exists p :: ParentOn(m, g.parents, q, p)
    ensures var qm := DetachParents(m, g, g.parents, Deepest).qm;
            q in qm.entries && DeepestOn(m, g.parents, q, qm.entries[q].id)
  {
    DetachRecordsWhen(m, g, g.parents, Deepest, q);
    DetachRecords(m, g, g.parents, Deepest, q);
    DetachRecordsDeepest(m, g, g.parents, q);
  }

  /** The two loops of `ejectGate`, before the delete, on a keyed map. */
  lemma ReconnectsBeforeDelete(m0: GatesMap, g: Gate, fuel: nat, c: string, q: int)
    requires Keyed(m0) && g.id !in g.parents && c in g.children && c in m0.entries
    requires q in InvolvedQubits(m0.entries[c]) && q in InvolvedQubits(g)
    requires exists p :: ParentOn(m0, g.parents, q, p)
    ensures var d := DetachParents(m0, g, g.parents, Deepest);
            var u := ReattachChildren(d.m, d.qm, g, g.children, fuel);
            && q in d.qm.entries
            && d.qm.entries[q].id != g.id
            && DeepestOn(m0, g.parents, q, d.qm.entries[q].id)
            && LinkedUnder(m0, u, c, d.qm.entries[q].id)
  {
    var d := DetachParents(m0, g, g.parents, Deepest);
    DetachRecordsDeepestOn(m0, g, q);
    var pid := d.qm.entries[q].id;
    DetachAt(m0, g, g.parents, Deepest, c, pid);
    assert InvolvedQubits(d.m.entries[c]) == InvolvedQubits(m0.entries[c]);
    ReattachChildrenLinks(d.m, d.qm, g, g.children, fuel, c, q);
  }

  /**
   * With parents recorded deepest-first, `ejectGate` links each child of the
   * removed gate, on every qubit they shared, to a deepest parent of the
   * removed gate on that qubit; that parent lists the child back unless the
   * child already had it.
   */
  lemma EjectReconnects(g: Gate, gates: seq<Gate>, fuel: nat, c: string, q: int)
    requires g.id !in g.parents && c in g.children && c in Ids(gates) && c != g.id
    requires q in InvolvedQubits(GatesMapOf(gates).entries[c]) && q in InvolvedQubits(g)
    requires exists p :: ParentOn(GatesMapOf(gates), g.parents, q, p)
    ensures exists p :: DeepestOn(GatesMapOf(gates), g.parents, q, p) && LinkedUnder(GatesMapOf(gates), EjectMap(g, gates, Deepest, fuel), c, p)
  {
    EjectFromReconnects(GatesMapOf(gates), g, fuel, c, q);
  }

  lemma EjectFromReconnects(m0: GatesMap, g: Gate, fuel: nat, c: string, q: int)
    requires Keyed(m0) && g.id !in g.parents && c in g.children && c in m0.entries && c != g.id
    requires q in InvolvedQubits(m0.entries[c]) && q in InvolvedQubits(g)
    requires exists p :: ParentOn(m0, g.parents, q, p)
    ensures exists p :: DeepestOn(m0, g.parents, q, p) && LinkedUnder(m0, EjectFrom(m0, g, Deepest, fuel), c, p)
  {
    ReconnectsBeforeDelete(m0, g, fuel, c, q);
    var d := DetachParents(m0, g, g.parents, Deepest);
    var u := ReattachChildren(d.m, d.qm, g, g.children, fuel);
    var pid := d.qm.entries[q].id;
    LinkedUnderDelete(m0, u, c, pid, g.id);
    assert LinkedUnder(m0, EjectFrom(m0, g, Deepest, fuel), c, pid);
  }

  lemma LinkedUnderDelete(m0: GatesMap, u: GatesMap, c: string, p: string, id: string)
    requires u.Valid() && LinkedUnder(m0, u, c, p) && c != id && p != id
    ensures LinkedUnder(m0, u.Delete(id), c, p)
  {
    var r := u.Delete(id);
    assert r.entries[c] == u.entries[c] && r.entries[p] == u.entries[p];
  }

  /**
   * Four gates on qubits 0 and 1: `p1` (control 0, target 1) at depth 0,
   * `p2` (target 1) at depth 1 under `p1`, `g` (control 0, target 1) at
   * depth 2 under both, listing `p2` first, and `c` (target 1) under `g`.
   */
  function SampleP2(): Gate { Gate("p2", GateInfo("x", "X", "X", 1, 0), 1, [1], [], ["p1"], ["g"]) }
  function SampleP1(): Gate { Gate("p1", GateInfo("cnot", "CNOT", "CX", 1, 1), 0, [1], [0], [], ["p2", "g"]) }
  function SampleG(): Gate { Gate("g", GateInfo("cnot", "CNOT", "CX", 1, 1), 2, [1], [0], ["p2", "p1"], ["c"]) }
  function SampleC(): Gate { Gate("c", GateInfo("x", "X", "X", 1, 0), 3, [1], [], ["g"], []) }

  function SampleGates(): seq<Gate> {
    [SampleP2(), SampleP1(), SampleG(), SampleC()]
  }

  lemma GatesMapOfSnoc(prefix: seq<Gate>, g: Gate)
    ensures GatesMapOf(prefix + [g]) == GatesMapOf(prefix).Set(g.id, g)
  {
    assert (prefix + [g])[..|prefix|] == prefix;
  }

  lemma SampleMapHead()
    ensures GatesMapOf([SampleP2(), SampleP1()]) == OrderedMap(["p2", "p1"], map["p2" := SampleP2(), "p1" := SampleP1()])
  {
    assert [] + [SampleP2()] == [SampleP2()];
    assert GatesMapOf([SampleP2()]) == OrderedMap(["p2"], map["p2" := SampleP2()]) by {
      GatesMapOfSnoc([], SampleP2());
    }
    assert [SampleP2()] + [SampleP1()] == [SampleP2(), SampleP1()];
    GatesMapOfSnoc([SampleP2()], SampleP1());
  }

  lemma SampleMapThree()
    ensures GatesMapOf([SampleP2(), SampleP1(), SampleG()])
         == OrderedMap(["p2", "p1", "g"], map["p2" := SampleP2(), "p1" := SampleP1(), "g" := SampleG()])
  {
    SampleMapHead();
    GatesMapOfSnoc([SampleP2(), SampleP1()], SampleG());
  }

  /** The map `createGatesMap` builds from the sample. */
  function SampleMap0(): GatesMap {
    OrderedMap(["p2", "p1", "g", "c"], map["p2" := SampleP2(), "p1" := SampleP1(), "g" := SampleG(), "c" := SampleC()])
  }

  lemma SampleMapLast(m: GatesMap)
    requires m == OrderedMap(["p2", "p1", "g"], map["p2" := SampleP2(), "p1" := SampleP1(), "g" := SampleG()])
    ensures m.Valid() && m.Set("c", SampleC()) == SampleMap0()
  {
  }

  lemma SampleMap()
    ensures GatesMapOf(SampleGates()) == SampleMap0()
  {
    SampleMapThree();
    var three := [SampleP2(), SampleP1(), SampleG()];
    assert SampleGates() == three + [SampleC()];
    GatesMapOfSnoc(three, SampleC());
    SampleMapLast(GatesMapOf(three));
  }

  /** The sample map after the parents loop has dropped `g` from the children of `p2` and `p1`. */
  function SampleDetached(): GatesMap {
    assert SampleMap0().Valid();
    WithChildren(WithChildren(SampleMap0(), "p2", []), "p1", ["p2"])
  }

  /** The parent the loop records for qubits 1 and 0: on qubit 1, `p2` when the deepest wins and `p1` otherwise. */
  function SampleRecorded(policy: Policy): QubitMap {
    OrderedMap([1, 0], map[1 := if policy == Deepest then SampleP2() else SampleP1(), 0 := SampleP1()])
  }

  lemma SampleLists()
    ensures Without(["g"], "g") == [] && Without(["p2", "g"], "g") == ["p2"]
    ensures KeepIn([1], [0, 1]) == [1] && KeepIn([0, 1], [0, 1]) == [0, 1]
  {
    SampleWithout();
    SampleKeepIn();
  }

  lemma SampleWithout()
    ensures Without(["g"], "g") == [] && Without(["p2", "g"], "g") == ["p2"]
  {
  }

  lemma SampleKeepIn()
    ensures KeepIn([1], [0, 1]) == [1] && KeepIn([0, 1], [0, 1]) == [0, 1]
  {
    var t := [0, 1];
    assert [1][..0] == [] && [0][..0] == [];
    assert KeepIn([], t) == [];
    assert KeepIn([1], t) == KeepIn([], t) + [1];
    assert KeepIn([0], t) == KeepIn([], t) + [0];
    assert [0, 1][..1] == [0];
    assert KeepIn([0, 1], t) == KeepIn([0], t) + [1];
  }

  lemma SamplePickFirst(policy: Policy)
    ensures Pick(Empty(), SampleP2(), [1], policy) == OrderedMap([1], map[1 := SampleP2()])
  {
    assert [1][..0] == [];
  }

  lemma SamplePickZero(policy: Policy)
    ensures Pick(OrderedMap([1], map[1 := SampleP2()]), SampleP1(), [0], policy) == OrderedMap([1, 0], map[1 := SampleP2(), 0 := SampleP1()])
  {
    assert [0][..0] == [];
  }

  lemma SamplePickOne(qm: QubitMap, policy: Policy)
    requires qm == OrderedMap([1, 0], map[1 := SampleP2(), 0 := SampleP1()])
    ensures qm.Valid()
    ensures (if 1 !in qm.entries || Replaces(policy, SampleP1(), qm.entries[1]) then qm.Set(1, SampleP1()) else qm) == SampleRecorded(policy)
  {
  }

  lemma SamplePickSecond(policy: Policy)
    ensures Pick(OrderedMap([1], map[1 := SampleP2()]), SampleP1(), [0, 1], policy) == SampleRecorded(policy)
  {
    assert [0, 1][..1] == [0];
    SamplePickZero(policy);
    SamplePickOne(Pick(OrderedMap([1], map[1 := SampleP2()]), SampleP1(), [0], policy), policy);
  }

  lemma SampleDetachFirstStep(prev: Detached, g: Gate, policy: Policy)
    requires prev == Detached(SampleMap0(), Empty()) && g == SampleG()
    requires prev.m.Valid() && prev.qm.Valid()
    ensures "p2" in prev.m.entries
    ensures var parent := prev.m.entries["p2"];
            Detached(WithChildren(prev.m, "p2", Without(parent.children, g.id)),
                     Pick(prev.qm, parent, KeepIn(InvolvedQubits(parent), InvolvedQubits(g)), policy))
            == Detached(WithChildren(SampleMap0(), "p2", []), OrderedMap([1], map[1 := SampleP2()]))
  {
    assert prev.m.entries["p2"] == SampleP2();
    assert InvolvedQubits(SampleP2()) == [1] && InvolvedQubits(g) == [0, 1];
    SampleLists();
    SamplePickFirst(policy);
  }

  lemma SampleDetachFirst(m0: GatesMap, g: Gate, policy: Policy)
    requires m0 == SampleMap0() && g == SampleG()
    ensures m0.Valid()
    ensures DetachParents(m0, g, ["p2"], policy) == Detached(WithChildren(m0, "p2", []), OrderedMap([1], map[1 := SampleP2()]))
  {
    assert ["p2"][..0] == [];
    SampleDetachFirstStep(DetachParents(m0, g, [], policy), g, policy);
  }

  lemma SampleDetachSecond(prev: Detached, g: Gate, policy: Policy)
    requires prev == Detached(WithChildren(SampleMap0(), "p2", []), OrderedMap([1], map[1 := SampleP2()])) && g == SampleG()
    requires prev.m.Valid() && prev.qm.Valid()
    ensures "p1" in prev.m.entries
    ensures var parent := prev.m.entries["p1"];
            Detached(WithChildren(prev.m, "p1", Without(parent.children, g.id)),
                     Pick(prev.qm, parent, KeepIn(InvolvedQubits(parent), InvolvedQubits(g)), policy))
            == Detached(SampleDetached(), SampleRecorded(policy))
  {
    assert prev.m.entries["p1"] == SampleP1();
    assert InvolvedQubits(SampleP1()) == [0, 1] && InvolvedQubits(g) == [0, 1];
    SampleLists();
    SamplePickSecond(policy);
  }

  lemma SampleDetach(policy: Policy)
    ensures DetachParents(SampleMap0(), SampleG(), SampleG().parents, policy) == Detached(SampleDetached(), SampleRecorded(policy))
  {
    var g := SampleG();
    var m0 := SampleMap0();
    assert g.parents[..1] == ["p2"];
    SampleDetachFirst(m0, g, policy);
    SampleDetachSecond(DetachParents(m0, g, ["p2"], policy), g, policy);
  }

  /** The parent recorded for qubit 1. */
  function SamplePid(policy: Policy): string {
    if policy == Deepest then "p2" else "p1"
  }

  /** Linking a new parent appends it to the child's parents and leaves its children and every depth alone. */
  lemma LinkPairOnto(m: GatesMap, pid: string, cid: string)
    requires m.Valid() && pid in m.entries && cid in m.entries && pid != cid
    ensures var r := LinkPair(m, pid, cid);
            && r.entries[cid].parents == m.entries[cid].parents + [pid]
            && r.entries[cid].children == m.entries[cid].children
  {
  }

  /** Reattaching over one recorded qubit whose parent the child lacks links the two. */
  lemma ReattachSingle(m: GatesMap, qm: QubitMap, cid: string, q: int)
    requires m.Valid() && cid in m.entries && q in qm.entries
    requires qm.entries[q].id in m.entries && qm.entries[q].id !in m.entries[cid].parents
    ensures Reattach(m, qm, cid, [q]) == LinkPair(m, qm.entries[q].id, cid)
  {
    assert [q][..0] == [];
  }

  /** `c`, cut from `g` and linked to the recorded parent, has that parent alone and no children. */
  lemma SampleLinked(m1: GatesMap, qm: QubitMap, policy: Policy)
    requires m1.Valid() && "c" in m1.entries && "p1" in m1.entries && "p2" in m1.entries
    requires m1.entries["c"].parents == [] && m1.entries["c"].children == []
    requires 1 in qm.entries && qm.entries[1].id == SamplePid(policy)
    ensures var m2 := Reattach(m1, qm, "c", [1]);
            && "c" in m2.entries && "p1" in m2.entries && "p2" in m2.entries
            && m2.entries["c"].parents == [SamplePid(policy)] && m2.entries["c"].children == []
            && m2.entries["p1"].depth == m1.entries["p1"].depth
            && m2.entries["p2"].depth == m1.entries["p2"].depth
  {
    var pid := SamplePid(policy);
    ReattachSingle(m1, qm, "c", 1);
    LinkPairOnto(m1, pid, "c");
  }

  lemma SampleDetachedGates()
    ensures var m := SampleDetached();
            && m.Valid() && "c" in m.entries && "p1" in m.entries && "p2" in m.entries
            && m.entries["c"] == SampleC() && m.entries["p1"].depth == 0 && m.entries["p2"].depth == 1
            && m.entries["p2"].targets == [1]
  {
  }

  lemma ReattachChildrenSingle(m: GatesMap, qm: QubitMap, g: Gate, cid: string, fuel: nat)
    requires m.Valid() && cid in m.entries
    ensures ReattachChildren(m, qm, g, [cid], fuel) == ReattachOne(m, qm, g, cid, fuel)
  {
    assert [cid][..0] == [];
  }

  /** A gate with a single parent in the map, at a column of its own, is placed one column past it. */
  lemma RelevelSingleParent(m: GatesMap, id: string, p: string)
    requires m.Valid() && id in m.entries && p in m.entries && m.entries[id].parents == [p] && m.entries[p].depth >= 0
    ensures Relevel(m, id).entries[id].depth == m.entries[p].depth + 1
  {
    assert [p][..0] == [];
    assert MaxParentDepth([], m) == -1;
    assert MaxParentDepth([p], m) == m.entries[p].depth;
  }

  /** The children loop of the sample: `c` ends under the recorded parent, one column past it. */
  lemma SampleReattach(m: GatesMap, qm: QubitMap, g: Gate, policy: Policy)
    requires m.Valid() && "c" in m.entries && "p1" in m.entries && "p2" in m.entries
    requires m.entries["c"] == SampleC() && m.entries["p1"].depth == 0 && m.entries["p2"].depth == 1
    requires m.entries["p2"].targets == [1]
    requires 1 in qm.entries && qm.entries[1].id == SamplePid(policy)
    requires g.id == "g" && InvolvedQubits(g) == [0, 1]
    ensures var r := ReattachChildren(m, qm, g, ["c"], 1);
            && "c" in r.entries && "p1" in r.entries && "p2" in r.entries
            && r.entries["c"].parents == [SamplePid(policy)]
            && r.entries["p1"].depth == 0 && r.entries["p2"].depth == 1
            && r.entries["c"].depth == r.entries[SamplePid(policy)].depth + 1
            && r.entries["c"].targets == r.entries["p2"].targets == [1]
  {
    ReattachChildrenSingle(m, qm, g, "c", 1);
    SampleLists();
    var m1 := WithParents(m, "c", []);
    assert InvolvedQubits(SampleC()) == [1];
    SampleLinked(m1, qm, policy);
    var m2 := Reattach(m1, qm, "c", [1]);
    assert ReattachOne(m, qm, g, "c", 1) == Recalc(m2, "c", 1);
    RecalcLeaf(m2, "c", 1);
    RelevelSingleParent(m2, "c", SamplePid(policy));
    var r := ReattachChildren(m, qm, g, ["c"], 1);
    assert r.entries["c"].targets == m.entries["c"].targets;
    assert r.entries["p2"].targets == m.entries["p2"].targets;
  }

  /** Deleting `g` from the reattached sample keeps what the children loop did to `c`, `p1` and `p2`. */
  lemma SampleDeleted(u: GatesMap, policy: Policy)
    requires u.Valid() && "c" in u.entries && "p1" in u.entries && "p2" in u.entries
    requires u.entries["c"].parents == [SamplePid(policy)]
    requires u.entries["p1"].depth == 0 && u.entries["p2"].depth == 1
    requires u.entries["c"].depth == u.entries[SamplePid(policy)].depth + 1
    requires u.entries["c"].targets == u.entries["p2"].targets == [1]
    ensures var r := u.Delete("g");
            && "c" in r.entries && "p1" in r.entries && "p2" in r.entries
            && r.entries["c"].parents == [SamplePid(policy)]
            && r.entries["p1"].depth == 0 && r.entries["p2"].depth == 1
            && r.entries["c"].depth == r.entries[SamplePid(policy)].depth + 1
            && r.entries["c"].targets == r.entries["p2"].targets == [1]
  {
  }

  /** The children loop of the sample, started from what the parents loop left. */
  lemma SampleReattached(m: GatesMap, g: Gate, policy: Policy)
    requires m == SampleDetached() && g == SampleG()
    ensures m.Valid()
    ensures var u := ReattachChildren(m, SampleRecorded(policy), g, ["c"], 1);
            && "c" in u.entries && "p1" in u.entries && "p2" in u.entries
            && u.entries["c"].parents == [SamplePid(policy)]
            && u.entries["p1"].depth == 0 && u.entries["p2"].depth == 1
            && u.entries["c"].depth == u.entries[SamplePid(policy)].depth + 1
            && u.entries["c"].targets == u.entries["p2"].targets == [1]
  {
    SampleDetachedGates();
    var qm := SampleRecorded(policy);
    assert InvolvedQubits(g) == [0, 1] && qm.entries[1].id == SamplePid(policy);
    SampleReattach(m, qm, g, policy);
  }

  /** Ejecting `g` from the sample, recording parents under `policy`. */
  lemma SampleEject(policy: Policy)
    ensures var r := EjectMap(SampleG(), SampleGates(), policy, 1);
            && "c" in r.entries && "p1" in r.entries && "p2" in r.entries
            && r.entries["c"].parents == [SamplePid(policy)]
            && r.entries["p1"].depth == 0 && r.entries["p2"].depth == 1
            && r.entries["c"].depth == r.entries[SamplePid(policy)].depth + 1
            && r.entries["c"].targets == r.entries["p2"].targets == [1]
  {
    SampleMap();
    SampleDetach(policy);
    SampleReattached(SampleDetached(), SampleG(), policy);
    var u := ReattachChildren(SampleDetached(), SampleRecorded(policy), SampleG(), ["c"], 1);
    SampleDeleted(u, policy);
  }

  /** On qubit 1, `p2` is the deepest parent of `g`. */
  lemma SampleDeepest()
    ensures DeepestOn(SampleMap0(), SampleG().parents, 1, "p2")
  {
    var m0 := SampleMap0();
    forall p | ParentOn(m0, SampleG().parents, 1, p)
      ensures m0.entries[p].depth <= m0.entries["p2"].depth
    {
      assert p == "p2" || p == "p1";
    }
  }

  /** In `r`, `c` hangs under `p1` alone, in the column `p2` occupies on the qubit both act on. */
  predicate CollidesWithP2(r: GatesMap) {
    && "c" in r.entries && "p2" in r.entries
    && r.entries["c"].parents == ["p1"]
    && r.entries["c"].targets == r.entries["p2"].targets == [1]
    && r.entries["c"].depth == r.entries["p2"].depth == 1
  }

  /**
   * As written, the parents loop keeps the last listed parent for each
   * qubit, so ejecting `g` hangs `c` under `p1` alone: `c` lands at depth 1,
   * the column `p2` occupies on qubit 1, although `p2` is the deeper parent
   * of `g` on that qubit.
   */
  lemma EjectLastSeenCollides()
    ensures forall policy | policy != Deepest :: CollidesWithP2(EjectMap(SampleG(), SampleGates(), policy, 1))
    ensures DeepestOn(SampleMap0(), SampleG().parents, 1, "p2")
  {
    forall policy | policy != Deepest
      ensures CollidesWithP2(EjectMap(SampleG(), SampleGates(), policy, 1))
    {
      SampleEject(policy);
    }
    SampleDeepest();
  }

  /** Keeping the deepest parent instead hangs `c` under `p2`, one column past it. */
  lemma EjectDeepestSeparates()
    ensures var r := EjectMap(SampleG(), SampleGates(), Deepest, 1);
            && "c" in r.entries && "p2" in r.entries
            && r.entries["c"].parents == ["p2"]
            && r.entries["c"].depth == r.entries["p2"].depth + 1 == 2
  {
    SampleEject(Deepest);
  }

  /** `injectGate` stores the new gate as given, but for its depth and its edges. */
  lemma InjectStoresGate(g: Gate, gates: seq<Gate>, fuel: nat)
    ensures var r := InjectMap(g, gates, fuel);
            && g.id in r.entries
            && r.entries[g.id] == g.(depth := r.entries[g.id].depth, parents := r.entries[g.id].parents, children := r.entries[g.id].children)
  {
    var m4 := Splice(g, gates);
    var r := InjectMap(g, gates, fuel);
    RecalcDepthsOnly(m4, g.id, fuel);
    assert m4.entries[g.id].(depth := g.depth, parents := g.parents, children := g.children) == g;
    assert r.entries[g.id] == m4.entries[g.id].(depth := r.entries[g.id].depth);
  }

  /** `ejectGate` with each parent recorded for a qubit only when deeper than the one already there. */
  function Eject(g: Gate, gates: seq<Gate>, fuel: nat): seq<Gate> {
    EjectMap(g, gates, Deepest, fuel).Values()
  }

  /** `gates.find(g => g.id === id)`: a gate with that id, when there is one. */
  function Find(gates: seq<Gate>, id: string): (r: Option<Gate>)
    ensures r.None? <==> id !in Ids(gates)
    ensures r.Some? ==> r.value.id == id
  {
    if gates == [] then None
    else if gates[0].id == id then Some(gates[0])
    else
      assert Ids(gates) == [gates[0].id] + Ids(gates[1..]);
      Find(gates[1..], id)
  }

  /** `gates[i]` is the first gate carrying `id`. */
  predicate FirstWith(gates: seq<Gate>, id: string, i: int) {
    0 <= i < |gates| && gates[i].id == id && forall k | 0 <= k < i :: gates[k].id != id
  }

  /** The gate found is the first one with that id. */
  lemma {:induction false} FindFirst(gates: seq<Gate>, id: string)
    requires id in Ids(gates)
    ensures exists i :: FirstWith(gates, id, i) && Find(gates, id) == Some(gates[i])
  {
    if gates[0].id == id {
      assert FirstWith(gates, id, 0);
    } else {
      var rest := gates[1..];
      assert Ids(gates) == [gates[0].id] + Ids(rest);
      FindFirst(rest, id);
      var i :| FirstWith(rest, id, i) && Find(rest, id) == Some(rest[i]);
      assert FirstWith(gates, id, i + 1) by {
        forall k | 0 <= k < i + 1 ensures gates[k].id != id {
          if k > 0 {
            assert gates[k] == rest[k - 1];
          }
        }
      }
    }
  }

  /** `removeGate`: the input when no gate has the id, otherwise that gate ejected. */
  function Removed(id: string, gates: seq<Gate>, fuel: nat): seq<Gate> {
    match Find(gates, id)
    case None => gates
    case Some(g) => Eject(g, gates, fuel)
  }

  /**
   * `moveGate`: the input when no gate has the id; otherwise the gate is
   * ejected and injected again at `targetDepth` on the qubits `arrays`
   * gives it (the contiguous arrays anchored at the target qubit).
   */
  function Moved(id: string, gates: seq<Gate>, targetDepth: int, arrays: QubitArrays, fuel: nat): seq<Gate> {
    match Find(gates, id)
    case None => gates
    case Some(g) =>
      var moved := g.(depth := targetDepth, targets := arrays.targets, controls := arrays.controls);
      Inject(moved, Eject(g, gates, fuel), fuel)
  }

  /** Removing an id no gate carries returns the input; otherwise exactly that id leaves the list, the rest keeping their order. */
  lemma RemoveGateIds(id: string, gates: seq<Gate>, fuel: nat)
    requires Distinct(Ids(gates))
    ensures id !in Ids(gates) ==> Removed(id, gates, fuel) == gates
    ensures Ids(Removed(id, gates, fuel)) == Without(Ids(gates), id)
  {
    WithoutPreserves(Ids(gates), id);
    if id in Ids(gates) {
      var g := Find(gates, id).value;
      EjectKeepsOrder(g, gates, Deepest, fuel);
    }
  }

  /** Moving an id no gate carries returns the input; otherwise that id moves to the end of the list, the rest keeping their order. */
  lemma MoveGateIds(id: string, gates: seq<Gate>, targetDepth: int, arrays: QubitArrays, fuel: nat)
    requires Distinct(Ids(gates))
    ensures id !in Ids(gates) ==> Moved(id, gates, targetDepth, arrays, fuel) == gates
    ensures id in Ids(gates) ==> Ids(Moved(id, gates, targetDepth, arrays, fuel)) == Without(Ids(gates), id) + [id]
  {
    if id in Ids(gates) {
      var g := Find(gates, id).value;
      var moved := g.(depth := targetDepth, targets := arrays.targets, controls := arrays.controls);
      var rest := Eject(g, gates, fuel);
      EjectKeepsOrder(g, gates, Deepest, fuel);
      WithoutPreserves(Ids(gates), id);
      InjectAppends(moved, rest, fuel);
    }
  }

  /** Some gate of `r` has the id, the template and the qubits given. */
  predicate HasGate(r: seq<Gate>, id: string, info: GateInfo, targets: seq<int>, controls: seq<int>) {
    exists x <- r :: x.id == id && x.info == info && x.targets == targets && x.controls == controls
  }

  /** The list `injectGate` returns holds the new gate, with its template and qubits. */
  lemma InjectHasGate(g: Gate, gates: seq<Gate>, fuel: nat)
    ensures HasGate(Inject(g, gates, fuel), g.id, g.info, g.targets, g.controls)
  {
    var m := InjectMap(g, gates, fuel);
    InjectStoresGate(g, gates, fuel);
    ValueInValues(m, g.id);
  }

  /** The moved gate keeps its identity and template, and takes the given qubits. */
  lemma MoveGatePlaces(id: string, gates: seq<Gate>, targetDepth: int, arrays: QubitArrays, fuel: nat)
    requires id in Ids(gates)
    ensures HasGate(Moved(id, gates, targetDepth, arrays, fuel), id, Find(gates, id).value.info, arrays.targets, arrays.controls)
  {
    var g := Find(gates, id).value;
    var moved := g.(depth := targetDepth, targets := arrays.targets, controls := arrays.controls);
    InjectHasGate(moved, Eject(g, gates, fuel), fuel);
  }
}
