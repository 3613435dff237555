/**
 * The operations of the circuit editor's dependency-graph hook, written the
 * way the hook runs them: a working copy of the gates is built in a map,
 * updated step by step in loops and by the recursive depth recalculation,
 * and read back out in map order. Each method is proved to compute the
 * function of the `CircuitDag` module that states what the operation does;
 * the properties of the operations are proved there.
 */
module CircuitDagHook {
  import opened Wrappers
  import opened JsMap
  import opened Gates
  import opened CircuitDag

  /** `createGatesMap`: stores each gate under its id, in list order. */
  method CreateGatesMap(gates: seq<Gate>) returns (m: GatesMap)
    ensures m == GatesMapOf(gates)
    ensures Keyed(m) && forall k :: k in m.entries <==> k in Ids(gates)
  {
    m := Empty();
    for i := 0 to |gates|
      invariant m == GatesMapOf(gates[..i])
    {
      GatesMapOfStep(gates, i);
      m := m.Set(gates[i].id, gates[i]);
    }
    assert gates[..|gates|] == gates;
  }

  /** `Math.max(-1, ...parentDepths)`, a parent missing from the map counting as -1. */
  method MaxDepthOfParents(parents: seq<string>, m: GatesMap) returns (d: int)
    ensures d == MaxParentDepth(parents, m)
    ensures d >= -1 && forall p <- parents | p in m.entries :: m.entries[p].depth <= d
  {
    d := -1;
    for i := 0 to |parents|
      invariant d == MaxParentDepth(parents[..i], m)
    {
      MaxParentDepthStep(parents, m, i);
      var here := if parents[i] in m.entries then m.entries[parents[i]].depth else -1;
      if here > d {
        d := here;
      }
    }
    assert parents[..|parents|] == parents;
    MaxParentDepthMeaning(parents, m);
  }

  /** The first two lines of `recalculateDepth`: the gate goes one deeper than its deepest parent. */
  method RelevelGate(m: GatesMap, id: string) returns (r: GatesMap)
    requires m.Valid() && id in m.entries
    ensures r == Relevel(m, id)
  {
    var gate := m.entries[id];
    var d := MaxDepthOfParents(gate.parents, m);
    r := m.Set(id, gate.(depth := d + 1));
  }

  /**
   * `recalculateDepth`: sets the gate one deeper than its deepest parent and
   * recalculates each child in turn, with `fuel` bounding the recursion.
   */
  method RecalculateDepth(m: GatesMap, id: string, fuel: nat) returns (r: GatesMap)
    requires m.Valid()
    ensures r == Recalc(m, id, fuel)
    decreases fuel, 0
  {
    if id !in m.entries {
      r := m;
    } else {
      var m1 := RelevelGate(m, id);
      if fuel == 0 {
        r := m1;
      } else {
        r := RecalculateChildren(m1, m.entries[id].children, fuel - 1);
        RecalcThroughChildren(m, id, fuel, m1, r);
      }
    }
  }

  /** `gate.children.forEach(childId => recalculateDepth(childId, gatesMap))`. */
  method RecalculateChildren(m: GatesMap, ids: seq<string>, fuel: nat) returns (r: GatesMap)
    requires m.Valid()
    ensures r == RecalcAll(m, ids, fuel)
    decreases fuel, |ids| + 1
  {
    r := m;
    for i := 0 to |ids|
      invariant r == RecalcAll(m, ids[..i], fuel)
    {
      RecalcAllStep(m, ids, i, fuel);
      r := RecalculateDepth(r, ids[i], fuel);
    }
    assert ids[..|ids|] == ids;
  }

  lemma RecalcThroughChildren(m: GatesMap, id: string, fuel: nat, m1: GatesMap, r: GatesMap)
    requires m.Valid() && id in m.entries && fuel > 0
    requires m1 == Relevel(m, id) && IsRecalcAll(m1, m.entries[id].children, fuel - 1, r)
    ensures r == Recalc(m, id, fuel)
  {
  }

  lemma RecalcAllStep(m: GatesMap, ids: seq<string>, i: nat, fuel: nat)
    requires m.Valid() && i < |ids|
    ensures RecalcAll(m, ids[..i + 1], fuel) == Recalc(RecalcAll(m, ids[..i], fuel), ids[i], fuel)
  {
    assert ids[..i + 1][..i] == ids[..i];
  }

  /**
   * `forEach` over the qubits a gate shares with another: each qubit takes
   * `gate` when it has no gate yet or `gate` replaces its gate under
   * `policy`.
   */
  method PickQubits(qm: QubitMap, gate: Gate, qs: seq<int>, policy: Policy) returns (r: QubitMap)
    requires qm.Valid()
    ensures r == Pick(qm, gate, qs, policy)
  {
    r := qm;
    for j := 0 to |qs|
      invariant r == Pick(qm, gate, qs[..j], policy)
    {
      PickStep(qm, gate, qs, j, policy);
      var q := qs[j];
      if q !in r.entries || Replaces(policy, gate, r.entries[q]) {
        r := r.Set(q, gate);
      }
    }
    assert qs[..|qs|] == qs;
  }

  /** The scan of `injectGate` over the map's gates, filling the nearest-parent and nearest-child tables. */
  method ScanGates(vals: seq<Gate>, g: Gate) returns (near: Nearest)
    ensures near == Scan(vals, g)
  {
    near := Nearest(Empty(), Empty());
    for i := 0 to |vals|
      invariant near == Scan(vals[..i], g)
    {
      ScanStep(vals, i, g);
      var gate := vals[i];
      var shared := SharedQubits(gate, g);
      if shared != [] {
        if gate.depth < g.depth {
          var ps := PickQubits(near.parents, gate, shared, Deepest);
          near := near.(parents := ps);
        } else {
          var cs := PickQubits(near.children, gate, shared, Shallowest);
          near := near.(children := cs);
        }
      }
    }
    assert vals[..|vals|] == vals;
  }

  /** The loop over the parent table: each parent and child recorded on one qubit are unlinked. */
  method UnbridgeGates(m0: GatesMap, near: Nearest) returns (m: GatesMap)
    requires m0.Valid()
    ensures m == Unbridge(m0, near, near.parents.keys)
  {
    var qs := near.parents.keys;
    m := m0;
    for i := 0 to |qs|
      invariant m == Unbridge(m0, near, qs[..i])
    {
      UnbridgeStep(m0, near, qs, i);
      var q := qs[i];
      if q in near.parents.entries && q in near.children.entries {
        var p := near.parents.entries[q].id;
        var c := near.children.entries[q].id;
        if p in m.entries && c in m.entries {
          m := WithParents(m, c, Without(m.entries[c].parents, p));
          m := WithChildren(m, p, Without(m.entries[p].children, c));
        }
      }
    }
    assert qs[..|qs|] == qs;
  }

  /** `Array.from(new Set(gates), g => g.id)`: the ids of the recorded gates, each once, in first-seen order. */
  method CollectIds(vs: seq<Gate>) returns (ids: seq<string>)
    ensures ids == DistinctIds(vs)
    ensures Distinct(ids) && forall id :: id in ids <==> exists v <- vs :: v.id == id
  {
    ids := [];
    for i := 0 to |vs|
      invariant ids == DistinctIds(vs[..i])
    {
      DistinctIdsStep(vs, i);
      if vs[i].id !in ids {
        ids := ids + [vs[i].id];
      }
    }
    assert vs[..|vs|] == vs;
  }

  /** The parents loop of `injectGate`: each parent lacking the new id gains it as a child. */
  method LinkParentGates(m0: GatesMap, pids: seq<string>, newId: string) returns (m: GatesMap)
    requires m0.Valid()
    ensures m == LinkParents(m0, pids, newId)
  {
    m := m0;
    for i := 0 to |pids|
      invariant m == LinkParents(m0, pids[..i], newId)
    {
      LinkParentsStep(m0, pids, i, newId);
      var p := pids[i];
      if p in m.entries && newId !in m.entries[p].children {
        m := WithChildren(m, p, m.entries[p].children + [newId]);
      }
    }
    assert pids[..|pids|] == pids;
  }

  /** The children loop of `injectGate`: each child lacking the new id gains it as a parent. */
  method LinkChildGates(m0: GatesMap, cids: seq<string>, newId: string) returns (m: GatesMap)
    requires m0.Valid()
    ensures m == LinkChildren(m0, cids, newId)
  {
    m := m0;
    for i := 0 to |cids|
      invariant m == LinkChildren(m0, cids[..i], newId)
    {
      LinkChildrenStep(m0, cids, i, newId);
      var c := cids[i];
      if c in m.entries && newId !in m.entries[c].parents {
        m := WithParents(m, c, m.entries[c].parents + [newId]);
      }
    }
    assert cids[..|cids|] == cids;
  }

  /**
   * `injectGate`: splices `g` between its nearest earlier and later gates
   * on each shared qubit, recalculates depths from it, and returns the gates
   * in map order.
   */
  method InjectGate(g: Gate, gates: seq<Gate>, fuel: nat) returns (r: seq<Gate>)
    ensures r == Inject(g, gates, fuel)
    ensures Distinct(Ids(gates)) && g.id !in Ids(gates) ==> |r| == |gates| + 1
  {
    var m0 := CreateGatesMap(gates);
    var near := ScanGates(m0.Values(), g);
    var m := UnbridgeGates(m0, near);
    var pids := CollectIds(near.parents.Values());
    var cids := CollectIds(near.children.Values());
    m := LinkParentGates(m, pids, g.id);
    m := LinkChildGates(m, cids, g.id);
    m := m.Set(g.id, g.(parents := pids, children := cids));
    assert m == Splice(g, gates);
    m := RecalculateDepth(m, g.id, fuel);
    r := m.Values();
    if Distinct(Ids(gates)) && g.id !in Ids(gates) {
      InjectAppends(g, gates, fuel);
    }
  }

  /** The parents loop of `ejectGate`: each parent in the map drops `g` as a child and is recorded on the qubits it shares with `g`. */
  method DetachParentGates(m0: GatesMap, g: Gate) returns (d: Detached)
    requires m0.Valid()
    ensures d == DetachParents(m0, g, g.parents, Deepest)
  {
    var m := m0;
    var qm: QubitMap := Empty();
    for i := 0 to |g.parents|
      invariant Detached(m, qm) == DetachParents(m0, g, g.parents[..i], Deepest)
    {
      DetachParentsStep(m0, g, g.parents, i);
      var pid := g.parents[i];
      if pid in m.entries {
        var parent := m.entries[pid];
        m := WithChildren(m, pid, Without(parent.children, g.id));
        qm := PickQubits(qm, parent, KeepIn(InvolvedQubits(parent), InvolvedQubits(g)), Deepest);
      }
    }
    assert g.parents[..|g.parents|] == g.parents;
    d := Detached(m, qm);
  }

  /** The inner loop over a child's shared qubits: each recorded parent not yet a parent of the child is linked to it both ways. */
  method ReattachQubits(m0: GatesMap, qm: QubitMap, cid: string, qs: seq<int>) returns (m: GatesMap)
    requires m0.Valid() && cid in m0.entries
    ensures m == Reattach(m0, qm, cid, qs)
  {
    m := m0;
    for j := 0 to |qs|
      invariant m == Reattach(m0, qm, cid, qs[..j])
    {
      ReattachQubitStep(m0, qm, cid, qs, j);
      var q := qs[j];
      if q in qm.entries {
        var pid := qm.entries[q].id;
        if pid in m.entries && pid !in m.entries[cid].parents {
          m := WithParents(m, cid, m.entries[cid].parents + [pid]);
          m := WithChildren(m, pid, m.entries[pid].children + [cid]);
        }
      }
    }
    assert qs[..|qs|] == qs;
  }

  /** The children loop of `ejectGate`: each child in the map drops `g` as a parent, is relinked and has its depth recalculated. */
  method ReattachChildGates(m0: GatesMap, qm: QubitMap, g: Gate, fuel: nat) returns (m: GatesMap)
    requires m0.Valid()
    ensures m == ReattachChildren(m0, qm, g, g.children, fuel)
  {
    m := m0;
    for i := 0 to |g.children|
      invariant m == ReattachChildren(m0, qm, g, g.children[..i], fuel)
    {
      ReattachChildrenStep(m0, qm, g, g.children, i, fuel);
      var cid := g.children[i];
      if cid in m.entries {
        var child := m.entries[cid];
        var m1 := WithParents(m, cid, Without(child.parents, g.id));
        var m2 := ReattachQubits(m1, qm, cid, KeepIn(InvolvedQubits(child), InvolvedQubits(g)));
        m := RecalculateDepth(m2, cid, fuel);
      }
    }
    assert g.children[..|g.children|] == g.children;
  }

  /**
   * `ejectGate`: detaches `g` from its parents and children, links each
   * child to the deepest parent of `g` on every qubit they share, deletes
   * `g` and returns the gates in map order.
   */
  method EjectGate(g: Gate, gates: seq<Gate>, fuel: nat) returns (r: seq<Gate>)
    ensures r == Eject(g, gates, fuel)
    ensures Distinct(Ids(gates)) ==> Ids(r) == Without(Ids(gates), g.id)
  {
    var m0 := CreateGatesMap(gates);
    var d := DetachParentGates(m0, g);
    var m := ReattachChildGates(d.m, d.qm, g, fuel);
    m := m.Delete(g.id);
    r := m.Values();
    if Distinct(Ids(gates)) {
      EjectKeepsOrder(g, gates, Deepest, fuel);
    }
  }

  /** `gates.find(g => g.id === id)`. */
  method FindGate(gates: seq<Gate>, id: string) returns (r: Option<Gate>)
    ensures r == Find(gates, id)
    ensures r.None? <==> id !in Ids(gates)
  {
    for i := 0 to |gates|
      invariant Find(gates[i..], id) == Find(gates, id)
    {
      assert gates[i..][1..] == gates[i + 1..];
      if gates[i].id == id {
        return Some(gates[i]);
      }
    }
    return None;
  }

  /** `removeGate`: the input when no gate has the id, otherwise that gate ejected. */
  method RemoveGate(id: string, gates: seq<Gate>, fuel: nat) returns (r: seq<Gate>)
    ensures r == Removed(id, gates, fuel)
    ensures id !in Ids(gates) ==> r == gates
  {
    var found := FindGate(gates, id);
    match found {
      case None => r := gates;
      case Some(g) => r := EjectGate(g, gates, fuel);
    }
  }

  /** `moveGate`: the input when no gate has the id, otherwise that gate ejected and injected at the new place. */
  method MoveGate(id: string, gates: seq<Gate>, targetDepth: int, arrays: QubitArrays, fuel: nat) returns (r: seq<Gate>)
    ensures r == Moved(id, gates, targetDepth, arrays, fuel)
    ensures id !in Ids(gates) ==> r == gates
  {
    var found := FindGate(gates, id);
    match found {
      case None => r := gates;
      case Some(g) =>
        var rest := EjectGate(g, gates, fuel);
        var moved := g.(depth := targetDepth, targets := arrays.targets, controls := arrays.controls);
        r := InjectGate(moved, rest, fuel);
    }
  }

  // ---------------------------------------------------------------------
  // One step of each loop: the specifying function on a prefix one longer
  // ---------------------------------------------------------------------

  lemma GatesMapOfStep(gates: seq<Gate>, i: nat)
    requires i < |gates|
    ensures GatesMapOf(gates[..i + 1]) == GatesMapOf(gates[..i]).Set(gates[i].id, gates[i])
  {
    assert gates[..i + 1][..i] == gates[..i];
  }

  lemma MaxParentDepthStep(parents: seq<string>, m: GatesMap, i: nat)
    requires i < |parents|
    ensures var rest := MaxParentDepth(parents[..i], m);
            var here := if parents[i] in m.entries then m.entries[parents[i]].depth else -1;
            MaxParentDepth(parents[..i + 1], m) == if here > rest then here else rest
  {
    assert parents[..i + 1][..i] == parents[..i];
  }

  lemma PickStep(qm: QubitMap, gate: Gate, qs: seq<int>, j: nat, policy: Policy)
    requires qm.Valid() && j < |qs|
    ensures var prev := Pick(qm, gate, qs[..j], policy);
            var q := qs[j];
            Pick(qm, gate, qs[..j + 1], policy) ==
              if q !in prev.entries || Replaces(policy, gate, prev.entries[q]) then prev.Set(q, gate) else prev
  {
    assert qs[..j + 1][..j] == qs[..j];
  }

  lemma ScanStep(vals: seq<Gate>, i: nat, g: Gate)
    requires i < |vals|
    ensures var prev := Scan(vals[..i], g);
            var gate := vals[i];
            var shared := SharedQubits(gate, g);
            Scan(vals[..i + 1], g) ==
              if shared == [] then prev
              else if gate.depth < g.depth then prev.(parents := Pick(prev.parents, gate, shared, Deepest))
              else prev.(children := Pick(prev.children, gate, shared, Shallowest))
  {
    assert vals[..i + 1][..i] == vals[..i];
  }

  lemma UnbridgeStep(m0: GatesMap, near: Nearest, qs: seq<int>, i: nat)
    requires m0.Valid() && i < |qs|
    ensures var prev := Unbridge(m0, near, qs[..i]);
            var q := qs[i];
            Unbridge(m0, near, qs[..i + 1]) ==
              if q in near.parents.entries && q in near.children.entries
                 && near.parents.entries[q].id in prev.entries && near.children.entries[q].id in prev.entries
              then CutEdge(prev, near.parents.entries[q].id, near.children.entries[q].id)
              else prev
  {
    assert qs[..i + 1][..i] == qs[..i];
  }

  lemma DistinctIdsStep(vs: seq<Gate>, i: nat)
    requires i < |vs|
    ensures var prev := DistinctIds(vs[..i]);
            DistinctIds(vs[..i + 1]) == if vs[i].id in prev then prev else prev + [vs[i].id]
  {
    assert vs[..i + 1][..i] == vs[..i];
  }

  lemma LinkParentsStep(m0: GatesMap, pids: seq<string>, i: nat, newId: string)
    requires m0.Valid() && i < |pids|
    ensures var prev := LinkParents(m0, pids[..i], newId);
            var p := pids[i];
            LinkParents(m0, pids[..i + 1], newId) ==
              if p in prev.entries && newId !in prev.entries[p].children then WithChildren(prev, p, prev.entries[p].children + [newId]) else prev
  {
    assert pids[..i + 1][..i] == pids[..i];
  }

  lemma LinkChildrenStep(m0: GatesMap, cids: seq<string>, i: nat, newId: string)
    requires m0.Valid() && i < |cids|
    ensures var prev := LinkChildren(m0, cids[..i], newId);
            var c := cids[i];
            LinkChildren(m0, cids[..i + 1], newId) ==
              if c in prev.entries && newId !in prev.entries[c].parents then WithParents(prev, c, prev.entries[c].parents + [newId]) else prev
  {
    assert cids[..i + 1][..i] == cids[..i];
  }

  lemma DetachParentsStep(m0: GatesMap, g: Gate, pids: seq<string>, i: nat)
    requires m0.Valid() && i < |pids|
    ensures var prev := DetachParents(m0, g, pids[..i], Deepest);
            var pid := pids[i];
            DetachParents(m0, g, pids[..i + 1], Deepest) ==
              if pid !in prev.m.entries then prev
              else Detached(WithChildren(prev.m, pid, Without(prev.m.entries[pid].children, g.id)),
                            Pick(prev.qm, prev.m.entries[pid], KeepIn(InvolvedQubits(prev.m.entries[pid]), InvolvedQubits(g)), Deepest))
  {
    assert pids[..i + 1][..i] == pids[..i];
  }

  lemma ReattachQubitStep(m0: GatesMap, qm: QubitMap, cid: string, qs: seq<int>, j: nat)
    requires m0.Valid() && cid in m0.entries && j < |qs|
    ensures var prev := Reattach(m0, qm, cid, qs[..j]);
            var q := qs[j];
            Reattach(m0, qm, cid, qs[..j + 1]) ==
              if q !in qm.entries || qm.entries[q].id !in prev.entries || qm.entries[q].id in prev.entries[cid].parents then prev
              else LinkPair(prev, qm.entries[q].id, cid)
  {
    assert qs[..j + 1][..j] == qs[..j];
  }

  lemma ReattachChildrenStep(m0: GatesMap, qm: QubitMap, g: Gate, cids: seq<string>, i: nat, fuel: nat)
    requires m0.Valid() && i < |cids|
    ensures var prev := ReattachChildren(m0, qm, g, cids[..i], fuel);
            ReattachChildren(m0, qm, g, cids[..i + 1], fuel) ==
              if cids[i] !in prev.entries then prev else ReattachOne(prev, qm, g, cids[i], fuel)
  {
    assert cids[..i + 1][..i] == cids[..i];
  }
}
