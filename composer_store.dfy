/**
 * The composer's store: the open project's name, its circuits in tab order
 * and the id of the active circuit (`''` when there is none). Adding a
 * circuit activates it; removing the active circuit activates a neighbour.
 */
module ComposerStore {
  import opened Wrappers
  import opened Gates
  import opened Sequences

  /** A circuit of a project (its optional metadata and simulation results omitted). */
  datatype CircuitInfo = CircuitInfo(id: string, name: string, numQubits: int, gates: seq<Item>)

  /** `Partial<CircuitInfo>`: the fields an update sets. */
  datatype CircuitPatch = CircuitPatch(id: Option<string>, name: Option<string>, numQubits: Option<int>, gates: Option<seq<Item>>)

  datatype ComposerState = ComposerState(projectName: string, circuits: seq<CircuitInfo>, activeCircuitId: string)

  const NoCircuit := ""

  function Initial(): (s: ComposerState)
    ensures s.circuits == [] && s.activeCircuitId == NoCircuit
  {
    ComposerState("Untitled Project", [], NoCircuit)
  }

  /** No two circuits share an id. */
  predicate DistinctIds(cs: seq<CircuitInfo>) {
    forall i, j | 0 <= i < j < |cs| :: cs[i].id != cs[j].id
  }

  predicate HasId(cs: seq<CircuitInfo>, id: string) {
    exists c <- cs :: c.id == id
  }

  /**
   * The selection is sound: with no circuits nothing is active, otherwise
   * the active id names one of the circuits, and ids are unique.
   */
  predicate SelectionSound(s: ComposerState) {
    DistinctIds(s.circuits)
    && (s.circuits == [] ==> s.activeCircuitId == NoCircuit)
    && (s.circuits != [] ==> HasId(s.circuits, s.activeCircuitId))
  }

  // ------------------------------------------------------------------- add

  /** `addCircuit`: appends the circuit and makes it the active one. */
  function Added(s: ComposerState, c: CircuitInfo): (r: ComposerState)
    ensures r.circuits == s.circuits + [c] && r.activeCircuitId == c.id && r.projectName == s.projectName
  {
    s.(circuits := s.circuits + [c], activeCircuitId := c.id)
  }

  /** Adding a circuit under a fresh id keeps the selection sound. */
  lemma AddCircuitValid(s: ComposerState, c: CircuitInfo)
    requires SelectionSound(s) && !HasId(s.circuits, c.id)
    ensures SelectionSound(Added(s, c))
  {
    var r := Added(s, c);
    assert r.circuits[|s.circuits|] == c;
    forall i, j | 0 <= i < j < |r.circuits|
      ensures r.circuits[i].id != r.circuits[j].id
    {
      if j == |s.circuits| {
        assert r.circuits[i] == s.circuits[i];
      }
    }
  }

  // ---------------------------------------------------------------- remove

  /** `filter(c => c.id !== id)`. */
  function WithoutId(cs: seq<CircuitInfo>, id: string): (r: seq<CircuitInfo>)
    ensures |r| <= |cs|
    ensures forall c :: c in r <==> c in cs && c.id != id
    ensures r == Filter(cs, (c: CircuitInfo) => c.id != id)
  {
    if cs == [] then []
    else
      var rest := WithoutId(cs[1..], id);
      assert forall c :: c in cs <==> c == cs[0] || c in cs[1..];
      if cs[0].id == id then rest else [cs[0]] + rest
  }

  /** `findIndex(c => c.id === id)`: the first position holding `id`, or -1. */
  function FindIndex(cs: seq<CircuitInfo>, id: string): (r: int)
    ensures -1 <= r < |cs|
    ensures r == -1 <==> !HasId(cs, id)
    ensures r >= 0 ==> cs[r].id == id && forall j | 0 <= j < r :: cs[j].id != id
  {
    if cs == [] then -1
    else if cs[0].id == id then 0
    else
      var k := FindIndex(cs[1..], id);
      assert forall c <- cs[1..] :: c in cs;
      assert HasId(cs, id) ==> HasId(cs[1..], id) by {
        if HasId(cs, id) {
          var c :| c in cs && c.id == id;
          assert c != cs[0];
        }
      }
      if k == -1 then -1 else k + 1
  }

  /**
   * `removeCircuit`: drops every circuit with the id. When none is left
   * nothing is active; when the active circuit was removed the circuit after
   * it becomes active, or the one before it if it was last; otherwise the
   * active id is kept.
   */
  function Removed(s: ComposerState, id: string): (r: ComposerState)
    ensures r.circuits == WithoutId(s.circuits, id) && r.projectName == s.projectName
  {
    var prev := s.circuits;
    var filtered := WithoutId(prev, id);
    var active :=
      if |filtered| == 0 then NoCircuit
      else if s.activeCircuitId == id then
        var removed := FindIndex(prev, id);
        if removed < |prev| - 1 then prev[removed + 1].id
        else
          LastHasPredecessor(prev, id);
          prev[removed - 1].id
      else s.activeCircuitId;
    ComposerState(s.projectName, filtered, active)
  }

  /**
   * When a circuit survives the removal and the removed id is found last,
   * the tab before it exists: `prev[removedIndex - 1]` is never out of range.
   */
  lemma LastHasPredecessor(prev: seq<CircuitInfo>, id: string)
    requires WithoutId(prev, id) != [] && FindIndex(prev, id) >= |prev| - 1
    ensures FindIndex(prev, id) >= 1
  {
    var d :| d in WithoutId(prev, id);
    var j :| 0 <= j < |prev| && prev[j] == d;
    assert prev[j].id != id;
  }

  /** Removing the last remaining circuits leaves nothing active. */
  lemma RemoveLastClearsActive(s: ComposerState, id: string)
    requires WithoutId(s.circuits, id) == []
    ensures Removed(s, id).activeCircuitId == NoCircuit
  {
  }

  /** Removing another circuit keeps the active one. */
  lemma RemoveOtherKeepsActive(s: ComposerState, id: string)
    requires s.activeCircuitId != id && WithoutId(s.circuits, id) != []
    ensures Removed(s, id).activeCircuitId == s.activeCircuitId
  {
  }

  /**
   * Removing the active circuit activates its successor, or its predecessor
   * when it was the last tab.
   */
  lemma RemoveActiveSelectsNeighbour(s: ComposerState, i: int)
    requires 0 <= i < |s.circuits| && DistinctIds(s.circuits)
    requires s.activeCircuitId == s.circuits[i].id && |s.circuits| >= 2
    ensures i < |s.circuits| - 1 ==> Removed(s, s.circuits[i].id).activeCircuitId == s.circuits[i + 1].id
    ensures i == |s.circuits| - 1 ==> Removed(s, s.circuits[i].id).activeCircuitId == s.circuits[i - 1].id
  {
    var id := s.circuits[i].id;
    var other := if i == 0 then s.circuits[1] else s.circuits[0];
    assert other.id != id;
    assert other in WithoutId(s.circuits, id);
    var k := FindIndex(s.circuits, id);
    assert k == i by {
      assert HasId(s.circuits, id) by { assert s.circuits[i] in s.circuits; }
    }
  }

  /** Removing a circuit keeps the selection sound. */
  lemma RemoveCircuitValid(s: ComposerState, id: string)
    requires SelectionSound(s)
    ensures SelectionSound(Removed(s, id))
  {
    var r := Removed(s, id);
    WithoutIdDistinct(s.circuits, id);
    if r.circuits != [] {
      if s.activeCircuitId == id {
        var c :| c in s.circuits && c.id == id;
        var k := FindIndex(s.circuits, id);
        if k >= |s.circuits| - 1 {
          LastHasPredecessor(s.circuits, id);
        }
        var n := if k < |s.circuits| - 1 then k + 1 else k - 1;
        assert s.circuits[n] in r.circuits;
      } else {
        var c :| c in s.circuits && c.id == s.activeCircuitId;
        assert c in r.circuits;
      }
    }
  }

  lemma {:induction false} WithoutIdDistinct(cs: seq<CircuitInfo>, id: string)
    requires DistinctIds(cs)
    ensures DistinctIds(WithoutId(cs, id))
  {
    if cs != [] {
      WithoutIdDistinct(cs[1..], id);
      var rest := WithoutId(cs[1..], id);
      if cs[0].id != id {
        var r := [cs[0]] + rest;
        forall i, j | 0 <= i < j < |r|
          ensures r[i].id != r[j].id
        {
          if i == 0 {
            assert r[j] in rest;
            var k :| 1 <= k < |cs| && cs[k] == r[j];
          }
        }
      }
    }
  }

  // ---------------------------------------------------------------- update

  /** `{ ...c, ...updates }`. */
  function Patched(c: CircuitInfo, u: CircuitPatch): CircuitInfo {
    CircuitInfo(u.id.GetOr(c.id), u.name.GetOr(c.name), u.numQubits.GetOr(c.numQubits), u.gates.GetOr(c.gates))
  }

  /** `updateCircuit`: patches the circuits with the id and leaves the others as they are. */
  function Updated(s: ComposerState, id: string, u: CircuitPatch): (r: ComposerState)
    ensures |r.circuits| == |s.circuits| && r.activeCircuitId == s.activeCircuitId && r.projectName == s.projectName
    ensures forall i | 0 <= i < |s.circuits| && s.circuits[i].id != id :: r.circuits[i] == s.circuits[i]
    ensures forall i | 0 <= i < |s.circuits| && s.circuits[i].id == id ::
              r.circuits[i].name == u.name.GetOr(s.circuits[i].name)
              && r.circuits[i].numQubits == u.numQubits.GetOr(s.circuits[i].numQubits)
              && r.circuits[i].gates == u.gates.GetOr(s.circuits[i].gates)
              && r.circuits[i].id == u.id.GetOr(id)
  {
    s.(circuits := seq(|s.circuits|, i requires 0 <= i < |s.circuits| =>
                         if s.circuits[i].id == id then Patched(s.circuits[i], u) else s.circuits[i]))
  }

  /** An update that keeps ids, applied twice, is the same as applied once. */
  lemma UpdateIdempotent(s: ComposerState, id: string, u: CircuitPatch)
    requires u.id.None?
    ensures Updated(Updated(s, id, u), id, u) == Updated(s, id, u)
  {
  }

  /** An update that keeps ids keeps the selection sound. */
  lemma UpdateCircuitValid(s: ComposerState, id: string, u: CircuitPatch)
    requires SelectionSound(s) && u.id.None?
    ensures SelectionSound(Updated(s, id, u))
  {
    var r := Updated(s, id, u);
    assert forall i | 0 <= i < |s.circuits| :: r.circuits[i].id == s.circuits[i].id;
    if s.circuits != [] {
      var c :| c in s.circuits && c.id == s.activeCircuitId;
      var i :| 0 <= i < |s.circuits| && s.circuits[i] == c;
      assert r.circuits[i] in r.circuits;
    }
  }

  // ----------------------------------------------------------------- store

  class Store {
    var projectName: string
    var circuits: seq<CircuitInfo>
    var activeCircuitId: string

    function State(): ComposerState
      reads this
    {
      ComposerState(projectName, circuits, activeCircuitId)
    }

    ghost predicate Valid()
      reads this
    {
      SelectionSound(State())
    }

    constructor ()
      ensures Valid() && State() == Initial()
    {
      projectName := "Untitled Project";
      circuits := [];
      activeCircuitId := NoCircuit;
    }

    method AddCircuit(c: CircuitInfo)
      modifies this
      ensures State() == Added(old(State()), c)
      ensures old(Valid()) && !HasId(old(circuits), c.id) ==> Valid()
    {
      if Valid() && !HasId(circuits, c.id) {
        AddCircuitValid(State(), c);
      }
      circuits := circuits + [c];
      activeCircuitId := c.id;
    }

    method RemoveCircuit(id: string)
      modifies this
      ensures State() == Removed(old(State()), id)
      ensures old(Valid()) ==> Valid()
    {
      if Valid() {
        RemoveCircuitValid(State(), id);
      }
      var r := Removed(State(), id);
      circuits := r.circuits;
      activeCircuitId := r.activeCircuitId;
    }

    method UpdateCircuit(id: string, u: CircuitPatch)
      modifies this
      ensures State() == Updated(old(State()), id, u)
      ensures old(Valid()) && u.id.None? ==> Valid()
    {
      if Valid() && u.id.None? {
        UpdateCircuitValid(State(), id, u);
      }
      circuits := Updated(State(), id, u).circuits;
    }
  }
}
