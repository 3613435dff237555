/**
 * The drop rules of the circuit canvas: a gate of `qubits` consecutive qubits
 * may be dropped at a column and start qubit when it stays on the grid and
 * does not overlap another gate in that column.
 *
 * The renderer reads each placed gate's start qubit and qubit count; the
 * placed-gate record below carries exactly those.
 */
module Renderer {
  import opened Wrappers

  datatype Placement = Placement(id: string, depth: int, qubit: int, size: int)

  /** Whether a placement of `qubits` qubits at `depth`, `qubit` runs into `pg`. */
  predicate CollidesWith(pg: Placement, depth: int, qubit: int, qubits: int, excludeId: Option<string>) {
    if excludeId.Some? && pg.id == excludeId.value then false
    else if pg.depth != depth then false
    else
      var end1 := qubit + qubits - 1;
      var end2 := pg.qubit + pg.size - 1;
      !(end1 < pg.qubit || end2 < qubit)
  }

  /** `hasCollision`: whether some placed gate collides. */
  function HasCollision(placed: seq<Placement>, depth: int, qubit: int, qubits: int, excludeId: Option<string>): (r: bool)
    ensures r <==> exists i | 0 <= i < |placed| :: CollidesWith(placed[i], depth, qubit, qubits, excludeId)
  {
    if placed == [] then false
    else if CollidesWith(placed[0], depth, qubit, qubits, excludeId) then true
    else
      var r := HasCollision(placed[1..], depth, qubit, qubits, excludeId);
      assert forall i | 1 <= i < |placed| :: placed[i] == placed[1..][i - 1];
      r
  }

  /** Whether the qubit `k` lies under a gate of `size` qubits starting at `start`. */
  predicate Covers(start: int, size: int, k: int) {
    start <= k <= start + size - 1
  }

  /**
   * For gates of at least one qubit, a collision is exactly a gate in the
   * same column, not the excluded one, whose qubit range shares a qubit
   * with the dropped gate's.
   */
  lemma {:induction false} CollisionMeansSharedQubit(pg: Placement, depth: int, qubit: int, qubits: int, excludeId: Option<string>)
    requires qubits >= 1 && pg.size >= 1
    ensures CollidesWith(pg, depth, qubit, qubits, excludeId) <==>
              && (excludeId.None? || pg.id != excludeId.value)
              && pg.depth == depth
              && exists k :: Covers(qubit, qubits, k) && Covers(pg.qubit, pg.size, k)
  {
    if (excludeId.None? || pg.id != excludeId.value) && pg.depth == depth {
      if CollidesWith(pg, depth, qubit, qubits, excludeId) {
        var k := if qubit >= pg.qubit then qubit else pg.qubit;
        assert Covers(qubit, qubits, k) && Covers(pg.qubit, pg.size, k);
      }
    }
  }

  /** `isValid`: on the grid, inside the columns, and free of collisions. */
  function IsValid(placed: seq<Placement>, numQubits: int, maxDepth: int, depth: int, qubit: int, qubits: int, excludeId: Option<string>): (r: bool)
    ensures r <==> && 0 <= depth < maxDepth && 0 <= qubit && qubit + qubits <= numQubits
                   && forall i | 0 <= i < |placed| :: !CollidesWith(placed[i], depth, qubit, qubits, excludeId)
  {
    if depth < 0 || depth >= maxDepth then false
    else if qubit < 0 || qubit + qubits > numQubits then false
    else !HasCollision(placed, depth, qubit, qubits, excludeId)
  }

  /** No two placed gates in the same column share a qubit. */
  predicate Disjoint(placed: seq<Placement>) {
    forall i, j | 0 <= i < j < |placed| ::
      placed[i].depth == placed[j].depth ==>
        placed[j].qubit + placed[j].size - 1 < placed[i].qubit || placed[i].qubit + placed[i].size - 1 < placed[j].qubit
  }

  /** Dropping a gate where `IsValid` allows it keeps the layout free of overlaps. */
  lemma {:induction false} ValidDropKeepsDisjoint(placed: seq<Placement>, numQubits: int, maxDepth: int, p: Placement)
    requires Disjoint(placed)
    requires IsValid(placed, numQubits, maxDepth, p.depth, p.qubit, p.size, None)
    ensures Disjoint(placed + [p])
  {
    var s := placed + [p];
    forall i, j | 0 <= i < j < |s| && s[i].depth == s[j].depth
      ensures s[j].qubit + s[j].size - 1 < s[i].qubit || s[i].qubit + s[i].size - 1 < s[j].qubit
    {
      if j == |placed| {
        assert !CollidesWith(placed[i], p.depth, p.qubit, p.size, None);
      }
    }
  }
}
