/**
 * Making room in a column: the gates at or right of a depth that share a
 * qubit with the incoming gate are selected, then moved one column right (or
 * left) by id.
 */
module CircuitUtils {
  import opened Wrappers
  import opened Gates

  /** Whether `g` is picked by `getGatesToShift`. */
  predicate Selected(g: Gate, targetDepth: int, targetQubits: seq<int>, excludeId: Option<string>) {
    (excludeId.None? || g.id != excludeId.value)
    && g.depth >= targetDepth
    && SomeIn(InvolvedQubits(g), targetQubits)
  }

  /**
   * `getGatesToShift`: the ids of the selected gates, in list order.
   */
  function GatesToShift(gates: seq<Gate>, targetDepth: int, targetQubits: seq<int>, excludeId: Option<string>): (r: seq<string>)
    ensures |r| <= |gates|
    ensures forall id :: id in r <==> exists i | 0 <= i < |gates| :: gates[i].id == id && Selected(gates[i], targetDepth, targetQubits, excludeId)
  {
    if gates == [] then []
    else
      var last := gates[|gates| - 1];
      var rest := GatesToShift(gates[..|gates| - 1], targetDepth, targetQubits, excludeId);
      assert forall i | 0 <= i < |gates| - 1 :: gates[..|gates| - 1][i] == gates[i];
      if Selected(last, targetDepth, targetQubits, excludeId) then rest + [last.id] else rest
  }

  /**
   * The ids keep the list's order: for a list split in two, the ids picked
   * from the first part all come before those picked from the second.
   */
  lemma {:induction false} GatesToShiftInOrder(a: seq<Gate>, b: seq<Gate>, targetDepth: int, targetQubits: seq<int>, excludeId: Option<string>)
    ensures GatesToShift(a + b, targetDepth, targetQubits, excludeId)
            == GatesToShift(a, targetDepth, targetQubits, excludeId) + GatesToShift(b, targetDepth, targetQubits, excludeId)
    decreases |b|
  {
    if b == [] {
      assert a + b == a;
    } else {
      var front := b[..|b| - 1];
      assert (a + b)[..|a + b| - 1] == a + front;
      assert (a + b)[|a + b| - 1] == b[|b| - 1];
      GatesToShiftInOrder(a, front, targetDepth, targetQubits, excludeId);
    }
  }

  datatype Direction = Left | Right
  {
    function Delta(): int {
      if Right? then 1 else -1
    }
  }

  /** `shiftGates`: every gate whose id is listed moves one column in `dir`; nothing else changes. */
  function ShiftGates(gates: seq<Gate>, ids: seq<string>, dir: Direction): (r: seq<Gate>)
    ensures |r| == |gates|
    ensures forall i | 0 <= i < |gates| :: r[i].(depth := gates[i].depth) == gates[i]
    ensures forall i | 0 <= i < |gates| :: gates[i].id in ids ==> r[i].depth == gates[i].depth + dir.Delta()
    ensures forall i | 0 <= i < |gates| :: gates[i].id !in ids ==> r[i] == gates[i]
  {
    seq(|gates|, i requires 0 <= i < |gates| =>
      if gates[i].id in ids then gates[i].(depth := gates[i].depth + dir.Delta()) else gates[i])
  }

  /** Shifting right and then left by the same ids gives back the original gates. */
  lemma {:induction false} ShiftRoundTrip(gates: seq<Gate>, ids: seq<string>)
    ensures ShiftGates(ShiftGates(gates, ids, Right), ids, Left) == gates
    ensures ShiftGates(ShiftGates(gates, ids, Left), ids, Right) == gates
  {
    var r := ShiftGates(ShiftGates(gates, ids, Right), ids, Left);
    assert forall i | 0 <= i < |gates| :: r[i] == gates[i];
    var l := ShiftGates(ShiftGates(gates, ids, Left), ids, Right);
    assert forall i | 0 <= i < |gates| :: l[i] == gates[i];
  }

  /**
   * Selecting and shifting right clears the slot: afterwards no gate but the
   * excluded one sits at `targetDepth` on a target qubit, and every selected
   * gate is one column further right (gate ids are assumed unique).
   */
  lemma {:induction false} ShiftClearsSlot(gates: seq<Gate>, targetDepth: int, targetQubits: seq<int>, excludeId: Option<string>)
    requires forall i, j | 0 <= i < j < |gates| :: gates[i].id != gates[j].id
    ensures var r := ShiftGates(gates, GatesToShift(gates, targetDepth, targetQubits, excludeId), Right);
            forall i | 0 <= i < |gates| ::
              && (Selected(gates[i], targetDepth, targetQubits, excludeId) ==> r[i].depth == gates[i].depth + 1)
              && (r[i].depth == targetDepth && SomeIn(InvolvedQubits(r[i]), targetQubits) ==>
                    excludeId.Some? && r[i].id == excludeId.value)
  {
    var ids := GatesToShift(gates, targetDepth, targetQubits, excludeId);
    var r := ShiftGates(gates, ids, Right);
    forall i | 0 <= i < |gates|
      ensures r[i].depth == targetDepth && SomeIn(InvolvedQubits(r[i]), targetQubits) ==>
                excludeId.Some? && r[i].id == excludeId.value
    {
      assert InvolvedQubits(r[i]) == InvolvedQubits(gates[i]);
      if gates[i].id in ids {
        var j :| 0 <= j < |gates| && gates[j].id == gates[i].id && Selected(gates[j], targetDepth, targetQubits, excludeId);
        assert j == i;
      }
    }
  }
}
