/**
 * The gate editing dialog: it holds working copies of a placed gate's
 * control and target qubits. Choosing a qubit already used by the gate
 * swaps the two positions instead of duplicating the qubit, and confirming
 * ejects the gate from the circuit and injects it again with the edited
 * qubits.
 */
module EditGateDialog {
  import opened Wrappers
  import opened JsMap
  import opened Gates
  import opened CircuitDag
  import CircuitDagHook

  /** Which of the two lists a qubit selector edits. */
  datatype Role = Control | Target

  /** `indexOf`: the first position holding `x`, or -1. */
  function IndexOf(s: seq<int>, x: int): (r: int)
    ensures -1 <= r < |s|
    ensures r == -1 <==> x !in s
    ensures r >= 0 ==> s[r] == x && x !in s[..r]
  {
    if s == [] then -1
    else if s[0] == x then 0
    else
      var k := IndexOf(s[1..], x);
      assert s[1..][..if k < 0 then 0 else k] == s[1..1 + if k < 0 then 0 else k];
      if k == -1 then -1 else k + 1
  }

  /**
   * One qubit choice on the list being edited (`mine`), the other list
   * being `other`: the new value goes to `index`, and the old value takes
   * the place of the first other occurrence of the new value, looked for
   * first in `mine` and then in `other`.
   */
  function Reassign(mine: seq<int>, other: seq<int>, index: int, newValue: int): (r: (seq<int>, seq<int>))
    requires 0 <= index < |mine|
    ensures |r.0| == |mine| && |r.1| == |other|
    ensures r.0[index] == newValue
  {
    var oldValue := mine[index];
    var mineIndex := IndexOf(mine, newValue);
    var otherIndex := IndexOf(other, newValue);
    if mineIndex != -1 && mineIndex != index then (mine[mineIndex := oldValue][index := newValue], other)
    else if otherIndex != -1 then (mine[index := newValue], other[otherIndex := oldValue])
    else (mine[index := newValue], other)
  }

  /** The sequence with the values at `i` and `j` exchanged. */
  function Transposed(s: seq<int>, i: int, j: int): (r: seq<int>)
    requires 0 <= i < |s| && 0 <= j < |s|
  {
    s[i := s[j]][j := s[i]]
  }

  lemma TransposedKeepsDistinct(s: seq<int>, i: int, j: int)
    requires 0 <= i < |s| && 0 <= j < |s|
    ensures multiset(Transposed(s, i, j)) == multiset(s)
    ensures Distinct(s) ==> Distinct(Transposed(s, i, j))
  {
    var t := Transposed(s, i, j);
    if Distinct(s) {
      forall a, b | 0 <= a < b < |t|
        ensures t[a] != t[b]
      {
        var a' := if a == i then j else if a == j then i else a;
        var b' := if b == i then j else if b == j then i else b;
        assert t[a] == s[a'] && t[b] == s[b'];
        if a' < b' {
        } else {
          assert b' < a';
        }
      }
    }
  }

  lemma FreshKeepsDistinct(s: seq<int>, i: int, v: int)
    requires 0 <= i < |s| && v !in s && Distinct(s)
    ensures Distinct(s[i := v])
  {
  }

  lemma DistinctHalvesSwapped(a: seq<int>, b: seq<int>)
    requires Distinct(a + b)
    ensures Distinct(b + a)
  {
    var s, t := a + b, b + a;
    forall x, y | 0 <= x < y < |t|
      ensures t[x] != t[y]
    {
      var x' := if x < |b| then |a| + x else x - |b|;
      var y' := if y < |b| then |a| + y else y - |b|;
      assert t[x] == s[x'] && t[y] == s[y'];
      if x' < y' {
      } else {
        assert y' < x';
      }
    }
  }

  /**
   * A choice of a value already in use is a swap: the two lists together
   * hold the same qubits as before (and the new value sits at `index`).
   */
  lemma ReassignSwaps(mine: seq<int>, other: seq<int>, index: int, newValue: int)
    requires 0 <= index < |mine|
    requires newValue in mine + other
    ensures var r := Reassign(mine, other, index, newValue);
            multiset(r.0 + r.1) == multiset(mine + other)
  {
    var r := Reassign(mine, other, index, newValue);
    var t := ReassignedAsTransposed(mine, other, index, newValue);
    TransposedKeepsDistinct(mine + other, t.0, t.1);
  }

  /** When the new value is already in use, the edit exchanges two positions of the joined lists. */
  lemma ReassignedAsTransposed(mine: seq<int>, other: seq<int>, index: int, newValue: int) returns (ij: (int, int))
    requires 0 <= index < |mine|
    requires newValue in mine + other
    ensures 0 <= ij.0 < |mine + other| && 0 <= ij.1 < |mine + other|
    ensures var r := Reassign(mine, other, index, newValue);
            r.0 + r.1 == Transposed(mine + other, ij.0, ij.1)
  {
    var r := Reassign(mine, other, index, newValue);
    var s := mine + other;
    var mineIndex := IndexOf(mine, newValue);
    var otherIndex := IndexOf(other, newValue);
    if mineIndex != -1 && mineIndex != index {
      ij := (mineIndex, index);
      assert r.0 + r.1 == Transposed(s, mineIndex, index);
    } else if otherIndex != -1 {
      ij := (index, |mine| + otherIndex);
      assert r.0 + r.1 == Transposed(s, index, |mine| + otherIndex);
    } else {
      assert newValue in mine;
      ij := (index, index);
      assert r.0 == mine;
    }
  }

  /** Only `index` and a position that held the new value can change. */
  lemma ReassignKeepsOthers(mine: seq<int>, other: seq<int>, index: int, newValue: int)
    requires 0 <= index < |mine|
    ensures var r := Reassign(mine, other, index, newValue);
            && (forall j | 0 <= j < |mine| && j != index && mine[j] != newValue :: r.0[j] == mine[j])
            && (forall j | 0 <= j < |other| && other[j] != newValue :: r.1[j] == other[j])
  {
  }

  /** A choice of an unused value replaces the old value by it, nothing else changing. */
  lemma ReassignFresh(mine: seq<int>, other: seq<int>, index: int, newValue: int)
    requires 0 <= index < |mine|
    requires newValue !in mine + other
    ensures Reassign(mine, other, index, newValue) == (mine[index := newValue], other)
    ensures var r := Reassign(mine, other, index, newValue);
            multiset(r.0 + r.1) == multiset(mine + other) - multiset{mine[index]} + multiset{newValue}
  {
    var r := Reassign(mine, other, index, newValue);
    assert r.0 + r.1 == (mine + other)[index := newValue];
  }

  /** A qubit choice never makes the gate use a qubit twice. */
  lemma ReassignKeepsDistinct(mine: seq<int>, other: seq<int>, index: int, newValue: int)
    requires 0 <= index < |mine|
    requires Distinct(mine + other)
    ensures var r := Reassign(mine, other, index, newValue);
            Distinct(r.0 + r.1)
  {
    var r := Reassign(mine, other, index, newValue);
    var s := mine + other;
    if newValue in s {
      var ij := ReassignedAsTransposed(mine, other, index, newValue);
      TransposedKeepsDistinct(s, ij.0, ij.1);
    } else {
      assert r.0 + r.1 == s[index := newValue];
      FreshKeepsDistinct(s, index, newValue);
    }
  }

  /** The dialog's working copies of the gate's qubits. */
  class Dialog {
    var controlQubits: seq<int>
    var targetQubits: seq<int>

    constructor()
      ensures controlQubits == [] && targetQubits == []
    {
      controlQubits := [];
      targetQubits := [];
    }

    /** On opening for a gate, the working copies start as the gate's own lists. */
    method Open(gate: Gate)
      modifies this
      ensures controlQubits == gate.controls && targetQubits == gate.targets
    {
      controlQubits := gate.controls;
      targetQubits := gate.targets;
    }

    /**
     * `handleQubitChange`: the selector at `index` of the `role` list chose
     * `newValue`. Both lists keep their lengths and a gate whose qubits were
     * all different still has all different qubits.
     */
    method HandleQubitChange(role: Role, index: int, newValue: int)
      requires 0 <= index < |if role == Control then controlQubits else targetQubits|
      modifies this
      ensures role == Control ==> (controlQubits, targetQubits) == Reassign(old(controlQubits), old(targetQubits), index, newValue)
      ensures role == Target ==> (targetQubits, controlQubits) == Reassign(old(targetQubits), old(controlQubits), index, newValue)
      ensures |controlQubits| == |old(controlQubits)| && |targetQubits| == |old(targetQubits)|
      ensures Distinct(old(controlQubits) + old(targetQubits)) ==> Distinct(controlQubits + targetQubits)
    {
      if role == Control {
        var newControlQubits := controlQubits;
        var oldValue := newControlQubits[index];
        var controlIndex := IndexOf(newControlQubits, newValue);
        var targetIndex := IndexOf(targetQubits, newValue);
        if controlIndex != -1 && controlIndex != index {
          newControlQubits := newControlQubits[controlIndex := oldValue];
        } else if targetIndex != -1 {
          targetQubits := targetQubits[targetIndex := oldValue];
        }
        newControlQubits := newControlQubits[index := newValue];
        if Distinct(old(controlQubits) + old(targetQubits)) {
          ReassignKeepsDistinct(old(controlQubits), old(targetQubits), index, newValue);
        }
        controlQubits := newControlQubits;
      } else {
        var newTargetQubits := targetQubits;
        var oldValue := newTargetQubits[index];
        var controlIndex := IndexOf(controlQubits, newValue);
        var targetIndex := IndexOf(newTargetQubits, newValue);
        if targetIndex != -1 && targetIndex != index {
          newTargetQubits := newTargetQubits[targetIndex := oldValue];
        } else if controlIndex != -1 {
          controlQubits := controlQubits[controlIndex := oldValue];
        }
        newTargetQubits := newTargetQubits[index := newValue];
        if Distinct(old(controlQubits) + old(targetQubits)) {
          DistinctHalvesSwapped(old(controlQubits), old(targetQubits));
          ReassignKeepsDistinct(old(targetQubits), old(controlQubits), index, newValue);
          DistinctHalvesSwapped(newTargetQubits, controlQubits);
        }
        targetQubits := newTargetQubits;
      }
    }

    /**
     * `handleConfirm`: with a gate, the circuit's gates become those left by
     * ejecting it, with the gate injected again carrying the edited qubits;
     * without one the gates are left alone. The edited lists are passed on
     * to the caller in either case. When ids are distinct and the gate is
     * placed, the result keeps every other gate in order and ends with the
     * edited gate, which keeps its identity and template.
     */
    method HandleConfirm(gate: Option<Gate>, placedGates: seq<Gate>, fuel: nat)
      returns (newGates: Option<seq<Gate>>, confirmed: (seq<int>, seq<int>))
      ensures confirmed == (controlQubits, targetQubits)
      ensures gate.None? ==> newGates.None?
      ensures gate.Some? ==> newGates == Some(Inject(gate.value.(controls := controlQubits, targets := targetQubits),
                                                     Eject(gate.value, placedGates, fuel), fuel))
      ensures gate.Some? && Distinct(Ids(placedGates)) && gate.value.id in Ids(placedGates) ==>
                && Ids(newGates.value) == Without(Ids(placedGates), gate.value.id) + [gate.value.id]
                && HasGate(newGates.value, gate.value.id, gate.value.info, targetQubits, controlQubits)
    {
      newGates := None;
      if gate.Some? {
        var g := gate.value;
        var gatesWithout := CircuitDagHook.EjectGate(g, placedGates, fuel);
        var updatedGate := g.(controls := controlQubits, targets := targetQubits);
        var injected := CircuitDagHook.InjectGate(updatedGate, gatesWithout, fuel);
        newGates := Some(injected);
        InjectHasGate(updatedGate, gatesWithout, fuel);
        if Distinct(Ids(placedGates)) && g.id in Ids(placedGates) {
          WithoutPreserves(Ids(placedGates), g.id);
          InjectAppends(updatedGate, gatesWithout, fuel);
        }
      }
      confirmed := (controlQubits, targetQubits);
    }
  }
}
