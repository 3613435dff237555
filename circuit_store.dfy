/**
 * The per-circuit store of the composer: the placed gates and nested
 * circuits, the number of qubits, the per-qubit measurement flags and
 * whether nested circuits are shown expanded. Qubit edits, measurement
 * toggles and grouping act on it; stores are created once per circuit id
 * and memoised.
 *
 * `crypto.randomUUID()` is a parameter; the undo history, persistence to
 * local storage and the plain setters are not part of this model.
 */
module CircuitStore {
  import opened Wrappers
  import opened Gates
  import opened Sequences

  /**
   * The one error these actions raise: `getInvolvedQubits` spreads the
   * `controlQubits` and `targetQubits` of its argument, which a nested
   * circuit does not have, so it throws a `TypeError` on one.
   */
  datatype TypeError = NestedCircuitHasNoQubits

  datatype CircuitState = CircuitState(
    placedGates: seq<Item>,
    numQubits: int,
    measurements: seq<bool>,
    showNestedCircuit: bool)

  /** The state a fresh store starts from: no gates and every qubit measured. */
  function Initial(defaultNumQubits: nat): (s: CircuitState)
    ensures s.placedGates == [] && s.numQubits == defaultNumQubits && !s.showNestedCircuit
    ensures |s.measurements| == defaultNumQubits && forall k | 0 <= k < defaultNumQubits :: s.measurements[k]
  {
    CircuitState([], defaultNumQubits, seq(defaultNumQubits, _ => true), false)
  }

  /** One measurement flag per qubit. */
  predicate Consistent(s: CircuitState) {
    |s.measurements| == s.numQubits
  }

  /** No placed item is a nested circuit, so `getInvolvedQubits` succeeds on each. */
  predicate NoNested(items: seq<Item>) {
    forall it <- items :: it.GateItem?
  }

  // ---------------------------------------------------------------- qubits

  /** `addQubit`: one more qubit, measured. */
  function AfterAddQubit(s: CircuitState): (r: CircuitState)
    ensures |r.measurements| == |s.measurements| + 1 && r.measurements[|s.measurements|]
    ensures r.numQubits == s.numQubits + 1 && r.measurements[..|s.measurements|] == s.measurements
    ensures r.placedGates == s.placedGates && r.showNestedCircuit == s.showNestedCircuit
  {
    s.(numQubits := s.numQubits + 1, measurements := s.measurements + [true])
  }

  /** The gates that do not touch qubit `q`, in their order (`filter`). */
  function OffQubit(items: seq<Item>, q: int): (r: seq<Item>)
    requires NoNested(items)
    ensures |r| <= |items| && NoNested(r)
    ensures forall it :: it in r <==> it in items && q !in InvolvedQubits(it.gate)
  {
    if items == [] then []
    else
      var rest := OffQubit(items[1..], q);
      assert forall it :: it in items <==> it == items[0] || it in items[1..];
      if q in InvolvedQubits(items[0].gate) then rest else [items[0]] + rest
  }

  /** `OffQubit` is the source's `filter`: by `FilterInOrder`, the kept gates in their original order. */
  lemma {:induction false} OffQubitInOrder(items: seq<Item>, q: int)
    requires NoNested(items)
    ensures OffQubit(items, q) == Filter(items, (it: Item) => it.GateItem? && q !in InvolvedQubits(it.gate))
    decreases |items|
  {
    if items != [] {
      assert forall it <- items[1..] :: it in items;
      OffQubitInOrder(items[1..], q);
    }
  }

  /**
   * `removeQubit`: with more than one qubit, drops the last qubit, its
   * measurement flag and every gate touching it; with one qubit or fewer
   * nothing changes. A nested circuit among the placed items makes the
   * filter throw before anything is set.
   */
  function AfterRemoveQubit(s: CircuitState): (r: Result<CircuitState, TypeError>)
    ensures s.numQubits <= 1 ==> r == Success(s)
    ensures s.numQubits > 1 ==> (r.Failure? <==> !NoNested(s.placedGates))
    ensures r.Success? && s.numQubits > 1 ==>
              r.value.numQubits == s.numQubits - 1
              && r.value.measurements == (if s.measurements == [] then [] else s.measurements[..|s.measurements| - 1])
              && r.value.showNestedCircuit == s.showNestedCircuit
              && (forall it :: it in r.value.placedGates <==>
                   it in s.placedGates && (s.numQubits - 1) !in InvolvedQubits(it.gate))
  {
    if s.numQubits <= 1 then Success(s)
    else if !NoNested(s.placedGates) then Failure(NestedCircuitHasNoQubits)
    else
      Success(s.(numQubits := s.numQubits - 1,
                 measurements := if s.measurements == [] then [] else s.measurements[..|s.measurements| - 1],
                 placedGates := OffQubit(s.placedGates, s.numQubits - 1)))
  }

  /** The gates that survive a qubit removal keep their order. */
  lemma AfterRemoveQubitInOrder(s: CircuitState)
    requires s.numQubits > 1 && NoNested(s.placedGates)
    ensures AfterRemoveQubit(s).Success?
    ensures AfterRemoveQubit(s).value.placedGates == Filter(s.placedGates, (it: Item) => it.GateItem? && s.numQubits - 1 !in InvolvedQubits(it.gate))
  {
    var q := s.numQubits - 1;
    assert AfterRemoveQubit(s).value.placedGates == OffQubit(s.placedGates, q);
    OffQubitInOrder(s.placedGates, q);
  }

  /** Filtering off a qubit no gate touches keeps every gate. */
  lemma {:induction false} OffUntouched(items: seq<Item>, q: int)
    requires NoNested(items) && forall it <- items :: q !in InvolvedQubits(it.gate)
    ensures OffQubit(items, q) == items
  {
    if items != [] {
      assert forall it <- items[1..] :: it in items;
      OffUntouched(items[1..], q);
      assert items == [items[0]] + items[1..];
    }
  }

  /** Adding a qubit and removing it again restores the state, as long as no gate was placed on it. */
  lemma AddThenRemove(s: CircuitState)
    requires s.numQubits >= 1 && NoNested(s.placedGates)
    requires forall it <- s.placedGates :: s.numQubits !in InvolvedQubits(it.gate)
    ensures AfterRemoveQubit(AfterAddQubit(s)) == Success(s)
  {
    OffUntouched(s.placedGates, s.numQubits);
    assert (s.measurements + [true])[..|s.measurements|] == s.measurements;
  }

  /** Every gate lies on the circuit's qubits. */
  predicate OnQubits(items: seq<Item>, n: int)
    requires NoNested(items)
  {
    forall it <- items :: forall q <- InvolvedQubits(it.gate) :: 0 <= q < n
  }

  /**
   * Removing a qubit keeps one measurement flag per qubit and keeps every
   * remaining gate on the remaining qubits.
   */
  lemma RemoveQubitKeepsShape(s: CircuitState)
    requires Consistent(s) && NoNested(s.placedGates) && OnQubits(s.placedGates, s.numQubits)
    ensures AfterRemoveQubit(s).Success?
    ensures Consistent(AfterRemoveQubit(s).value)
    ensures NoNested(AfterRemoveQubit(s).value.placedGates)
    ensures OnQubits(AfterRemoveQubit(s).value.placedGates, AfterRemoveQubit(s).value.numQubits)
  {
  }

  /** Adding a qubit keeps one measurement flag per qubit and keeps every gate on the qubits. */
  lemma AddQubitKeepsShape(s: CircuitState)
    requires Consistent(s) && NoNested(s.placedGates) && OnQubits(s.placedGates, s.numQubits)
    ensures Consistent(AfterAddQubit(s)) && OnQubits(AfterAddQubit(s).placedGates, AfterAddQubit(s).numQubits)
  {
  }

  // ---------------------------------------------------------- measurements

  /**
   * `toggleMeasurement`: the flag at `index` is negated. A negative index
   * names no element, so the flags stay as they are; an index past the end
   * grows the array, the skipped slots being holes that read as unmeasured.
   */
  function Toggled(m: seq<bool>, index: int): (r: seq<bool>)
    ensures index < 0 ==> r == m
    ensures 0 <= index ==> |r| == (if index < |m| then |m| else index + 1) && r[index] == !(index < |m| && m[index])
    ensures forall k | 0 <= k < |r| && k != index :: r[k] == (k < |m| && m[k])
  {
    if index < 0 then m
    else if index < |m| then m[index := !m[index]]
    else m + seq(index - |m|, _ => false) + [true]
  }

  /** Toggling the same qubit twice restores its flag. */
  lemma ToggleTwice(m: seq<bool>, index: int)
    requires index < |m|
    ensures Toggled(Toggled(m, index), index) == m
  {
    var r := Toggled(Toggled(m, index), index);
    assert |r| == |m|;
    assert forall k | 0 <= k < |m| :: r[k] == m[k];
  }

  /** Toggling a qubit of the circuit keeps one flag per qubit. */
  lemma ToggleKeepsShape(s: CircuitState, index: int)
    requires Consistent(s) && index < s.numQubits
    ensures Consistent(s.(measurements := Toggled(s.measurements, index)))
  {
  }

  // -------------------------------------------------------------- grouping

  const DefaultSymbol := "GRP"
  const DefaultColor := "#6366f1"

  /** The qubits an item touches; a nested circuit is only ever asked when it makes `group` throw. */
  function ItemQubits(it: Item): seq<int> {
    if it.GateItem? then InvolvedQubits(it.gate) else []
  }

  /** Every qubit the gates touch, gate by gate (`flatMap(getInvolvedQubits)`). */
  function AllQubits(items: seq<Item>): (r: seq<int>)
  {
    if items == [] then [] else ItemQubits(items[0]) + AllQubits(items[1..])
  }

  /** A qubit one of the items touches is among all the qubits. */
  lemma {:induction false} InAllQubits(items: seq<Item>, i: int, q: int)
    requires 0 <= i < |items| && q in ItemQubits(items[i])
    ensures q in AllQubits(items)
  {
    if i > 0 {
      assert items[1..][i - 1] == items[i];
      InAllQubits(items[1..], i - 1, q);
    }
  }

  /** Every one of all the qubits is touched by some item. */
  lemma {:induction false} AllQubitsFrom(items: seq<Item>, q: int) returns (i: nat)
    requires q in AllQubits(items)
    ensures i < |items| && q in ItemQubits(items[i])
  {
    if q in ItemQubits(items[0]) {
      i := 0;
    } else {
      var j := AllQubitsFrom(items[1..], q);
      assert items[1..][j] == items[j + 1];
      i := j + 1;
    }
  }


  /** An item moved by `dDepth` columns and `dQubit` qubits, with its edges dropped. */
  function Moved(it: Item, dDepth: int, dQubit: int): Item {
    match it
    case GateItem(g) =>
      GateItem(g.(depth := g.depth + dDepth, parents := [], children := [],
                  targets := Shifted(g.targets, dQubit), controls := Shifted(g.controls, dQubit)))
    case CircuitItem(id, depth, startQubit, _, _, circuit) =>
      CircuitItem(id, depth + dDepth, startQubit + dQubit, [], [], circuit)
  }

  function MovedAll(items: seq<Item>, dDepth: int, dQubit: int): (r: seq<Item>)
    ensures |r| == |items| && forall i | 0 <= i < |items| :: r[i] == Moved(items[i], dDepth, dQubit)
  {
    seq(|items|, i requires 0 <= i < |items| => Moved(items[i], dDepth, dQubit))
  }

  /**
   * `group`: wraps the items into a nested circuit anchored at their
   * earliest column and lowest qubit, each item stored relative to that
   * anchor and without edges. The group and its circuit get ids made of the
   * symbol and a fresh uuid. A nested circuit among the items makes
   * `getInvolvedQubits` throw.
   */
  function Group(items: seq<Item>, symbol: Option<string>, color: Option<string>, uuid1: string, uuid2: string): (r: Result<Item, TypeError>)
    requires items != []
    requires NoNested(items) ==> AllQubits(items) != []
    ensures r.Failure? <==> !NoNested(items)
    ensures r.Success? ==>
              r.value.CircuitItem? && r.value.parents == [] && r.value.children == []
              && r.value.circuit.symbol == symbol.GetOr(DefaultSymbol) && r.value.circuit.color == color.GetOr(DefaultColor)
              && r.value.id == symbol.GetOr(DefaultSymbol) + "-" + uuid1
              && r.value.circuit.id == symbol.GetOr(DefaultSymbol) + "-" + uuid2
  {
    if !NoNested(items) then Failure(NestedCircuitHasNoQubits)
    else
      var sym := symbol.GetOr(DefaultSymbol);
      var minDepth := SeqMin(DepthsOf(items));
      var minQubit := SeqMin(AllQubits(items));
      Success(CircuitItem(sym + "-" + uuid1, minDepth, minQubit, [], [],
                          Circuit(sym + "-" + uuid2, sym, color.GetOr(DefaultColor), MovedAll(items, -minDepth, -minQubit))))
  }

  /** The items a group stores, relative to its anchor. */
  lemma GroupStores(items: seq<Item>, symbol: Option<string>, color: Option<string>, uuid1: string, uuid2: string, c: Item)
    requires items != [] && NoNested(items) && AllQubits(items) != []
    requires Group(items, symbol, color, uuid1, uuid2) == Success(c)
    ensures c.CircuitItem? && c.circuit.gates == MovedAll(items, -c.depth, -c.startQubit)
  {
  }

  /** The anchor of a group, as `group` computes it. */
  lemma GroupAnchor(items: seq<Item>, symbol: Option<string>, color: Option<string>, uuid1: string, uuid2: string, c: Item)
    requires items != [] && NoNested(items) && AllQubits(items) != []
    requires Group(items, symbol, color, uuid1, uuid2) == Success(c)
    ensures c.CircuitItem? && c.depth == SeqMin(DepthsOf(items)) && c.startQubit == SeqMin(AllQubits(items))
  {
  }


  /** Moving a gate shifts every qubit it touches by the same amount. */
  lemma MovedQubits(it: Item, dDepth: int, dQubit: int)
    requires it.GateItem?
    ensures Moved(it, dDepth, dQubit).GateItem?
    ensures InvolvedQubits(Moved(it, dDepth, dQubit).gate) == Shifted(InvolvedQubits(it.gate), dQubit)
  {
    var g := it.gate;
    assert Shifted(g.controls, dQubit) + Shifted(g.targets, dQubit) == Shifted(g.controls + g.targets, dQubit);
  }

  /** Items stored at an offset from an anchor keep their ids, and the anchor plus the offset gives back where they were. */
  lemma StoredKeepsItems(items: seq<Item>, c: Item)
    requires NoNested(items)
    requires c.CircuitItem? && c.circuit.gates == MovedAll(items, -c.depth, -c.startQubit)
    ensures |c.circuit.gates| == |items| && NoNested(c.circuit.gates)
            && forall i | 0 <= i < |items| ::
                 c.circuit.gates[i].Id() == items[i].Id()
                 && c.depth + c.circuit.gates[i].Depth() == items[i].Depth()
                 && InvolvedQubits(c.circuit.gates[i].gate) == Shifted(InvolvedQubits(items[i].gate), -c.startQubit)
  {
    forall i | 0 <= i < |items|
      ensures c.circuit.gates[i].GateItem?
      ensures InvolvedQubits(c.circuit.gates[i].gate) == Shifted(InvolvedQubits(items[i].gate), -c.startQubit)
    {
      MovedQubits(items[i], -c.depth, -c.startQubit);
    }
  }


  /**
   * A group keeps its items in order and under their ids, each stored at
   * its offset from the anchor: the anchor plus the offset gives back its
   * column, and its qubits less the anchor's qubit.
   */
  lemma GroupKeepsItems(items: seq<Item>, symbol: Option<string>, color: Option<string>, uuid1: string, uuid2: string, c: Item)
    requires items != [] && NoNested(items) && AllQubits(items) != []
    requires Group(items, symbol, color, uuid1, uuid2) == Success(c)
    ensures |c.circuit.gates| == |items| && NoNested(c.circuit.gates)
            && forall i | 0 <= i < |items| ::
                 c.circuit.gates[i].Id() == items[i].Id()
                 && c.depth + c.circuit.gates[i].Depth() == items[i].Depth()
                 && InvolvedQubits(c.circuit.gates[i].gate) == Shifted(InvolvedQubits(items[i].gate), -c.startQubit)
  {
    GroupStores(items, symbol, color, uuid1, uuid2, c);
    StoredKeepsItems(items, c);
  }

  /** Items stored relative to their earliest column: none lies before it and one lies at it. */
  lemma StoredAnchorsColumn(items: seq<Item>, c: Item)
    requires items != []
    requires c.CircuitItem? && c.circuit.gates == MovedAll(items, -c.depth, -c.startQubit)
    requires c.depth == SeqMin(DepthsOf(items))
    ensures var gs := c.circuit.gates;
            |gs| == |items| && (forall i | 0 <= i < |gs| :: 0 <= gs[i].Depth())
            && exists i | 0 <= i < |gs| :: gs[i].Depth() == 0
  {
    assert forall i | 0 <= i < |items| :: DepthsOf(items)[i] in DepthsOf(items);
    var j :| 0 <= j < |items| && DepthsOf(items)[j] == c.depth;
    assert c.circuit.gates[j].Depth() == 0;
  }

  /** A group's column is its earliest item's: no stored item lies before it and one lies at it. */
  lemma GroupAnchorsColumn(items: seq<Item>, symbol: Option<string>, color: Option<string>, uuid1: string, uuid2: string, c: Item)
    requires items != [] && NoNested(items) && AllQubits(items) != []
    requires Group(items, symbol, color, uuid1, uuid2) == Success(c)
    ensures var gs := c.circuit.gates;
            |gs| == |items| && (forall i | 0 <= i < |gs| :: 0 <= gs[i].Depth())
            && exists i | 0 <= i < |gs| :: gs[i].Depth() == 0
  {
    GroupStores(items, symbol, color, uuid1, uuid2, c);
    GroupAnchor(items, symbol, color, uuid1, uuid2, c);
    StoredAnchorsColumn(items, c);
  }

  /** Gates stored relative to their lowest qubit lie on no qubit below it. */
  lemma StoredAboveAnchorQubit(items: seq<Item>, c: Item)
    requires NoNested(items)
    requires c.CircuitItem? && c.circuit.gates == MovedAll(items, -c.depth, -c.startQubit)
    requires forall q <- AllQubits(items) :: c.startQubit <= q
    ensures var gs := c.circuit.gates;
            |gs| == |items| && NoNested(gs)
            && forall i | 0 <= i < |gs| :: forall q <- InvolvedQubits(gs[i].gate) :: 0 <= q
  {
    var gs := c.circuit.gates;
    StoredKeepsItems(items, c);
    forall i, q | 0 <= i < |gs| && q in InvolvedQubits(gs[i].gate)
      ensures 0 <= q
    {
      var xs := InvolvedQubits(items[i].gate);
      var k :| 0 <= k < |xs| && Shifted(xs, -c.startQubit)[k] == q;
      InAllQubits(items, i, xs[k]);
    }
  }

  /** Some gate stored relative to the lowest qubit lies on it. */
  lemma StoredOnAnchorQubit(items: seq<Item>, c: Item)
    requires NoNested(items)
    requires c.CircuitItem? && c.circuit.gates == MovedAll(items, -c.depth, -c.startQubit)
    requires c.startQubit in AllQubits(items)
    ensures var gs := c.circuit.gates;
            |gs| == |items| && NoNested(gs)
            && exists i | 0 <= i < |gs| :: 0 in InvolvedQubits(gs[i].gate)
  {
    StoredNoNested(items, c);
    var i := AllQubitsFrom(items, c.startQubit);
    StoredOnAt(items, c, i);
  }

  /** The stored gate of an item that lies on the anchor qubit lies on qubit 0. */
  lemma StoredOnAt(items: seq<Item>, c: Item, i: nat)
    requires c.CircuitItem? && c.circuit.gates == MovedAll(items, -c.depth, -c.startQubit)
    requires NoNested(items) && i < |items| && c.startQubit in ItemQubits(items[i])
    ensures c.circuit.gates[i].GateItem? && 0 in InvolvedQubits(c.circuit.gates[i].gate)
  {
    var it, q, d := items[i], c.startQubit, -c.depth;
    assert it in items;
    MovedOnto(c.circuit.gates[i], it, d, q);
  }

  /** A gate moved down by one of its qubits lies on qubit 0. */
  lemma MovedOnto(x: Item, it: Item, dDepth: int, q: int)
    requires it.GateItem? && q in InvolvedQubits(it.gate) && x == Moved(it, dDepth, -q)
    ensures x.GateItem? && 0 in InvolvedQubits(x.gate)
  {
    var xs := InvolvedQubits(it.gate);
    var k :| 0 <= k < |xs| && xs[k] == q;
    MovedQubits(it, dDepth, -q);
    assert InvolvedQubits(x.gate)[k] == 0;
  }

  lemma StoredNoNested(items: seq<Item>, c: Item)
    requires NoNested(items)
    requires c.CircuitItem? && c.circuit.gates == MovedAll(items, -c.depth, -c.startQubit)
    ensures |c.circuit.gates| == |items| && NoNested(c.circuit.gates)
  {
    StoredKeepsItems(items, c);
  }

  /** A group's start qubit is its items' lowest: no stored qubit lies below it and one lies on it. */
  lemma GroupAnchorsQubit(items: seq<Item>, symbol: Option<string>, color: Option<string>, uuid1: string, uuid2: string, c: Item)
    requires items != [] && NoNested(items) && AllQubits(items) != []
    requires Group(items, symbol, color, uuid1, uuid2) == Success(c)
    ensures var gs := c.circuit.gates;
            |gs| == |items| && NoNested(gs)
            && (forall i | 0 <= i < |gs| :: forall q <- InvolvedQubits(gs[i].gate) :: 0 <= q)
            && exists i | 0 <= i < |gs| :: 0 in InvolvedQubits(gs[i].gate)
  {
    GroupStores(items, symbol, color, uuid1, uuid2, c);
    GroupAnchor(items, symbol, color, uuid1, uuid2, c);
    StoredAboveAnchorQubit(items, c);
    StoredOnAnchorQubit(items, c);
  }

  /** `item.id.split('-')[0]`: the id up to its first dash. */
  function IdPrefix(id: string): (r: string)
    ensures |r| <= |id| && r == id[..|r|] && '-' !in r
    ensures |r| < |id| ==> id[|r|] == '-'
  {
    if id == [] || id[0] == '-' then []
    else [id[0]] + IdPrefix(id[1..])
  }

  /** The prefix of a generated `<symbol>-<uuid>` id is its symbol, when the symbol has no dash. */
  lemma {:induction false} PrefixOfGeneratedId(symbol: string, uuid: string)
    requires '-' !in symbol
    ensures IdPrefix(symbol + "-" + uuid) == symbol
  {
    if symbol != [] {
      assert (symbol + "-" + uuid)[1..] == symbol[1..] + "-" + uuid;
      PrefixOfGeneratedId(symbol[1..], uuid);
    }
  }

  function WithId(it: Item, id: string): Item {
    if it.GateItem? then GateItem(it.gate.(id := id)) else it.(id := id)
  }

  /** An item without its dependency edges. */
  function Detached(it: Item): Item {
    if it.GateItem? then GateItem(it.gate.(parents := [], children := [])) else it.(parents := [], children := [])
  }

  /**
   * `ungroup`: the group's items placed back at the group's anchor, each
   * with a fresh id keeping the part of its old id before the first dash,
   * and without edges.
   */
  function Ungroup(c: Item, uuids: seq<string>): (r: seq<Item>)
    requires c.CircuitItem? && |uuids| == |c.circuit.gates|
    ensures |r| == |c.circuit.gates|
    ensures forall i | 0 <= i < |r| ::
              r[i].Id() == IdPrefix(c.circuit.gates[i].Id()) + "-" + uuids[i]
              && r[i].Depth() == c.circuit.gates[i].Depth() + c.depth
    ensures forall i | 0 <= i < |r| ::
              var it := c.circuit.gates[i];
              if it.GateItem? then
                && r[i].GateItem? && r[i].gate.info == it.gate.info
                && r[i].gate.targets == Shifted(it.gate.targets, c.startQubit)
                && r[i].gate.controls == Shifted(it.gate.controls, c.startQubit)
                && r[i].gate.parents == [] && r[i].gate.children == []
              else
                && r[i].CircuitItem? && r[i].circuit == it.circuit
                && r[i].startQubit == it.startQubit + c.startQubit
                && r[i].parents == [] && r[i].children == []
  {
    var gs := c.circuit.gates;
    seq(|gs|, i requires 0 <= i < |gs| => WithId(Moved(gs[i], c.depth, c.startQubit), IdPrefix(gs[i].Id()) + "-" + uuids[i]))
  }

  lemma ShiftedBack(qs: seq<int>, d: int)
    ensures Shifted(Shifted(qs, -d), d) == qs
  {
    assert forall i | 0 <= i < |qs| :: Shifted(Shifted(qs, -d), d)[i] == qs[i];
  }

  /** Moving an item away and back only drops its edges. */
  lemma MovedBack(it: Item, dDepth: int, dQubit: int)
    ensures Moved(Moved(it, -dDepth, -dQubit), dDepth, dQubit) == Detached(it)
  {
    if it.GateItem? {
      ShiftedBack(it.gate.targets, dQubit);
      ShiftedBack(it.gate.controls, dQubit);
    }
  }

  /** Ungrouping items stored relative to an anchor places them back where they were. */
  lemma UngroupStored(items: seq<Item>, c: Item, uuids: seq<string>)
    requires c.CircuitItem? && c.circuit.gates == MovedAll(items, -c.depth, -c.startQubit) && |uuids| == |items|
    ensures forall i | 0 <= i < |items| ::
              Ungroup(c, uuids)[i] == WithId(Detached(items[i]), IdPrefix(items[i].Id()) + "-" + uuids[i])
  {
    var r := Ungroup(c, uuids);
    forall i | 0 <= i < |items|
      ensures r[i] == WithId(Detached(items[i]), IdPrefix(items[i].Id()) + "-" + uuids[i])
    {
      MovedBack(items[i], c.depth, c.startQubit);
      assert c.circuit.gates[i] == Moved(items[i], -c.depth, -c.startQubit);
    }
  }

  /**
   * Ungrouping a group gives back its items at their columns and on their
   * qubits: each is the original item without edges, renamed from its old
   * id's prefix and a fresh uuid.
   */
  lemma UngroupGroup(items: seq<Item>, symbol: Option<string>, color: Option<string>, uuid1: string, uuid2: string, c: Item, uuids: seq<string>)
    requires items != [] && NoNested(items) && AllQubits(items) != [] && |uuids| == |items|
    requires Group(items, symbol, color, uuid1, uuid2) == Success(c)
    ensures |c.circuit.gates| == |items|
            && forall i | 0 <= i < |items| ::
                 Ungroup(c, uuids)[i] == WithId(Detached(items[i]), IdPrefix(items[i].Id()) + "-" + uuids[i])
  {
    GroupStores(items, symbol, color, uuid1, uuid2, c);
    UngroupStored(items, c, uuids);
  }

  // ----------------------------------------------------------------- store

  /** One circuit's store, whose actions update its fields in place. */
  class Store {
    var placedGates: seq<Item>
    var numQubits: int
    var measurements: seq<bool>
    var showNestedCircuit: bool

    function State(): CircuitState
      reads this
    {
      CircuitState(placedGates, numQubits, measurements, showNestedCircuit)
    }

    constructor (defaultNumQubits: nat)
      ensures State() == Initial(defaultNumQubits)
    {
      placedGates := [];
      numQubits := defaultNumQubits;
      measurements := seq(defaultNumQubits, _ => true);
      showNestedCircuit := false;
    }

    method AddQubit()
      modifies this
      ensures State() == AfterAddQubit(old(State()))
    {
      numQubits := numQubits + 1;
      measurements := measurements + [true];
    }

    /** Raises the `TypeError` as `err`, leaving the store as it was. */
    method RemoveQubit() returns (err: Option<TypeError>)
      modifies this
      ensures var r := AfterRemoveQubit(old(State()));
              if r.Success? then err == None && State() == r.value
              else err == Some(r.error) && State() == old(State())
    {
      ghost var s := State();
      if numQubits <= 1 {
        assert AfterRemoveQubit(s) == Success(s);
        return None;
      }
      if !NoNested(placedGates) {
        assert AfterRemoveQubit(s) == Failure(NestedCircuitHasNoQubits);
        return Some(NestedCircuitHasNoQubits);
      }
      placedGates := OffQubit(placedGates, numQubits - 1);
      measurements := if measurements == [] then [] else measurements[..|measurements| - 1];
      numQubits := numQubits - 1;
      err := None;
      assert AfterRemoveQubit(s) == Success(State());
    }

    method ToggleMeasurement(index: int)
      modifies this
      ensures State() == old(State()).(measurements := Toggled(old(measurements), index))
    {
      measurements := Toggled(measurements, index);
    }
  }

  /** The module-level map of stores by circuit id. */
  class Registry {
    const defaultNumQubits: nat
    var stores: map<string, Store>

    constructor (defaultNumQubits: nat)
      ensures this.defaultNumQubits == defaultNumQubits && stores == map[]
    {
      this.defaultNumQubits := defaultNumQubits;
      stores := map[];
    }

    /**
     * `getOrCreateCircuitStore`: the store already made for `circuitId`, or
     * a fresh one in the initial state, remembered from then on.
     */
    method GetOrCreate(circuitId: string) returns (s: Store)
      modifies this
      ensures circuitId in old(stores) ==> s == old(stores)[circuitId] && stores == old(stores)
      ensures circuitId !in old(stores) ==>
                fresh(s) && s.State() == Initial(defaultNumQubits) && stores == old(stores)[circuitId := s]
    {
      if circuitId !in stores {
        var created := new Store(defaultNumQubits);
        stores := stores[circuitId := created];
      }
      s := stores[circuitId];
    }
  }
}
