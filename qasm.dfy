/**
 * The OpenQASM 2.0 serialiser of the circuit editor: a header, the gates in
 * column order (nested circuits expanded at their start qubit), and the
 * measurements, one statement per line; plus the summary figures shown next
 * to the exported text.
 */
module Qasm {
  import opened Wrappers
  import opened Text
  import opened Gates

  /** The editor's gate template ids, lower-cased, and the QASM gate each one prints as. */
  const GateNames: map<string, string> := map[
    "h" := "h", "x" := "x", "y" := "y", "z" := "z", "s" := "s", "t" := "t", "sx" := "sx",
    "cnot" := "cx", "cx" := "cx", "cz" := "cz", "swap" := "swap", "ch" := "ch", "ccx" := "ccx",
    "rx" := "rx", "ry" := "ry", "rz" := "rz"]

  /**
   * A placed gate carries no parameters, so every rotation is printed with
   * the default angle pi/2, written with six decimals.
   */
  const RotationAngle := "1.570796"

  predicate IsRotation(name: string) {
    name == "rx" || name == "ry" || name == "rz"
  }

  /** The QASM gate a template id prints as, if any. */
  function QasmName(templateId: string): (r: Option<string>)
    ensures r.Some? <==> ToLower(templateId) in GateNames
    ensures r.Some? ==> r.value == GateNames[ToLower(templateId)]
  {
    var id := ToLower(templateId);
    if id in GateNames then Some(GateNames[id]) else None
  }

  /** `q[k]` for the `i`-th qubit of `qs`; a missing one prints as `undefined`, as a template literal does. */
  function QubitRef(qs: seq<int>, i: nat): string {
    "q[" + (if i < |qs| then IntToString(qs[i]) else "undefined") + "]"
  }

  /** The line for a gate whose template maps to the QASM gate `name`. */
  function MappedLine(name: string, ts: seq<int>, cs: seq<int>): Option<string> {
    if IsRotation(name) then Some(name + "(" + RotationAngle + ") " + QubitRef(ts, 0) + ";")
    else if |cs| > 0 && |ts| == 1 then
      if name == "ccx" && |cs| == 2 then Some(name + " " + QubitRef(cs, 0) + ", " + QubitRef(cs, 1) + ", " + QubitRef(ts, 0) + ";")
      else Some(name + " " + QubitRef(cs, 0) + ", " + QubitRef(ts, 0) + ";")
    else if name == "swap" && |ts| == 2 then Some(name + " " + QubitRef(ts, 0) + ", " + QubitRef(ts, 1) + ";")
    else if |ts| == 1 then Some(name + " " + QubitRef(ts, 0) + ";")
    else None
  }

  /**
   * `gateToQASM`: the statement for a gate whose qubits are shifted by
   * `offset`. A gate yields a line exactly when its template is in the table
   * and it is a rotation, has a single target, or is a swap of two targets;
   * the line opens with the QASM gate's name.
   */
  function GateLine(g: Gate, offset: int): (r: Option<string>)
    ensures r.Some? <==>
              && QasmName(g.info.id).Some?
              && (IsRotation(QasmName(g.info.id).value) || |g.targets| == 1
                  || (QasmName(g.info.id).value == "swap" && |g.targets| == 2))
    ensures r.Some? ==> |QasmName(g.info.id).value| <= |r.value| && r.value[..|QasmName(g.info.id).value|] == QasmName(g.info.id).value
  {
    match QasmName(g.info.id)
    case None => None
    case Some(name) => MappedLine(name, Shifted(g.targets, offset), Shifted(g.controls, offset))
  }

  /** Nested circuits inside a nested circuit print nothing. */
  function ItemLine(it: Item, offset: int): Option<string> {
    if it.CircuitItem? then None else GateLine(it.gate, offset)
  }

  /** The lines an optional line contributes: it is pushed only when present. */
  function Pushed(line: Option<string>): seq<string> {
    if line.Some? then [line.value] else []
  }

  /** The lines of the gates of a nested circuit placed at `offset`, in stored order. */
  function NestedLines(items: seq<Item>, offset: int): seq<string>
    decreases |items|
  {
    if items == [] then []
    else NestedLines(items[..|items| - 1], offset) + Pushed(ItemLine(items[|items| - 1], offset))
  }

  /** A nested circuit opens with a comment naming it, then its gates at its start qubit. */
  function ItemLines(it: Item): seq<string> {
    match it
    case GateItem(g) => Pushed(GateLine(g, 0))
    case CircuitItem(_, _, start, _, _, c) => ["// Nested circuit: " + c.symbol] + NestedLines(c.gates, start)
  }

  function BodyLines(items: seq<Item>): seq<string>
    decreases |items|
  {
    if items == [] then []
    else BodyLines(items[..|items| - 1]) + ItemLines(items[|items| - 1])
  }

  /**
   * The qubit an item sorts by within its column: a nested circuit's start
   * qubit, or a gate's lowest qubit. A gate without qubits has none and sorts
   * after every other (`Math.min()` of nothing is infinity).
   */
  function SortQubit(it: Item): (r: Option<int>)
    ensures it.GateItem? && r.Some? ==> r.value in InvolvedQubits(it.gate) && forall q <- InvolvedQubits(it.gate) :: r.value <= q
  {
    match it
    case CircuitItem(_, _, start, _, _, _) => Some(start)
    case GateItem(g) => if InvolvedQubits(g) == [] then None else Some(SeqMin(InvolvedQubits(g)))
  }

  predicate QubitBefore(x: Option<int>, y: Option<int>) {
    match x
    case None => false
    case Some(a) => y.None? || a < y.value
  }

  /** The comparator: `a` goes strictly before `b` — an earlier column, or the same column and a lower qubit. */
  predicate Precedes(a: Item, b: Item) {
    a.Depth() < b.Depth() || (a.Depth() == b.Depth() && QubitBefore(SortQubit(a), SortQubit(b)))
  }

  ghost predicate SortedItems(s: seq<Item>) {
    forall i, j | 0 <= i < j < |s| :: !Precedes(s[j], s[i])
  }

  /** `Precedes` never holds both ways. */
  lemma PrecedesAsymmetric(a: Item, b: Item)
    ensures !(Precedes(a, b) && Precedes(b, a))
  {
  }

  /** If `a` goes before `c`, then `b` goes after `a` or before `c`: items with equal keys are interchangeable. */
  lemma PrecedesSplit(a: Item, b: Item, c: Item)
    requires Precedes(a, c)
    ensures Precedes(a, b) || Precedes(b, c)
  {
  }

  /** `x` placed after the last element of `s` that it does not precede. */
  function Insert(s: seq<Item>, x: Item): (r: seq<Item>)
    ensures multiset(r) == multiset(s) + multiset{x}
    decreases |s|
  {
    if s == [] then [x]
    else
      var last := s[|s| - 1];
      assert s == s[..|s| - 1] + [last];
      if Precedes(x, last) then Insert(s[..|s| - 1], x) + [last] else s + [x]
  }

  /** Inserting into a sorted sequence keeps it sorted. */
  lemma {:induction false} InsertSorted(s: seq<Item>, x: Item)
    requires SortedItems(s)
    ensures SortedItems(Insert(s, x))
    decreases |s|
  {
    if s != [] {
      var init, last := s[..|s| - 1], s[|s| - 1];
      if Precedes(x, last) {
        InsertSorted(init, x);
        var t := Insert(init, x);
        forall i | 0 <= i < |t|
          ensures !Precedes(last, t[i])
        {
          assert t[i] in multiset(t);
          if t[i] == x {
            PrecedesAsymmetric(x, last);
          } else {
            assert t[i] in multiset(init);
            var k :| 0 <= k < |init| && init[k] == t[i];
            assert s[k] == t[i];
          }
        }
      } else {
        forall i | 0 <= i < |s|
          ensures !Precedes(x, s[i])
        {
          if Precedes(x, s[i]) {
            PrecedesSplit(x, last, s[i]);
          }
        }
      }
    }
  }

  /**
   * The sorted copy of the items (`[...placedGates].sort(...)`): the same
   * items, each column in qubit order, columns in depth order.
   */
  function SortItems(items: seq<Item>): (r: seq<Item>)
    ensures multiset(r) == multiset(items)
    ensures SortedItems(r)
    decreases |items|
  {
    if items == [] then []
    else
      var prev := SortItems(items[..|items| - 1]);
      assert items == items[..|items| - 1] + [items[|items| - 1]];
      InsertSorted(prev, items[|items| - 1]);
      Insert(prev, items[|items| - 1])
  }

  /** `measurements.some(m => m)`. */
  predicate HasMeasurements(measurements: seq<bool>) {
    exists i | 0 <= i < |measurements| :: measurements[i]
  }

  /** A qubit is measured when its flag is present and true. */
  predicate Measured(measurements: seq<bool>, i: nat) {
    i < |measurements| && measurements[i]
  }

  function CregLine(numQubits: int): string {
    "creg c[" + IntToString(numQubits) + "];"
  }

  function Header(numQubits: int, hasMeasurements: bool): seq<string> {
    ["OPENQASM 2.0;", "include \"qelib1.inc\";", "", "qreg q[" + IntToString(numQubits) + "];"]
    + (if hasMeasurements then [CregLine(numQubits)] else [])
    + [""]
  }

  function MeasureLine(i: nat): string {
    "measure q[" + NatToString(i) + "] -> c[" + NatToString(i) + "];"
  }

  /** The measure statements for the qubits below `k`, in index order. */
  function MeasureLines(measurements: seq<bool>, k: nat): seq<string> {
    if k == 0 then []
    else MeasureLines(measurements, k - 1) + (if Measured(measurements, k - 1) then [MeasureLine(k - 1)] else [])
  }

  /** The number of qubits the measurement loop visits. */
  function Qubits(numQubits: int): nat {
    if numQubits < 0 then 0 else numQubits
  }

  function Footer(numQubits: int, measurements: seq<bool>): seq<string> {
    if HasMeasurements(measurements) then [""] + MeasureLines(measurements, Qubits(numQubits)) else []
  }

  /** The lines `circuitToQASM` pushes. */
  function QasmLines(numQubits: int, items: seq<Item>, measurements: seq<bool>): seq<string> {
    Header(numQubits, HasMeasurements(measurements)) + BodyLines(SortItems(items)) + Footer(numQubits, measurements)
  }

  /** `lines.join('\n')`. */
  function Join(lines: seq<string>): string
    decreases |lines|
  {
    if lines == [] then ""
    else if |lines| == 1 then lines[0]
    else Join(lines[..|lines| - 1]) + "\n" + lines[|lines| - 1]
  }

  lemma BodyLinesStep(s: seq<Item>, i: nat)
    requires i < |s|
    ensures BodyLines(s[..i + 1]) == BodyLines(s[..i]) + ItemLines(s[i])
  {
    assert s[..i + 1][..i] == s[..i];
  }

  lemma AppendAssoc<T>(a: seq<T>, b: seq<T>, c: seq<T>)
    ensures a + b + c == a + (b + c)
  {
  }

  /** The lines one sorted item pushes: a gate's own line, or a nested circuit's comment and its gates' lines. */
  method PushItem(item: Item) returns (pushed: seq<string>)
    ensures pushed == ItemLines(item)
  {
    if item.CircuitItem? {
      var gates := item.circuit.gates;
      var nested: seq<string> := [];
      for j := 0 to |gates|
        invariant nested == NestedLines(gates[..j], item.startQubit)
      {
        assert gates[..j + 1][..j] == gates[..j];
        var line := ItemLine(gates[j], item.startQubit);
        if line.Some? {
          nested := nested + [line.value];
        }
      }
      assert gates[..|gates|] == gates;
      pushed := ["// Nested circuit: " + item.circuit.symbol] + nested;
    } else {
      var line := GateLine(item.gate, 0);
      pushed := if line.Some? then [line.value] else [];
    }
  }

  /** The measurement loop: a statement for each measured qubit below `n`, in index order. */
  method PushMeasurements(measurements: seq<bool>, n: nat) returns (pushed: seq<string>)
    ensures pushed == MeasureLines(measurements, n)
  {
    pushed := [];
    for i := 0 to n
      invariant pushed == MeasureLines(measurements, i)
    {
      if i < |measurements| && measurements[i] {
        pushed := pushed + [MeasureLine(i)];
      }
    }
  }

  /** `circuitToQASM`. */
  method CircuitToQASM(numQubits: int, placedGates: seq<Item>, measurements: seq<bool>) returns (code: string)
    ensures code == Join(QasmLines(numQubits, placedGates, measurements))
  {
    var lines := ["OPENQASM 2.0;", "include \"qelib1.inc\";", "", "qreg q[" + IntToString(numQubits) + "];"];
    var hasMeasurements := HasMeasurements(measurements);
    if hasMeasurements {
      lines := lines + [CregLine(numQubits)];
    }
    lines := lines + [""];
    var header := lines;
    assert header == Header(numQubits, hasMeasurements);
    var sorted := SortItems(placedGates);
    for i := 0 to |sorted|
      invariant lines == header + BodyLines(sorted[..i])
    {
      var pushed := PushItem(sorted[i]);
      BodyLinesStep(sorted, i);
      AppendAssoc(header, BodyLines(sorted[..i]), pushed);
      lines := lines + pushed;
    }
    assert sorted[..|sorted|] == sorted;
    if hasMeasurements {
      var measures := PushMeasurements(measurements, Qubits(numQubits));
      lines := lines + [""] + measures;
      AppendAssoc(header + BodyLines(sorted), [""], measures);
      assert lines == header + BodyLines(sorted) + Footer(numQubits, measurements);
    } else {
      assert header + BodyLines(sorted) + Footer(numQubits, measurements) == header + BodyLines(sorted);
    }
    assert lines == QasmLines(numQubits, placedGates, measurements);
    code := Join(lines);
  }

  // ---- The measurement block ----

  /** The qubits below `k` that are measured, in increasing order. */
  function MeasuredBelow(measurements: seq<bool>, k: nat): (r: seq<nat>)
    ensures forall i: nat :: i in r <==> i < k && Measured(measurements, i)
    ensures forall a, b | 0 <= a < b < |r| :: r[a] < r[b]
    decreases k
  {
    if k == 0 then []
    else
      var prev := MeasuredBelow(measurements, k - 1);
      if Measured(measurements, k - 1) then
        var r := prev + [k - 1];
        assert forall x <- prev :: x < k - 1;
        assert forall a | 0 <= a < |prev| :: r[a] == prev[a] && prev[a] in prev;
        r
      else prev
  }

  /** The measure statement names its qubit: two different qubits never share one. */
  lemma MeasureLineInjective(i: nat, j: nat)
    requires MeasureLine(i) == MeasureLine(j)
    ensures i == j
  {
    var s1, s2 := NatToString(i), NatToString(j);
    var l := MeasureLine(i);
    assert l == "measure q[" + s1 + "] -> c[" + s1 + "];";
    assert l == "measure q[" + s2 + "] -> c[" + s2 + "];";
    assert |s1| == |s2|;
    assert s1 == l[10..10 + |s1|] == s2;
    NatToStringRoundTrip(i);
    NatToStringRoundTrip(j);
  }

  /** The measurement loop writes one statement per measured qubit, in qubit order. */
  lemma {:induction false} MeasureLinesAreMeasured(measurements: seq<bool>, k: nat)
    ensures var ls, qs := MeasureLines(measurements, k), MeasuredBelow(measurements, k);
            |ls| == |qs| && forall p | 0 <= p < |ls| :: ls[p] == MeasureLine(qs[p])
  {
    if k > 0 {
      MeasureLinesAreMeasured(measurements, k - 1);
    }
  }

  /**
   * A qubit gets a measure statement exactly when it is below `k` and
   * measured, and the statements come in increasing qubit order.
   */
  lemma MeasureLinesExactly(measurements: seq<bool>, k: nat)
    ensures forall i: nat :: MeasureLine(i) in MeasureLines(measurements, k) <==> i < k && Measured(measurements, i)
    ensures var ls := MeasureLines(measurements, k);
            forall a, b, i: nat, j: nat | 0 <= a < b < |ls| && ls[a] == MeasureLine(i) && ls[b] == MeasureLine(j) :: i < j
  {
    var ls, qs := MeasureLines(measurements, k), MeasuredBelow(measurements, k);
    MeasureLinesAreMeasured(measurements, k);
    forall i: nat | MeasureLine(i) in ls
      ensures i < k && Measured(measurements, i)
    {
      var p :| 0 <= p < |ls| && ls[p] == MeasureLine(i);
      MeasureLineInjective(i, qs[p]);
    }
    forall i: nat | i < k && Measured(measurements, i)
      ensures MeasureLine(i) in ls
    {
      var p :| 0 <= p < |qs| && qs[p] == i;
      assert ls[p] == MeasureLine(i);
    }
    forall a, b, i: nat, j: nat | 0 <= a < b < |ls| && ls[a] == MeasureLine(i) && ls[b] == MeasureLine(j)
      ensures i < j
    {
      MeasureLineInjective(i, qs[a]);
      MeasureLineInjective(j, qs[b]);
    }
  }

  // ---- Which statements the output holds ----

  /** `l` begins with `p`. */
  predicate Opens(l: string, p: string) {
    |p| <= |l| && l[..|p|] == p
  }

  /** A gate or comment line: it opens with a QASM gate name or with `//`. */
  predicate BodyLine(l: string) {
    Opens(l, "//") || exists name <- GateNames.Values :: Opens(l, name)
  }

  lemma {:induction false} NestedLinesAreBody(items: seq<Item>, offset: int)
    ensures forall l <- NestedLines(items, offset) :: BodyLine(l)
    decreases |items|
  {
    if items != [] {
      NestedLinesAreBody(items[..|items| - 1], offset);
      var it := items[|items| - 1];
      if !it.CircuitItem? && GateLine(it.gate, offset).Some? {
        assert QasmName(it.gate.info.id).value in GateNames.Values;
      }
    }
  }

  lemma {:induction false} BodyLinesAreBody(items: seq<Item>)
    ensures forall l <- BodyLines(items) :: BodyLine(l)
    decreases |items|
  {
    if items != [] {
      BodyLinesAreBody(items[..|items| - 1]);
      match items[|items| - 1]
      case GateItem(g) =>
        if GateLine(g, 0).Some? {
          assert QasmName(g.info.id).value in GateNames.Values;
        }
      case CircuitItem(_, _, start, _, _, c) =>
        NestedLinesAreBody(c.gates, start);
    }
  }

  /** No gate or comment line is a `creg` or `measure` statement. */
  lemma BodyLineIsNoRegisterLine(l: string, numQubits: int, i: nat)
    requires BodyLine(l)
    ensures l != CregLine(numQubits) && l != MeasureLine(i)
  {
    assert Opens(CregLine(numQubits), "cr");
    assert Opens(MeasureLine(i), "me");
    if !Opens(l, "//") {
      var name :| name in GateNames.Values && Opens(l, name);
      assert name in {"h", "x", "y", "z", "s", "t", "sx", "cx", "cz", "swap", "ch", "ccx", "rx", "ry", "rz"};
      assert l[0] == name[0];
      assert |name| >= 2 ==> l[1] == name[1];
    }
  }

  /** Only the header can declare the classical register, and it does so when some qubit is measured. */
  lemma QasmDeclaresCreg(numQubits: int, items: seq<Item>, measurements: seq<bool>)
    ensures CregLine(numQubits) in QasmLines(numQubits, items, measurements) <==> HasMeasurements(measurements)
  {
    var has := HasMeasurements(measurements);
    var body, footer := BodyLines(SortItems(items)), Footer(numQubits, measurements);
    var creg := CregLine(numQubits);
    assert Opens(creg, "cr");
    BodyLinesAreBody(SortItems(items));
    assert creg !in body by {
      if creg in body {
        BodyLineIsNoRegisterLine(creg, numQubits, 0);
      }
    }
    FooterOpensWithM(numQubits, measurements);
    forall h <- Header(numQubits, false)
      ensures h != creg
    {
      assert h == [] || h[0] != 'c';
    }
    assert creg in Header(numQubits, has) <==> has;
  }

  /** Every line of the measurement block is a measure statement, opening with `m`. */
  lemma FooterOpensWithM(numQubits: int, measurements: seq<bool>)
    ensures forall l <- Footer(numQubits, measurements) :: l == [] || l[0] == 'm'
  {
    MeasureLinesAreMeasured(measurements, Qubits(numQubits));
  }

  /** The output measures exactly the measured qubits below the register size, and only when some qubit is measured. */
  lemma QasmMeasures(numQubits: int, items: seq<Item>, measurements: seq<bool>, i: nat)
    ensures MeasureLine(i) in QasmLines(numQubits, items, measurements) <==>
              HasMeasurements(measurements) && i < numQubits && Measured(measurements, i)
  {
    var has := HasMeasurements(measurements);
    var header, body := Header(numQubits, has), BodyLines(SortItems(items));
    var line := MeasureLine(i);
    BodyLinesAreBody(SortItems(items));
    MeasureLinesExactly(measurements, Qubits(numQubits));
    forall h <- header
      ensures h != line
    {
      assert h == [] || h[0] != 'm';
    }
    if line in body {
      BodyLineIsNoRegisterLine(line, numQubits, i);
    }
  }

  // ---- Nested circuits ----

  /** A nested gate prints as the same gate with its qubits moved by the circuit's start qubit. */
  lemma GateLineOffset(g: Gate, offset: int)
    ensures GateLine(g, offset) == GateLine(g.(targets := Shifted(g.targets, offset), controls := Shifted(g.controls, offset)), 0)
  {
    assert Shifted(Shifted(g.targets, offset), 0) == Shifted(g.targets, offset);
    assert Shifted(Shifted(g.controls, offset), 0) == Shifted(g.controls, offset);
  }

  // ---- Summary figures ----

  predicate SingleLine(s: string) {
    '\n' !in s
  }

  lemma IntToStringSingleLine(n: int)
    ensures SingleLine(IntToString(n))
  {
    var d := NatToString(if n < 0 then -n else n);
    assert forall i | 0 <= i < |d| :: IsDigit(d[i]);
  }

  lemma QubitRefSingleLine(qs: seq<int>, i: nat)
    ensures SingleLine(QubitRef(qs, i))
  {
    if i < |qs| {
      IntToStringSingleLine(qs[i]);
    }
  }

  lemma MappedLineSingleLine(name: string, ts: seq<int>, cs: seq<int>)
    requires SingleLine(name) && name != ""
    ensures MappedLine(name, ts, cs).Some? ==> MappedLine(name, ts, cs).value != ""
    ensures MappedLine(name, ts, cs).Some? ==> SingleLine(MappedLine(name, ts, cs).value)
  {
    QubitRefSingleLine(ts, 0);
    QubitRefSingleLine(ts, 1);
    QubitRefSingleLine(cs, 0);
    QubitRefSingleLine(cs, 1);
    var t0, t1, c0, c1 := QubitRef(ts, 0), QubitRef(ts, 1), QubitRef(cs, 0), QubitRef(cs, 1);
    assert SingleLine(" ") && SingleLine(";") && SingleLine(", ") && SingleLine("(" + RotationAngle + ") ");
    if IsRotation(name) {
      assert MappedLine(name, ts, cs).value == name + "(" + RotationAngle + ") " + t0 + ";";
    } else if |cs| > 0 && |ts| == 1 {
      if name == "ccx" && |cs| == 2 {
        assert MappedLine(name, ts, cs).value == name + " " + c0 + ", " + c1 + ", " + t0 + ";";
      } else {
        assert MappedLine(name, ts, cs).value == name + " " + c0 + ", " + t0 + ";";
      }
    } else if name == "swap" && |ts| == 2 {
      assert MappedLine(name, ts, cs).value == name + " " + t0 + ", " + t1 + ";";
    } else if |ts| == 1 {
      assert MappedLine(name, ts, cs).value == name + " " + t0 + ";";
    }
  }

  /** A gate's statement is a single, non-empty line. */
  lemma GateLineSingleLine(g: Gate, offset: int)
    ensures GateLine(g, offset).Some? ==> GateLine(g, offset).value != "" && SingleLine(GateLine(g, offset).value)
  {
    if QasmName(g.info.id).Some? {
      var name := QasmName(g.info.id).value;
      assert name in GateNames.Values;
      assert SingleLine(name) && name != "" by {
        assert name in {"h", "x", "y", "z", "s", "t", "sx", "cx", "cz", "swap", "ch", "ccx", "rx", "ry", "rz"};
      }
      MappedLineSingleLine(name, Shifted(g.targets, offset), Shifted(g.controls, offset));
    }
  }

  lemma {:induction false} NestedLinesSingle(items: seq<Item>, offset: int)
    ensures forall l <- NestedLines(items, offset) :: SingleLine(l)
    decreases |items|
  {
    if items != [] {
      NestedLinesSingle(items[..|items| - 1], offset);
      var it := items[|items| - 1];
      if !it.CircuitItem? {
        GateLineSingleLine(it.gate, offset);
      }
    }
  }

  /** Nested circuits whose names are single lines. */
  predicate SingleLineNames(items: seq<Item>) {
    forall it <- items | it.CircuitItem? :: SingleLine(it.circuit.symbol)
  }

  lemma {:induction false} BodyLinesSingle(items: seq<Item>)
    requires SingleLineNames(items)
    ensures forall l <- BodyLines(items) :: SingleLine(l)
    decreases |items|
  {
    if items != [] {
      var n := |items| - 1;
      var last := items[n];
      assert last in items;
      BodyLinesSingle(items[..n]);
      ItemLinesSingle(last);
      AllSingleConcat(BodyLines(items[..n]), ItemLines(last));
    }
  }

  lemma ItemLinesSingle(it: Item)
    requires it.CircuitItem? ==> SingleLine(it.circuit.symbol)
    ensures forall l <- ItemLines(it) :: SingleLine(l)
  {
    match it
    case GateItem(g) => GateLineSingleLine(g, 0);
    case CircuitItem(_, _, start, _, _, c) => NestedLinesSingle(c.gates, start);
  }

  lemma AllSingleConcat(a: seq<string>, b: seq<string>)
    requires forall l <- a :: SingleLine(l)
    requires forall l <- b :: SingleLine(l)
    ensures forall l <- a + b :: SingleLine(l)
  {
  }

  lemma HeaderSingle(numQubits: int, hasMeasurements: bool)
    ensures forall l <- Header(numQubits, hasMeasurements) :: SingleLine(l)
  {
    IntToStringSingleLine(numQubits);
  }

  lemma FooterSingle(numQubits: int, measurements: seq<bool>)
    ensures forall l <- Footer(numQubits, measurements) :: SingleLine(l)
  {
    MeasureLinesAreMeasured(measurements, Qubits(numQubits));
    forall i: nat
      ensures SingleLine(MeasureLine(i))
    {
      IntToStringSingleLine(i);
    }
  }

  /** When no nested circuit's name spans lines, every statement of the output is one line. */
  lemma QasmLinesSingle(numQubits: int, items: seq<Item>, measurements: seq<bool>)
    requires SingleLineNames(items)
    ensures forall l <- QasmLines(numQubits, items, measurements) :: SingleLine(l)
  {
    var sorted := SortItems(items);
    forall it <- sorted | it.CircuitItem?
      ensures SingleLine(it.circuit.symbol)
    {
      assert it in multiset(sorted);
    }
    BodyLinesSingle(sorted);
    HeaderSingle(numQubits, HasMeasurements(measurements));
    FooterSingle(numQubits, measurements);
  }

  /** The number of line breaks in `s`. */
  function Breaks(s: string): nat
    decreases |s|
  {
    if s == [] then 0 else Breaks(s[..|s| - 1]) + (if s[|s| - 1] == '\n' then 1 else 0)
  }

  lemma {:induction false} BreaksAppend(a: string, b: string)
    ensures Breaks(a + b) == Breaks(a) + Breaks(b)
    decreases |b|
  {
    if b == [] {
      assert a + b == a;
    } else {
      assert (a + b)[..|a + b| - 1] == a + b[..|b| - 1];
      BreaksAppend(a, b[..|b| - 1]);
    }
  }

  lemma {:induction false} BreaksSingle(s: string)
    requires SingleLine(s)
    ensures Breaks(s) == 0
    decreases |s|
  {
    if s != [] {
      assert s[|s| - 1] in s;
      assert forall c <- s[..|s| - 1] :: c in s;
      BreaksSingle(s[..|s| - 1]);
    }
  }

  /** `code.split('\n').length`: one more than the number of line breaks. */
  function LineCount(code: string): nat {
    Breaks(code) + 1
  }

  /** Joining single lines and splitting the result again gives back as many lines. */
  lemma {:induction false} JoinLineCount(lines: seq<string>)
    requires lines != [] && forall l <- lines :: SingleLine(l)
    ensures LineCount(Join(lines)) == |lines|
    decreases |lines|
  {
    if |lines| == 1 {
      BreaksSingle(lines[0]);
    } else {
      var init, last := lines[..|lines| - 1], lines[|lines| - 1];
      assert forall l <- init :: l in lines;
      JoinLineCount(init);
      BreaksAppend(Join(init), "\n");
      BreaksAppend(Join(init) + "\n", last);
      assert Breaks("\n") == 1 by {
        assert "\n"[..0] == "";
      }
      BreaksSingle(last);
    }
  }

  datatype QasmSummary = QasmSummary(code: string, lines: nat, gates: nat, depth: int)

  /**
   * `getQASMWithMetadata`: the text, its line count, the number of placed
   * items, and the number of columns — one past the deepest item, or 0 for
   * an empty circuit.
   */
  function QasmWithMetadata(numQubits: int, placedGates: seq<Item>, measurements: seq<bool>): (r: QasmSummary)
    ensures r.gates == |placedGates|
    ensures placedGates == [] ==> r.depth == 0
    ensures forall it <- placedGates :: it.Depth() < r.depth
    ensures placedGates != [] ==> exists it <- placedGates :: r.depth == it.Depth() + 1
  {
    var code := Join(QasmLines(numQubits, placedGates, measurements));
    var depth := if placedGates == [] then 0 else SeqMax(DepthsOf(placedGates)) + 1;
    assert forall it <- placedGates :: it.Depth() in DepthsOf(placedGates) by {
      forall it <- placedGates
        ensures it.Depth() in DepthsOf(placedGates)
      {
        var i :| 0 <= i < |placedGates| && placedGates[i] == it;
        assert DepthsOf(placedGates)[i] == it.Depth();
      }
    }
    QasmSummary(code, LineCount(code), |placedGates|, depth)
  }

  /** The reported line count is the number of statements written, as long as no nested circuit's name spans lines. */
  lemma MetadataLines(numQubits: int, placedGates: seq<Item>, measurements: seq<bool>)
    requires SingleLineNames(placedGates)
    ensures QasmWithMetadata(numQubits, placedGates, measurements).lines == |QasmLines(numQubits, placedGates, measurements)|
  {
    QasmLinesSingle(numQubits, placedGates, measurements);
    JoinLineCount(QasmLines(numQubits, placedGates, measurements));
  }

  // ---- Examples ----

  function SampleHadamard(): Gate {
    Gate("gate-1", GateInfo("H", "Hadamard", "H", 1, 0), 1, [1], [], [], [])
  }

  function SamplePauliX(): Gate {
    Gate("gate-2", GateInfo("X", "Pauli-X", "X", 1, 0), 0, [0], [], [], [])
  }

  /** Sorting puts the earlier column first. */
  lemma SampleSort()
    ensures SortItems([GateItem(SampleHadamard()), GateItem(SamplePauliX())]) == [GateItem(SamplePauliX()), GateItem(SampleHadamard())]
  {
    var h, x := GateItem(SampleHadamard()), GateItem(SamplePauliX());
    assert [h, x][..1] == [h] && [h][..0] == [];
    assert SortItems([h]) == [h];
    assert Precedes(x, h);
  }

  lemma SampleLines()
    ensures GateLine(SamplePauliX(), 0) == Some("x q[0];")
    ensures GateLine(SampleHadamard(), 0) == Some("h q[1];")
  {
    assert ToLower("X") == "x" && ToLower("H") == "h";
    assert QasmName("X") == Some("x") && QasmName("H") == Some("h");
    assert Shifted([0], 0) == [0] && Shifted([1], 0) == [1] && Shifted([], 0) == [];
    assert IntToString(0) == "0" && IntToString(1) == "1";
    assert QubitRef([0], 0) == "q[0]" && QubitRef([1], 0) == "q[1]";
    assert MappedLine("x", [0], []) == Some("x" + " " + "q[0]" + ";");
    assert "x" + " " + "q[0]" + ";" == "x q[0];";
    assert MappedLine("h", [1], []) == Some("h" + " " + "q[1]" + ";");
    assert "h" + " " + "q[1]" + ";" == "h q[1];";
  }

  /** An X in column 0 on qubit 0 is written before an H in column 1 on qubit 1, whatever their order in the list. */
  lemma SampleColumnOrder()
    ensures BodyLines(SortItems([GateItem(SampleHadamard()), GateItem(SamplePauliX())])) == ["x q[0];", "h q[1];"]
  {
    var h, x := GateItem(SampleHadamard()), GateItem(SamplePauliX());
    SampleSort();
    SampleLines();
    assert [x, h][..1] == [x] && [x][..0] == [];
  }

  /** The operand list of a statement: each qubit as `q[n]`, separated by a comma and a space. */
  function Refs(qs: seq<int>): string
    decreases |qs|
  {
    if qs == [] then ""
    else if |qs| == 1 then "q[" + IntToString(qs[0]) + "]"
    else "q[" + IntToString(qs[0]) + "], " + Refs(qs[1..])
  }

  /**
   * The operands of every gate line, with the qubits shifted by the offset:
   * a rotation acts on its first target after the angle; a controlled gate
   * lists its control (both controls for a ccx with two) and then its target;
   * a swap lists both targets; any other gate its one target.
   */
  lemma GateLineOperands(g: Gate, offset: int)
    requires GateLine(g, offset).Some? && g.targets != []
    ensures var name := QasmName(g.info.id).value;
            var line := GateLine(g, offset).value;
            var t0 := g.targets[0] + offset;
            if IsRotation(name) then line == name + "(" + RotationAngle + ") " + Refs([t0]) + ";"
            else if g.controls != [] && |g.targets| == 1 then
              if name == "ccx" && |g.controls| == 2 then
                line == name + " " + Refs([g.controls[0] + offset, g.controls[1] + offset, t0]) + ";"
              else line == name + " " + Refs([g.controls[0] + offset, t0]) + ";"
            else if name == "swap" && |g.targets| == 2 then line == name + " " + Refs([t0, g.targets[1] + offset]) + ";"
            else |g.targets| == 1 && line == name + " " + Refs([t0]) + ";"
  {
    var name := QasmName(g.info.id).value;
    var ts := Shifted(g.targets, offset);
    var cs := Shifted(g.controls, offset);
    assert GateLine(g, offset) == MappedLine(name, ts, cs);
    if IsRotation(name) {
      RotationOperands(name, ts, cs);
    } else if g.controls != [] && |g.targets| == 1 {
      if name == "ccx" && |g.controls| == 2 {
        CcxOperands(name, ts, cs);
      } else {
        ControlledOperands(name, ts, cs);
      }
    } else if name == "swap" && |g.targets| == 2 {
      SwapOperands(name, ts, cs);
    } else {
      SingleOperand(name, ts, cs);
    }
  }

  lemma RotationOperands(name: string, ts: seq<int>, cs: seq<int>)
    requires IsRotation(name) && ts != []
    ensures MappedLine(name, ts, cs) == Some(name + "(" + RotationAngle + ") " + Refs([ts[0]]) + ";")
  {
  }

  lemma CcxOperands(name: string, ts: seq<int>, cs: seq<int>)
    requires !IsRotation(name) && name == "ccx" && |cs| == 2 && |ts| == 1
    ensures MappedLine(name, ts, cs) == Some(name + " " + Refs([cs[0], cs[1], ts[0]]) + ";")
  {
    var a, b, c := QubitRef(cs, 0), QubitRef(cs, 1), QubitRef(ts, 0);
    assert a == Refs([cs[0]]) && b == Refs([cs[1]]) && c == Refs([ts[0]]);
    Refs3(cs[0], cs[1], ts[0]);
    JoinThree(name + " ", a, b, c, ";");
  }

  /** Three operands written one after another are the joined operand list. */
  lemma JoinThree(lead: string, a: string, b: string, c: string, tail: string)
    ensures lead + a + ", " + b + ", " + c + tail == lead + (a + ", " + (b + ", " + c)) + tail
  {
    assert a + ", " + b + ", " + c == a + ", " + (b + ", " + c);
    assert lead + a + ", " + b + ", " + c == lead + (a + ", " + b + ", " + c);
  }

  lemma Refs3(x: int, y: int, z: int)
    ensures Refs([x, y, z]) == Refs([x]) + ", " + (Refs([y]) + ", " + Refs([z]))
  {
    RefsCons(y, [z]);
    RefsCons(x, [y, z]);
    assert [x] + [y, z] == [x, y, z];
    assert [y] + [z] == [y, z];
  }

  lemma ControlledOperands(name: string, ts: seq<int>, cs: seq<int>)
    requires !IsRotation(name) && !(name == "ccx" && |cs| == 2) && cs != [] && |ts| == 1
    ensures MappedLine(name, ts, cs) == Some(name + " " + Refs([cs[0], ts[0]]) + ";")
  {
    RefsCons(cs[0], [ts[0]]);
    assert [cs[0]] + [ts[0]] == [cs[0], ts[0]];
    var a, c := QubitRef(cs, 0), QubitRef(ts, 0);
    assert a == Refs([cs[0]]) && c == Refs([ts[0]]);
    assert name + " " + a + ", " + c + ";" == name + " " + (a + ", " + c) + ";";
  }

  lemma SwapOperands(name: string, ts: seq<int>, cs: seq<int>)
    requires !IsRotation(name) && !(cs != [] && |ts| == 1) && name == "swap" && |ts| == 2
    ensures MappedLine(name, ts, cs) == Some(name + " " + Refs([ts[0], ts[1]]) + ";")
  {
    RefsCons(ts[0], [ts[1]]);
    assert [ts[0]] + [ts[1]] == [ts[0], ts[1]];
    var a, c := QubitRef(ts, 0), QubitRef(ts, 1);
    assert a == Refs([ts[0]]) && c == Refs([ts[1]]);
    assert name + " " + a + ", " + c + ";" == name + " " + (a + ", " + c) + ";";
  }

  lemma SingleOperand(name: string, ts: seq<int>, cs: seq<int>)
    requires !IsRotation(name) && !(cs != [] && |ts| == 1) && !(name == "swap" && |ts| == 2)
    requires MappedLine(name, ts, cs).Some?
    ensures |ts| == 1 && MappedLine(name, ts, cs) == Some(name + " " + Refs([ts[0]]) + ";")
  {
  }

  lemma RefsCons(q: int, rest: seq<int>)
    requires rest != []
    ensures Refs([q] + rest) == Refs([q]) + ", " + Refs(rest)
  {
    assert ([q] + rest)[1..] == rest;
  }

  /** A CNOT with control 0 and target 1 prints its control first. */
  lemma SampleControlledLine()
    ensures GateLine(Gate("cnot-1", GateInfo("CNOT", "CNOT", "X", 1, 1), 0, [1], [0], [], []), 0) == Some("cx q[0], q[1];")
  {
    assert ToLower("CNOT") == "cnot";
    assert QasmName("CNOT") == Some("cx");
    assert Shifted([0], 0) == [0] && Shifted([1], 0) == [1];
    assert IntToString(0) == "0" && IntToString(1) == "1";
    assert QubitRef([0], 0) == "q[0]" && QubitRef([1], 0) == "q[1]";
    assert MappedLine("cx", [1], [0]) == Some("cx" + " " + "q[0]" + ", " + "q[1]" + ";");
    assert "cx" + " " + "q[0]" + ", " + "q[1]" + ";" == "cx q[0], q[1];";
  }
}
