/**
 * Placed gates and the helpers that read their qubits. A placed gate names
 * its template, its column (depth), its target and control qubits and its
 * dependency edges (parents and children, by gate id). A placed item is a
 * gate or a nested circuit anchored at a start qubit.
 */
module Gates {
  import opened Wrappers

  /** The template a placed gate instantiates (presentation fields omitted). */
  datatype GateInfo = GateInfo(id: string, name: string, symbol: string, numTargetQubits: nat, numControlQubits: nat)

  datatype Gate = Gate(
    id: string,
    info: GateInfo,
    depth: int,
    targets: seq<int>,
    controls: seq<int>,
    parents: seq<string>,
    children: seq<string>)

  /** A grouped sub-circuit: its items are stored relative to the group's anchor. */
  datatype Circuit = Circuit(id: string, symbol: string, color: string, gates: seq<Item>)

  datatype Item =
    | GateItem(gate: Gate)
    | CircuitItem(id: string, depth: int, startQubit: int, parents: seq<string>, children: seq<string>, circuit: Circuit)
  {
    function Depth(): int {
      if GateItem? then gate.depth else depth
    }

    function Id(): string {
      if GateItem? then gate.id else id
    }
  }

  /** The column of each item, in order. */
  function DepthsOf(items: seq<Item>): (r: seq<int>)
    ensures |r| == |items| && forall i | 0 <= i < |items| :: r[i] == items[i].Depth()
  {
    seq(|items|, i requires 0 <= i < |items| => items[i].Depth())
  }

  /** Target and control qubits of a gate placed from a start qubit. */
  datatype QubitArrays = QubitArrays(targets: seq<int>, controls: seq<int>)

  /** The `n` consecutive qubits from `start`. */
  function Range(start: int, n: nat): (r: seq<int>)
    ensures |r| == n
    ensures forall i | 0 <= i < n :: r[i] == start + i
  {
    seq(n, i requires 0 <= i < n => start + i)
  }

  /**
   * `createQubitArrays`: one qubit is a lone target; otherwise the `n`
   * consecutive qubits from `start` are split into controls and a final
   * target.
   */
  function CreateQubitArrays(start: int, n: int): (r: QubitArrays)
    requires n >= 1
    ensures r.targets == [start + n - 1]
    ensures |r.controls| == n - 1
    ensures forall i | 0 <= i < n - 1 :: r.controls[i] == start + i
  {
    if n == 1 then QubitArrays([start], [])
    else
      var qubits := Range(start, n);
      QubitArrays([qubits[n - 1]], qubits[..n - 1])
  }

  /** Qubit indices moved by `offset`. */
  function Shifted(qs: seq<int>, offset: int): (r: seq<int>)
    ensures |r| == |qs| && forall i | 0 <= i < |qs| :: r[i] == qs[i] + offset
  {
    seq(|qs|, i requires 0 <= i < |qs| => qs[i] + offset)
  }

  /** `getInvolvedQubits`: the controls, then the targets, in their stored order. */
  function InvolvedQubits(g: Gate): (r: seq<int>)
    ensures |r| == |g.controls| + |g.targets|
    ensures forall q :: q in r <==> q in g.controls || q in g.targets
  {
    g.controls + g.targets
  }

  /** A gate placed with `CreateQubitArrays` touches exactly the `n` consecutive qubits from `start`. */
  lemma {:induction false} CreatedGateIsContiguous(g: Gate, start: int, n: int)
    requires n >= 1
    requires g.targets == CreateQubitArrays(start, n).targets && g.controls == CreateQubitArrays(start, n).controls
    ensures InvolvedQubits(g) == Range(start, n)
    ensures QubitSpan(g) == Some(Span(start, start + n - 1))
  {
    var r := InvolvedQubits(g);
    assert r == Range(start, n);
    SpanOfRange(g, start, n);
  }

  lemma {:induction false} SpanOfRange(g: Gate, start: int, n: int)
    requires n >= 1 && InvolvedQubits(g) == Range(start, n)
    ensures QubitSpan(g) == Some(Span(start, start + n - 1))
  {
    var qs := InvolvedQubits(g);
    var s := QubitSpan(g).value;
    assert qs[0] == start && qs[n - 1] == start + n - 1;
    assert forall x <- qs :: start <= x <= start + n - 1;
    assert qs[0] in qs && qs[n - 1] in qs;
    assert s.start == start && s.end == start + n - 1;
  }

  /** The lowest and highest qubit a gate touches. */
  datatype Span = Span(start: int, end: int)

  /** The smallest element of a non-empty sequence. */
  function SeqMin(s: seq<int>): (m: int)
    requires s != []
    ensures m in s && forall x <- s :: m <= x
  {
    if |s| == 1 then s[0]
    else
      var rest := SeqMin(s[1..]);
      assert forall x <- s :: x == s[0] || x in s[1..];
      if s[0] <= rest then s[0] else rest
  }

  /** The largest element of a non-empty sequence. */
  function SeqMax(s: seq<int>): (m: int)
    requires s != []
    ensures m in s && forall x <- s :: x <= m
  {
    if |s| == 1 then s[0]
    else
      var rest := SeqMax(s[1..]);
      assert forall x <- s :: x == s[0] || x in s[1..];
      if s[0] >= rest then s[0] else rest
  }

  /**
   * `getQubitSpan`: the minimum and maximum involved qubit. A gate with no
   * qubits has no span (the source yields the infinities `Math.min()` and
   * `Math.max()` give on no arguments).
   */
  function QubitSpan(g: Gate): (r: Option<Span>)
    ensures r.None? <==> InvolvedQubits(g) == []
    ensures r.Some? ==> r.value.start in InvolvedQubits(g) && r.value.end in InvolvedQubits(g)
    ensures r.Some? ==> forall q <- InvolvedQubits(g) :: r.value.start <= q <= r.value.end
  {
    var qs := InvolvedQubits(g);
    if qs == [] then None else Some(Span(SeqMin(qs), SeqMax(qs)))
  }

  /** Whether some element of `a` occurs in `b` (`a.some(q => b.includes(q))`). */
  function SomeIn(a: seq<int>, b: seq<int>): (r: bool)
    ensures r <==> exists i | 0 <= i < |a| :: a[i] in b
  {
    if a == [] then false
    else if a[0] in b then true
    else
      var r := SomeIn(a[1..], b);
      assert forall i | 1 <= i < |a| :: a[i] == a[1..][i - 1];
      r
  }

  /** `doQubitOverlaps`: whether the two gates touch a common qubit. */
  function Overlaps(g1: Gate, g2: Gate): bool {
    SomeIn(InvolvedQubits(g1), InvolvedQubits(g2))
  }

  /** Two gates overlap exactly when some qubit is involved in both, so overlap is symmetric. */
  lemma {:induction false} OverlapsMeaning(g1: Gate, g2: Gate)
    ensures Overlaps(g1, g2) <==> exists q :: q in InvolvedQubits(g1) && q in InvolvedQubits(g2)
    ensures Overlaps(g1, g2) == Overlaps(g2, g1)
  {
    var a, b := InvolvedQubits(g1), InvolvedQubits(g2);
    if Overlaps(g1, g2) {
      var i :| 0 <= i < |a| && a[i] in b;
      var j :| 0 <= j < |b| && b[j] == a[i];
      assert b[j] in a;
    }
    if Overlaps(g2, g1) {
      var j :| 0 <= j < |b| && b[j] in a;
      var i :| 0 <= i < |a| && a[i] == b[j];
      assert a[i] in b;
    }
  }
}
