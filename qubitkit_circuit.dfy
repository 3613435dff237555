/**
 * The qubitkit `Circuit`: a register width and a list of operations (gates
 * or nested circuits). Adding an operation checks its qubits against the
 * width and links it to the nearest earlier operation on each of its
 * qubits, recording the edge on both ends. `build_dependencies` turns the
 * child lists into forward and reverse adjacency maps and the set of
 * starting operations; both it and `qubits` are cached behind dirty flags.
 *
 * An operation is held as a value: its qubit set (for a nested circuit,
 * the union its own `qubits` gives), its width and its DAG lists.
 */
module QubitkitCircuit {
  import opened Wrappers

  datatype Op = Op(name: string, qubits: set<int>, width: int, parents: seq<int>, children: seq<int>)

  datatype CircuitError = IndexError

  /** The set of a list's elements. */
  function Elements(xs: seq<int>): (r: set<int>)
    ensures forall x :: x in r <==> x in xs
  {
    set x | x in xs
  }

  // --------------------------------------------------------------- the DAG

  /** The last operation before position `k` acting on qubit `q`, or -1. */
  function Nearest(ops: seq<Op>, k: nat, q: int): (r: int)
    requires k <= |ops|
    ensures -1 <= r < k
    ensures r >= 0 ==> q in ops[r].qubits
    ensures forall j | r < j < k :: q !in ops[j].qubits
  {
    if k == 0 then -1
    else if q in ops[k - 1].qubits then k - 1
    else Nearest(ops, k - 1, q)
  }

  /**
   * What `_determine_parents` collects scanning from position `i - 1` down
   * to 0 with the still unlinked qubits `remaining`: each operation sharing
   * a remaining qubit becomes a parent and those qubits are linked.
   */
  function ParentsFrom(ops: seq<Op>, i: nat, remaining: set<int>): seq<int>
    requires i <= |ops|
  {
    if i == 0 || remaining == {} then []
    else
      var overlap := remaining * ops[i - 1].qubits;
      if overlap != {} then [i - 1] + ParentsFrom(ops, i - 1, remaining - overlap)
      else ParentsFrom(ops, i - 1, remaining)
  }

  predicate Descending(xs: seq<int>) {
    forall a, b | 0 <= a < b < |xs| :: xs[a] > xs[b]
  }

  /**
   * The parents found are exactly the nearest earlier operations on the
   * remaining qubits, each once, latest first.
   */
  lemma {:induction false} ParentsMeaning(ops: seq<Op>, i: nat, remaining: set<int>)
    requires i <= |ops|
    ensures Descending(ParentsFrom(ops, i, remaining))
    ensures forall p :: p in ParentsFrom(ops, i, remaining) <==> 0 <= p && exists q <- remaining :: Nearest(ops, i, q) == p
  {
    var r := ParentsFrom(ops, i, remaining);
    if i == 0 || remaining == {} {
    } else {
      var overlap := remaining * ops[i - 1].qubits;
      if overlap != {} {
        var rest := remaining - overlap;
        var q0 := Pick(overlap);
        ParentsMeaning(ops, i - 1, rest);
        var tail := ParentsFrom(ops, i - 1, rest);
        assert r == [i - 1] + tail;
        assert forall p <- tail :: p < i - 1;
        forall a, b | 0 <= a < b < |r|
          ensures r[a] > r[b]
        {
          if a == 0 {
            assert r[b] in tail;
          } else {
            assert r[a] == tail[a - 1] && r[b] == tail[b - 1];
          }
        }
        forall p
          ensures p in r <==> 0 <= p && exists q <- remaining :: Nearest(ops, i, q) == p
        {
          if p in r && p != i - 1 {
            assert p in tail;
            var q :| q in rest && Nearest(ops, i - 1, q) == p;
            assert Nearest(ops, i, q) == p;
          }
          if p == i - 1 {
            assert Nearest(ops, i, q0) == p;
          }
          if 0 <= p && p != i - 1 && (exists q <- remaining :: Nearest(ops, i, q) == p) {
            var q :| q in remaining && Nearest(ops, i, q) == p;
            assert q !in ops[i - 1].qubits;
            assert q in rest;
            assert p in tail;
          }
        }
      } else {
        ParentsMeaning(ops, i - 1, remaining);
        forall p
          ensures p in r <==> 0 <= p && exists q <- remaining :: Nearest(ops, i, q) == p
        {
          if p in r {
            var q :| q in remaining && Nearest(ops, i - 1, q) == p;
            assert q !in ops[i - 1].qubits by { assert q !in overlap; }
            assert Nearest(ops, i, q) == p;
          }
          if 0 <= p && (exists q <- remaining :: Nearest(ops, i, q) == p) {
            var q :| q in remaining && Nearest(ops, i, q) == p;
            assert q !in overlap;
            assert Nearest(ops, i - 1, q) == p;
          }
        }
      }
    }
  }

  lemma Pick(s: set<int>) returns (x: int)
    requires s != {}
    ensures x in s
  {
    if forall y :: y !in s {
      assert false;
    }
    x :| x in s;
  }

  /** Every parent found lies before the scan's start position. */
  lemma ParentsBefore(ops: seq<Op>, i: nat, remaining: set<int>)
    requires i <= |ops|
    ensures forall p <- ParentsFrom(ops, i, remaining) :: 0 <= p < i
  {
    ParentsMeaning(ops, i, remaining);
  }

  /**
   * The operations after linking the last one, at position `k`, to the
   * parents `ps`: it gains them as parents and each of them gains it as a
   * child.
   */
  function Linked(ops: seq<Op>, k: nat, ps: seq<int>): (r: seq<Op>)
    requires k < |ops|
    ensures |r| == |ops|
    ensures r[k] == ops[k].(parents := ops[k].parents + ps)
    ensures forall j | 0 <= j < |ops| && j != k ::
              r[j] == if j in ps then ops[j].(children := ops[j].children + [k]) else ops[j]
  {
    seq(|ops|, j requires 0 <= j < |ops| =>
      if j == k then ops[k].(parents := ops[k].parents + ps)
      else if j in ps then ops[j].(children := ops[j].children + [k])
      else ops[j])
  }

  lemma LinkedNothing(ops: seq<Op>, k: nat)
    requires k < |ops|
    ensures Linked(ops, k, []) == ops
  {
    assert ops[k].parents + [] == ops[k].parents;
  }

  /** Linking one more parent `i`, below those already linked, updates two entries. */
  lemma LinkedOneMore(ops: seq<Op>, k: nat, ps: seq<int>, i: int)
    requires 0 <= i < k < |ops| && forall p <- ps :: i < p
    ensures var cur := Linked(ops, k, ps);
            Linked(ops, k, ps + [i]) == cur[k := cur[k].(parents := cur[k].parents + [i])][i := cur[i].(children := cur[i].children + [k])]
  {
    var cur := Linked(ops, k, ps);
    var next := cur[k := cur[k].(parents := cur[k].parents + [i])][i := cur[i].(children := cur[i].children + [k])];
    assert ops[k].parents + ps + [i] == ops[k].parents + (ps + [i]);
    assert i !in ps;
    forall j | 0 <= j < |ops| && j != k
      ensures Linked(ops, k, ps + [i])[j] == next[j]
    {
      assert j in ps + [i] <==> j in ps || j == i;
    }
  }

  /** The operations after `add_gate` appends `op` and links it. */
  function Appended(ops: seq<Op>, op: Op): seq<Op> {
    var all := ops + [op];
    Linked(all, |ops|, ParentsFrom(all, |ops|, op.qubits))
  }

  /**
   * The DAG lists are sound: parents come before their child and children
   * after their parent, all in range, and each edge is recorded on both ends.
   */
  predicate EdgesSound(ops: seq<Op>) {
    (forall i | 0 <= i < |ops| :: forall p <- ops[i].parents :: 0 <= p < i && i in ops[p].children)
    && (forall j | 0 <= j < |ops| :: forall c <- ops[j].children :: j < c < |ops| && j in ops[c].parents)
  }

  /**
   * Appending an operation with empty DAG lists keeps the edges sound, and
   * its parents are exactly the nearest earlier operations on its qubits.
   */
  lemma AppendedSound(ops: seq<Op>, op: Op)
    requires EdgesSound(ops) && op.parents == [] && op.children == []
    ensures EdgesSound(Appended(ops, op))
    ensures var k := |ops|;
            forall p :: p in Appended(ops, op)[k].parents <==> 0 <= p && exists q <- op.qubits :: Nearest(ops + [op], k, q) == p
  {
    var ps := ParentsFrom(ops + [op], |ops|, op.qubits);
    ParentsMeaning(ops + [op], |ops|, op.qubits);
    LinkedParentsSound(ops, op, ps);
    LinkedChildrenSound(ops, op, ps);
  }

  /** The parent half of `EdgesSound` after linking. */
  lemma LinkedParentsSound(ops: seq<Op>, op: Op, ps: seq<int>)
    requires EdgesSound(ops) && op.parents == []
    requires forall p <- ps :: 0 <= p < |ops|
    ensures var r := Linked(ops + [op], |ops|, ps);
            forall i | 0 <= i < |r| :: forall p <- r[i].parents :: 0 <= p < i && i in r[p].children
  {
    var k := |ops|;
    var r := Linked(ops + [op], k, ps);
    forall i | 0 <= i < |r|
      ensures forall p <- r[i].parents :: 0 <= p < i && i in r[p].children
    {
      if i < k {
        assert r[i].parents == ops[i].parents;
        forall p <- r[i].parents
          ensures 0 <= p < i && i in r[p].children
        {
          assert i in ops[p].children;
        }
      } else {
        assert r[i].parents == ps;
      }
    }
  }

  /** The child half of `EdgesSound` after linking. */
  lemma LinkedChildrenSound(ops: seq<Op>, op: Op, ps: seq<int>)
    requires EdgesSound(ops) && op.parents == [] && op.children == []
    requires forall p <- ps :: 0 <= p < |ops|
    ensures var r := Linked(ops + [op], |ops|, ps);
            forall j | 0 <= j < |r| :: forall c <- r[j].children :: j < c < |r| && j in r[c].parents
  {
    var k := |ops|;
    var r := Linked(ops + [op], k, ps);
    forall j | 0 <= j < |r|
      ensures forall c <- r[j].children :: j < c < |r| && j in r[c].parents
    {
      if j < k {
        forall c <- r[j].children
          ensures j < c < |r| && j in r[c].parents
        {
          if c != k {
            assert c in ops[j].children;
            assert r[c].parents == ops[c].parents;
          } else {
            assert j in ps;
          }
        }
      }
    }
  }

  /** The same qubit is never linked twice: a new operation's parents are distinct. */
  lemma AppendedParentsDistinct(ops: seq<Op>, op: Op)
    requires op.parents == []
    ensures var ps := Appended(ops, op)[|ops|].parents;
            forall a, b | 0 <= a < b < |ps| :: ps[a] != ps[b]
  {
    ParentsMeaning(ops + [op], |ops|, op.qubits);
  }

  /** `get_parents` on a list of operations: `[]` out of range. */
  function ParentsOf(ops: seq<Op>, idx: int): (r: seq<int>)
    ensures !(0 <= idx < |ops|) ==> r == []
    ensures EdgesSound(ops) ==> forall p <- r :: 0 <= p < idx && idx in ops[p].children
  {
    if 0 <= idx < |ops| then ops[idx].parents else []
  }

  /** `get_children` on a list of operations: `[]` out of range. */
  function ChildrenOf(ops: seq<Op>, idx: int): (r: seq<int>)
    ensures !(0 <= idx < |ops|) ==> r == []
    ensures EdgesSound(ops) ==> forall c <- r :: idx < c < |ops| && idx in ops[c].parents
  {
    if 0 <= idx < |ops| then ops[idx].children else []
  }

  // ---------------------------------------------------- derived structures

  /** The union of the operations' qubits. */
  function AllQubits(ops: seq<Op>): (r: set<int>)
    ensures forall q :: q in r <==> exists i | 0 <= i < |ops| :: q in ops[i].qubits
  {
    if ops == [] then {}
    else
      var r := AllQubits(ops[..|ops| - 1]) + ops[|ops| - 1].qubits;
      assert forall i | 0 <= i < |ops| - 1 :: ops[..|ops| - 1][i] == ops[i];
      r
  }

  /** `_g`: each operation's children as a set. */
  function Forward(ops: seq<Op>): map<int, set<int>> {
    map i | i in Positions(|ops|) :: Elements(ops[i].children)
  }

  /** The operations listing `c` as a child. */
  function Referrers(ops: seq<Op>, n: nat, c: int): set<int>
    requires n <= |ops|
  {
    set j | 0 <= j < n && c in ops[j].children
  }

  /** `_rg`: for each operation, the operations listing it as a child. */
  function Reverse(ops: seq<Op>): map<int, set<int>> {
    map c | c in Positions(|ops|) :: Referrers(ops, |ops|, c)
  }

  /** `_s`: the operations nothing lists as a child. */
  function Sources(ops: seq<Op>): set<int> {
    set m | 0 <= m < |ops| && Referrers(ops, |ops|, m) == {}
  }

  /** `_g` and `_rg` mirror each other. */
  lemma ForwardReverseMirror(ops: seq<Op>, i: int, j: int)
    requires 0 <= i < |ops| && 0 <= j < |ops|
    ensures j in Forward(ops)[i] <==> i in Reverse(ops)[j]
  {
  }

  /** With sound edges the starting operations are exactly those without parents. */
  lemma SourcesHaveNoParents(ops: seq<Op>, m: int)
    requires EdgesSound(ops)
    ensures m in Sources(ops) <==> 0 <= m < |ops| && ops[m].parents == []
  {
    if 0 <= m < |ops| {
      if ops[m].parents != [] {
        var p := ops[m].parents[0];
        assert p in ops[m].parents;
        assert m in ops[p].children;
        assert p in Referrers(ops, |ops|, m);
      }
      if Referrers(ops, |ops|, m) != {} {
        var j :| j in Referrers(ops, |ops|, m);
        assert m in ops[j].children;
        assert j in ops[m].parents;
      }
    }
  }

  // ------------------------------------------------------------- the class

  datatype Fields = Fields(
    name: string, sourceLibrary: string, numQubits: int, ops: seq<Op>,
    qubits: set<int>, qubitsDirty: bool, dependenciesDirty: bool,
    gateQubit: map<int, set<int>>, g: map<int, set<int>>, rg: map<int, set<int>>, s: set<int>)

  class Circuit {
    var name: string
    var sourceLibrary: string
    var numQubits: int
    var ops: seq<Op>
    var qubits: set<int>
    var qubitsDirty: bool
    var dependenciesDirty: bool
    var gateQubit: map<int, set<int>>
    var g: map<int, set<int>>
    var rg: map<int, set<int>>
    var s: set<int>

    function State(): Fields
      reads this
    {
      Fields(name, sourceLibrary, numQubits, ops, qubits, qubitsDirty, dependenciesDirty, gateQubit, g, rg, s)
    }

    /** A clean cache holds what it would recompute. */
    ghost predicate CachesValid()
      reads this
    {
      (!qubitsDirty ==> qubits == AllQubits(ops))
      && (!dependenciesDirty ==> gateQubit == GateQubits(ops) && g == Forward(ops) && rg == Reverse(ops) && s == Sources(ops))
    }

    constructor(numQubits: int, name: string, sourceLibrary: string)
      ensures CachesValid() && EdgesSound(ops)
      ensures this.numQubits == numQubits && this.name == name && this.sourceLibrary == sourceLibrary
      ensures ops == [] && qubitsDirty && dependenciesDirty
    {
      this.name := name;
      this.sourceLibrary := sourceLibrary;
      this.numQubits := numQubits;
      ops := [];
      qubits := {};
      qubitsDirty := true;
      dependenciesDirty := true;
      gateQubit := map[];
      g := map[];
      rg := map[];
      s := {};
    }

    function GetParents(idx: int): seq<int>
      reads this
    {
      ParentsOf(ops, idx)
    }

    function GetChildren(idx: int): seq<int>
      reads this
    {
      ChildrenOf(ops, idx)
    }

    /**
     * `add_gate`: IndexError when the operation's largest qubit is not below
     * the width; otherwise the operation takes the circuit's width, is
     * appended, is linked to its parents, and both caches become dirty.
     */
    method AddGate(op: Op) returns (err: Option<CircuitError>)
      requires CachesValid()
      modifies this
      ensures err.Some? <==> exists q <- op.qubits :: q >= old(numQubits)
      ensures err.Some? ==> State() == old(State())
      ensures err.None? ==> ops == Appended(old(ops), op.(width := numQubits))
                            && State() == old(State()).(ops := ops, qubitsDirty := true, dependenciesDirty := true)
      ensures CachesValid()
      ensures err.None? && old(EdgesSound(ops)) && op.parents == [] && op.children == [] ==> EdgesSound(ops)
    {
      if exists q <- op.qubits :: q >= numQubits {
        return Some(IndexError);
      }
      var added := op.(width := numQubits);
      var linked := DetermineParents(ops + [added], |ops|);
      if EdgesSound(ops) && op.parents == [] && op.children == [] {
        AppendedSound(ops, added);
      }
      ops := linked;
      qubitsDirty, dependenciesDirty := true, true;
      err := None;
    }

    /**
     * `_determine_parents`: scans from the operation before `k` backwards,
     * linking each operation that shares a still unlinked qubit, and stops
     * once every qubit is linked (the source's `break`; an operation without
     * qubits links nothing either way).
     */
    static method DetermineParents(all: seq<Op>, k: nat) returns (linked: seq<Op>)
      requires k < |all|
      ensures linked == Linked(all, k, ParentsFrom(all, k, all[k].qubits))
    {
      var remaining := all[k].qubits;
      var found: seq<int> := [];
      var cur := all;
      var i: int := k - 1;
      ParentsMeaning(all, k, remaining);
      LinkedNothing(all, k);
      while i >= 0 && remaining != {}
        invariant -1 <= i < k
        invariant found + ParentsFrom(all, i + 1, remaining) == ParentsFrom(all, k, all[k].qubits)
        invariant forall p <- found :: i < p < k
        invariant cur == Linked(all, k, found)
        decreases i
      {
        var overlap := remaining * all[i].qubits;
        if overlap != {} {
          assert ParentsFrom(all, i + 1, remaining) == [i] + ParentsFrom(all, i, remaining - overlap);
          assert found + [i] + ParentsFrom(all, i, remaining - overlap) == found + ParentsFrom(all, i + 1, remaining);
          LinkedOneMore(all, k, found, i);
          found := found + [i];
          cur := cur[k := cur[k].(parents := cur[k].parents + [i])][i := cur[i].(children := cur[i].children + [k])];
          remaining := remaining - overlap;
        } else {
          assert ParentsFrom(all, i + 1, remaining) == ParentsFrom(all, i, remaining);
        }
        i := i - 1;
      }
      assert found == ParentsFrom(all, k, all[k].qubits);
      linked := cur;
    }

    /** The `qubits` property: the cached union when clean, otherwise recomputed and cached. */
    method Qubits() returns (qs: set<int>)
      requires CachesValid()
      modifies this
      ensures qs == AllQubits(ops) && qs == qubits && !qubitsDirty && CachesValid()
      ensures State() == old(State()).(qubits := qs, qubitsDirty := false)
    {
      if !qubitsDirty {
        return qubits;
      }
      var acc: set<int> := {};
      for i := 0 to |ops|
        invariant acc == AllQubits(ops[..i])
      {
        assert ops[..i + 1][..i] == ops[..i];
        acc := acc + ops[i].qubits;
      }
      assert ops[..|ops|] == ops;
      qubits := acc;
      qubitsDirty := false;
      qs := acc;
    }

    /**
     * `build_dependencies`: with the cache in use and clean, nothing changes;
     * otherwise the qubit map, the forward and reverse maps and the starting
     * set are rebuilt from the child lists. Either way they then describe
     * the current operations.
     */
    method BuildDependencies(useCache: bool)
      requires CachesValid() && ChildrenInRange(ops)
      modifies this
      ensures gateQubit == GateQubits(ops) && g == Forward(ops) && rg == Reverse(ops) && s == Sources(ops)
      ensures !dependenciesDirty && CachesValid()
      ensures useCache && !old(dependenciesDirty) ==> State() == old(State())
      ensures State() == old(State()).(gateQubit := gateQubit, g := g, rg := rg, s := s, dependenciesDirty := false)
    {
      if useCache && !dependenciesDirty {
        return;
      }
      var all := ops;
      var fwd, rev := Adjacency(all);
      var starts := Starts(rev);
      StartsAreSources(all, rev, starts);
      gateQubit, g, rg, s, dependenciesDirty := GateQubits(all), fwd, rev, starts, false;
    }
  }

  /** `{m for m in _rg if len(_rg[m]) == 0}`. */
  function Starts(rev: map<int, set<int>>): set<int> {
    set m | m in rev && rev[m] == {}
  }

  lemma StartsAreSources(ops: seq<Op>, rev: map<int, set<int>>, starts: set<int>)
    requires rev == Reverse(ops) && starts == Starts(rev)
    ensures starts == Sources(ops)
  {
  }

  /** The forward map once the child lists of the operations before `i` are read. */
  function FwdUpTo(ops: seq<Op>, i: nat): map<int, set<int>> {
    map x | x in Positions(|ops|) :: if x < i then Elements(ops[x].children) else {}
  }

  /** The reverse map once the child lists of the operations before `i` are read. */
  function RevUpTo(ops: seq<Op>, i: nat): map<int, set<int>>
    requires i <= |ops|
  {
    map x | x in Positions(|ops|) :: Referrers(ops, i, x)
  }

  /** The outer loop of `build_dependencies`: the forward and reverse maps of all operations. */
  method Adjacency(all: seq<Op>) returns (fwd: map<int, set<int>>, rev: map<int, set<int>>)
    requires ChildrenInRange(all)
    ensures fwd == Forward(all) && rev == Reverse(all)
  {
    fwd := FwdUpTo(all, 0);
    rev := RevUpTo(all, 0);
    for i := 0 to |all|
      invariant fwd == FwdUpTo(all, i) && rev == RevUpTo(all, i)
    {
      fwd, rev := AddChildEdges(all, i, fwd, rev);
    }
  }

  /** The reverse map with `i` added under each element of `cs`. */
  function RevPlus(rev: map<int, set<int>>, cs: seq<int>, i: int): map<int, set<int>> {
    map x | x in rev :: rev[x] + (if x in cs then {i} else {})
  }

  /**
   * The inner loop of `build_dependencies` for operation `i`: each child is
   * added to its forward set and `i` to the child's reverse set.
   */
  method AddChildEdges(all: seq<Op>, i: nat, fwd: map<int, set<int>>, rev: map<int, set<int>>)
    returns (fwd2: map<int, set<int>>, rev2: map<int, set<int>>)
    requires i < |all| && ChildrenInRange(all)
    requires fwd == FwdUpTo(all, i) && rev == RevUpTo(all, i)
    ensures fwd2 == FwdUpTo(all, i + 1) && rev2 == RevUpTo(all, i + 1)
  {
    forall k | 0 <= k < |all[i].children|
      ensures all[i].children[k] in rev
    {
      assert all[i].children[k] in all[i].children;
      assert all[i].children[k] in Positions(|all|);
    }
    FwdUpToOwnEmpty(all, i);
    fwd2, rev2 := ReadChildren(i, all[i].children, fwd, rev);
    FwdUpToStep(all, i);
    RevUpToStep(all, i);
  }

  /** The loop over one operation's children, on the maps alone. */
  method ReadChildren(i: int, cs: seq<int>, fwd: map<int, set<int>>, rev: map<int, set<int>>)
    returns (fwd2: map<int, set<int>>, rev2: map<int, set<int>>)
    requires i in fwd && fwd[i] == {} && forall k | 0 <= k < |cs| :: cs[k] in rev
    ensures fwd2 == fwd[i := Elements(cs)] && rev2 == RevPlus(rev, cs, i)
  {
    fwd2, rev2 := fwd, rev;
    RevPlusNothing(rev, i);
    assert fwd[i := {}] == fwd;
    assert cs[..0] == [] && Elements([]) == {};
    for t := 0 to |cs|
      invariant fwd2 == fwd[i := Elements(cs[..t])]
      invariant rev2 == RevPlus(rev, cs[..t], i)
    {
      assert cs[..t + 1] == cs[..t] + [cs[t]];
      assert Elements(cs[..t + 1]) == Elements(cs[..t]) + {cs[t]};
      RevPlusOneMore(rev, cs[..t], cs[t], i);
      fwd2 := fwd2[i := fwd2[i] + {cs[t]}];
      rev2 := rev2[cs[t] := rev2[cs[t]] + {i}];
    }
    assert cs[..|cs|] == cs;
  }

  lemma RevPlusNothing(rev: map<int, set<int>>, i: int)
    ensures RevPlus(rev, [], i) == rev
  {
    assert forall x | x in rev :: rev[x] + {} == rev[x];
  }

  lemma RevPlusOneMore(rev: map<int, set<int>>, xs: seq<int>, c: int, i: int)
    requires c in rev
    ensures var r := RevPlus(rev, xs, i);
            r[c := r[c] + {i}] == RevPlus(rev, xs + [c], i)
  {
    var r := RevPlus(rev, xs, i);
    forall x | x in rev
      ensures r[c := r[c] + {i}][x] == RevPlus(rev, xs + [c], i)[x]
    {
      assert x in xs + [c] <==> x in xs || x == c;
    }
  }

  lemma FwdUpToOwnEmpty(all: seq<Op>, i: nat)
    requires i < |all|
    ensures FwdUpTo(all, i)[i := {}] == FwdUpTo(all, i)
  {
  }

  lemma FwdUpToStep(all: seq<Op>, i: nat)
    requires i < |all|
    ensures FwdUpTo(all, i)[i := Elements(all[i].children)] == FwdUpTo(all, i + 1)
  {
  }

  lemma RevUpToStep(all: seq<Op>, i: nat)
    requires i < |all|
    ensures RevPlus(RevUpTo(all, i), all[i].children, i) == RevUpTo(all, i + 1)
  {
    forall x | x in Positions(|all|)
      ensures Referrers(all, i + 1, x) == Referrers(all, i, x) + (if x in all[i].children then {i} else {})
    {
    }
  }

  function Positions(n: nat): (r: set<int>)
    ensures forall i :: i in r <==> 0 <= i < n
  {
    if n == 0 then {} else Positions(n - 1) + {n - 1}
  }

  /** `_gate_qubit`: each operation's qubits by position. */
  function GateQubits(ops: seq<Op>): map<int, set<int>> {
    map i | 0 <= i < |ops| :: ops[i].qubits
  }

  /** Every child index names an operation (what the reverse map's lookups need). */
  predicate ChildrenInRange(ops: seq<Op>) {
    forall j | 0 <= j < |ops| :: forall c <- ops[j].children :: 0 <= c < |ops|
  }
}
