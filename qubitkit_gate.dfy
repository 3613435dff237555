/**
 * The qubitkit `Gate`: a named operation on target and control qubits with
 * a width (`num_qubits`), parameters and the DAG links its circuit fills
 * in. The width and the qubit lists have validating setters; `qubits`
 * refills a cached set; `clone` copies the gate; equality compares name,
 * qubit lists and parameters.
 *
 * Parameter values (Python `Any`) are modelled as strings.
 */
module QubitkitGate {
  import opened Wrappers
  import opened Text
  import Gates

  datatype GateType = SingleQubit | TwoQubit | Measurement | Custom

  /** The exceptions the setters raise. */
  datatype GateError = ValueError | IndexError

  /** The set of a list's elements (`set(...)`). */
  function Elements(qs: seq<int>): (r: set<int>)
    ensures forall q :: q in r <==> q in qs
  {
    set q | q in qs
  }

  /** `len(set(qs))`: the number of distinct qubits. */
  function DistinctCount(qs: seq<int>): nat {
    |Elements(qs)|
  }

  /** No element occurs twice. */
  predicate NoDuplicates(qs: seq<int>) {
    forall i, j | 0 <= i < j < |qs| :: qs[i] != qs[j]
  }

  /** The distinct count never exceeds the list's length, and equals it exactly when no qubit repeats. */
  lemma {:induction false} DistinctCountBound(qs: seq<int>)
    ensures DistinctCount(qs) <= |qs|
    ensures DistinctCount(qs) == |qs| <==> NoDuplicates(qs)
  {
    if qs != [] {
      var rest := qs[1..];
      DistinctCountBound(rest);
      if qs[0] in rest {
        RepeatedHead(qs);
      } else {
        FreshHead(qs);
      }
    }
  }

  /** A repeated first qubit adds nothing to the set and is a duplicate. */
  lemma RepeatedHead(qs: seq<int>)
    requires qs != [] && qs[0] in qs[1..]
    ensures Elements(qs) == Elements(qs[1..]) && !NoDuplicates(qs)
  {
    var j :| 0 <= j < |qs[1..]| && qs[1..][j] == qs[0];
    assert qs[0] == qs[j + 1];
  }

  /** A fresh first qubit adds one to the set and no duplicate. */
  lemma FreshHead(qs: seq<int>)
    requires qs != [] && qs[0] !in qs[1..]
    ensures Elements(qs) == Elements(qs[1..]) + {qs[0]} && qs[0] !in Elements(qs[1..])
    ensures NoDuplicates(qs) <==> NoDuplicates(qs[1..])
  {
    var rest := qs[1..];
    assert qs == [qs[0]] + rest;
    if NoDuplicates(rest) {
      forall i, j | 0 <= i < j < |qs|
        ensures qs[i] != qs[j]
      {
        if i == 0 {
          assert qs[j] == rest[j - 1];
        } else {
          assert qs[i] == rest[i - 1] && qs[j] == rest[j - 1];
        }
      }
    }
    if NoDuplicates(qs) {
      forall i, j | 0 <= i < j < |rest|
        ensures rest[i] != rest[j]
      {
        assert rest[i] == qs[i + 1] && rest[j] == qs[j + 1];
      }
    }
  }

  /** Whether `sub` occurs in `s` (Python's `sub in s`). */
  predicate HasSubstring(s: string, sub: string)
    decreases |s|
  {
    (|sub| <= |s| && s[..|sub|] == sub) || (s != [] && HasSubstring(s[1..], sub))
  }

  /**
   * The type a new gate gets: a measurement when its name contains
   * "measure" in any letter case, otherwise by its distinct-qubit count.
   */
  function TypeOf(name: string, numQubits: int): (t: GateType)
    ensures t == Measurement <==> HasSubstring(ToLower(name), "measure")
    ensures t != Measurement ==> (t == SingleQubit <==> numQubits == 1) && (t == TwoQubit <==> numQubits == 2)
  {
    if HasSubstring(ToLower(name), "measure") then Measurement
    else if numQubits == 1 then SingleQubit
    else if numQubits == 2 then TwoQubit
    else Custom
  }

  /** Lower-casing twice is lower-casing once. */
  lemma ToLowerIdempotent(s: string)
    ensures ToLower(ToLower(s)) == ToLower(s)
  {
    forall i | 0 <= i < |s|
      ensures ToLower(ToLower(s))[i] == ToLower(s)[i]
    {
      assert !('A' <= ToLower(s)[i] <= 'Z');
    }
  }

  /** The type does not depend on the letter case of the name. */
  lemma TypeIgnoresCase(name: string, numQubits: int)
    ensures TypeOf(ToLower(name), numQubits) == TypeOf(name, numQubits)
  {
    ToLowerIdempotent(name);
  }

  /** Single-qubit means the gate's listed qubits are one qubit, possibly repeated. */
  lemma SingleQubitMeans(name: string, qs: seq<int>)
    requires !HasSubstring(ToLower(name), "measure")
    ensures TypeOf(name, DistinctCount(qs)) == SingleQubit <==> qs != [] && forall q <- qs :: q == qs[0]
  {
    if qs != [] && forall q <- qs :: q == qs[0] {
      assert Elements(qs) == {qs[0]};
    }
    if DistinctCount(qs) == 1 {
      assert qs[0] in Elements(qs);
      forall q <- qs
        ensures q == qs[0]
      {
        if q != qs[0] {
          assert {q, qs[0]} <= Elements(qs);
          assert |{q, qs[0]}| == 2;
          SubsetCardinality({q, qs[0]}, Elements(qs));
        }
      }
    }
  }

  lemma SubsetCardinality(a: set<int>, b: set<int>)
    requires a <= b
    ensures |a| <= |b|
  {
    assert b == a + (b - a);
  }

  /** The width setter's check: a width at most the largest target or control index is too small. */
  predicate TooNarrow(targets: seq<int>, controls: seq<int>, value: int) {
    (targets != [] && value <= Gates.SeqMax(targets)) || (controls != [] && value <= Gates.SeqMax(controls))
  }

  /** Every listed qubit is below the width: what a successful width setter guarantees. */
  predicate InRange(targets: seq<int>, controls: seq<int>, numQubits: int) {
    (forall q <- targets :: q < numQubits) && (forall q <- controls :: q < numQubits)
  }

  /** The width check rejects a value exactly when some listed qubit is not below it. */
  lemma TooNarrowMeans(targets: seq<int>, controls: seq<int>, value: int)
    ensures !TooNarrow(targets, controls, value) <==> InRange(targets, controls, value)
  {
    if !InRange(targets, controls, value) {
      var q :| (q in targets || q in controls) && q >= value;
      if q in targets { assert q <= Gates.SeqMax(targets); } else { assert q <= Gates.SeqMax(controls); }
    } else {
    }
  }

  /** Everything a gate holds, for stating what a setter leaves unchanged. */
  datatype Fields = Fields(
    name: string,
    sourceLibrary: string,
    parameters: map<string, string>,
    targets: seq<int>,
    controls: seq<int>,
    numQubits: int,
    gateType: GateType,
    parents: seq<int>,
    children: seq<int>,
    qubits: set<int>)

  class Gate {
    var name: string
    var sourceLibrary: string
    var parameters: map<string, string>
    var targets: seq<int>
    var controls: seq<int>
    var numQubits: int
    var gateType: GateType
    var parents: seq<int>
    var children: seq<int>
    var qubits: set<int>

    function State(): Fields
      reads this
    {
      Fields(name, sourceLibrary, parameters, targets, controls, numQubits, gateType, parents, children, qubits)
    }

    /**
     * `Gate(name, target_qubits, control_qubits, parameters)`: an empty name
     * becomes "Gate", missing controls and parameters become empty, and the
     * width is the number of distinct qubits.
     */
    constructor(name: string, targets: seq<int>, controls: Option<seq<int>>, parameters: Option<map<string, string>>)
      ensures this.name == (if name == "" then "Gate" else name) && sourceLibrary == ""
      ensures this.parameters == parameters.GetOr(map[])
      ensures this.targets == targets && this.controls == controls.GetOr([])
      ensures numQubits == DistinctCount(targets + controls.GetOr([]))
      ensures gateType == TypeOf(name, numQubits)
      ensures parents == [] && children == [] && qubits == {}
    {
      this.name := if name == "" then "Gate" else name;
      sourceLibrary := "";
      this.parameters := parameters.GetOr(map[]);
      this.targets := targets;
      this.controls := controls.GetOr([]);
      numQubits := DistinctCount(targets + controls.GetOr([]));
      qubits := {};
      gateType := TypeOf(name, DistinctCount(targets + controls.GetOr([])));
      parents := [];
      children := [];
    }

    /** The `num_qubits` setter: ValueError when the width is too small for a listed qubit, else it is set. */
    method SetNumQubits(value: int) returns (err: Option<GateError>)
      modifies this
      ensures err.Some? <==> !InRange(targets, controls, value)
      ensures err.Some? ==> err.value == ValueError && State() == old(State())
      ensures err.None? ==> State() == old(State()).(numQubits := value) && InRange(targets, controls, numQubits)
    {
      TooNarrowMeans(targets, controls, value);
      if targets != [] && value <= Gates.SeqMax(targets) {
        return Some(ValueError);
      }
      if controls != [] && value <= Gates.SeqMax(controls) {
        return Some(ValueError);
      }
      numQubits := value;
      err := None;
    }

    /** The `target_qubits` setter: IndexError when a new target is not below the width, else it is set. */
    method SetTargets(value: seq<int>) returns (err: Option<GateError>)
      modifies this
      ensures err.Some? <==> exists q <- value :: q >= numQubits
      ensures err.Some? ==> err.value == IndexError && State() == old(State())
      ensures err.None? ==> State() == old(State()).(targets := value)
      ensures err.None? && old(InRange(targets, controls, numQubits)) ==> InRange(targets, controls, numQubits)
    {
      for i := 0 to |value|
        invariant forall j | 0 <= j < i :: value[j] < numQubits
      {
        if value[i] >= numQubits {
          assert value[i] in value;
          return Some(IndexError);
        }
      }
      assert forall q <- value :: q < numQubits;
      targets := value;
      err := None;
    }

    /** The `control_qubits` setter: IndexError when a new control is not below the width, else it is set. */
    method SetControls(value: seq<int>) returns (err: Option<GateError>)
      modifies this
      ensures err.Some? <==> exists q <- value :: q >= numQubits
      ensures err.Some? ==> err.value == IndexError && State() == old(State())
      ensures err.None? ==> State() == old(State()).(controls := value)
      ensures err.None? && old(InRange(targets, controls, numQubits)) ==> InRange(targets, controls, numQubits)
    {
      for i := 0 to |value|
        invariant forall j | 0 <= j < i :: value[j] < numQubits
      {
        if value[i] >= numQubits {
          assert value[i] in value;
          return Some(IndexError);
        }
      }
      assert forall q <- value :: q < numQubits;
      controls := value;
      err := None;
    }

    /** The `qubits` property: refills the cached set with the targets and controls and returns it. */
    method Qubits() returns (qs: set<int>)
      modifies this
      ensures forall q :: q in qs <==> q in targets || q in controls
      ensures State() == old(State()).(qubits := qs)
    {
      qubits := Elements(targets) + Elements(controls);
      qs := qubits;
    }

    /** `__eq__`: same name, qubit lists and parameters. */
    predicate Equals(other: Gate)
      reads this, other
    {
      name == other.name && targets == other.targets && controls == other.controls && parameters == other.parameters
    }

    /**
     * `clone` as written: the copy is built by the constructor, which sets
     * its width to the distinct-qubit count, and the original width is then
     * assigned through the validating setter, which raises ValueError when
     * the original width is not above every listed qubit.
     */
    method CloneAsWritten() returns (r: Result<Gate, GateError>)
      ensures r.Failure? <==> !InRange(targets, controls, numQubits)
      ensures r.Failure? ==> r.error == ValueError
      ensures r.Success? ==> fresh(r.value) && (name != "" ==> r.value.Equals(this))
                             && r.value.numQubits == numQubits && r.value.sourceLibrary == sourceLibrary
    {
      var copy := new Gate(name, targets, if controls != [] then Some(controls) else None, Some(parameters));
      var err := copy.SetNumQubits(numQubits);
      if err.Some? {
        return Failure(err.value);
      }
      copy.sourceLibrary := sourceLibrary;
      r := Success(copy);
    }

    /**
     * `clone` as intended: the copy takes the original width directly, so
     * cloning never fails and the copy equals the original. (A name emptied
     * after construction comes back as "Gate", as the constructor makes it.)
     */
    method Clone() returns (copy: Gate)
      ensures fresh(copy) && copy.numQubits == numQubits && copy.sourceLibrary == sourceLibrary
      ensures name != "" ==> copy.Equals(this)
      ensures InRange(targets, controls, numQubits) ==> InRange(copy.targets, copy.controls, copy.numQubits)
      ensures copy.gateType == TypeOf(name, DistinctCount(targets + controls))
    {
      copy := new Gate(name, targets, if controls != [] then Some(controls) else None, Some(parameters));
      copy.numQubits := numQubits;
      copy.sourceLibrary := sourceLibrary;
    }
  }

  /**
   * A freshly built gate on one target qubit `q >= 1` has width 1, so cloning
   * it as written fails: `Gate("H", [1]).clone()` raises ValueError.
   */
  lemma FreshGateCloneFails(q: int)
    requires q >= 1
    ensures DistinctCount([q] + []) == 1
    ensures !InRange([q], [], DistinctCount([q] + []))
  {
    assert Elements([q] + []) == {q};
  }
}
