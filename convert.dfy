/**
 * The gate registry of the circuit converter and its `add_gate`: a gate
 * name is looked up in a fixed table giving the circuit method to call,
 * the gate's qubit count and its default parameters; the qubit lists are
 * passed to that method in the shape the count (and the SWAP and CSWAP
 * exceptions) calls for, and the caller's parameters are returned unless
 * empty, in which case the defaults are.
 *
 * The circuit belongs to a foreign library: it is modelled as the list of
 * method calls made on it. Default angles are kept symbolic as multiples
 * of pi.
 */
module Convert {
  import opened Wrappers

  /** A gate parameter: a number, or a rational multiple of pi. */
  datatype Angle = Value(x: real) | PiTimes(factor: real)

  /** `GateSpec`: the method to call, the qubit count and the default parameters. */
  datatype GateSpec = GateSpec(methodName: string, numQubits: int, params: seq<Angle>)

  datatype ConvertError = UnsupportedGate(name: string) | IndexError

  /** The arguments a registry method receives. */
  datatype Args =
    | OneQubit(target: int)
    | TargetList(targets: seq<int>)
    | TargetControl(target: int, control: int)
    | TargetsControls(targets: seq<int>, controls: seq<int>)
    | TargetControls(target: int, controls: seq<int>)

  datatype Call = Call(methodName: string, args: Args)

  /** `GateRegistry.SQUANDER_GATES`. */
  function Registry(): (r: map<string, GateSpec>)
    ensures forall n <- r :: 1 <= r[n].numQubits <= 3 && |r[n].methodName| > 4 && r[n].methodName[..4] == "add_"
  {
    map[
      "H" := GateSpec("add_H", 1, []),
      "X" := GateSpec("add_X", 1, []),
      "Y" := GateSpec("add_Y", 1, []),
      "Z" := GateSpec("add_Z", 1, []),
      "S" := GateSpec("add_S", 1, []),
      "T" := GateSpec("add_T", 1, []),
      "SDG" := GateSpec("add_Sdg", 1, []),
      "TDG" := GateSpec("add_Tdg", 1, []),
      "SX" := GateSpec("add_SX", 1, []),
      "RX" := GateSpec("add_RX", 1, [PiTimes(0.5)]),
      "RY" := GateSpec("add_RY", 1, [PiTimes(0.5)]),
      "RZ" := GateSpec("add_RZ", 1, [PiTimes(0.5)]),
      "R" := GateSpec("add_R", 1, [PiTimes(1.0)]),
      "U1" := GateSpec("add_U1", 1, [Value(0.0)]),
      "U2" := GateSpec("add_U2", 1, [Value(0.0), Value(0.0)]),
      "U3" := GateSpec("add_U3", 1, [Value(0.0), Value(0.0), Value(0.0)]),
      "CNOT" := GateSpec("add_CNOT", 2, []),
      "CX" := GateSpec("add_CNOT", 2, []),
      "CZ" := GateSpec("add_CZ", 2, []),
      "CH" := GateSpec("add_CH", 2, []),
      "SYC" := GateSpec("add_SYC", 2, []),
      "CRY" := GateSpec("add_CRY", 2, [PiTimes(0.5)]),
      "CRZ" := GateSpec("add_CRZ", 2, [PiTimes(0.5)]),
      "CRX" := GateSpec("add_CRX", 2, [PiTimes(0.5)]),
      "CP" := GateSpec("add_CP", 2, [Value(0.0)]),
      "CR" := GateSpec("add_CR", 2, [PiTimes(1.0)]),
      "CROT" := GateSpec("add_CROT", 2, [Value(0.0), Value(0.0), Value(0.0)]),
      "CU" := GateSpec("add_CU", 2, [Value(0.0), Value(0.0), Value(0.0), Value(0.0)]),
      "SWAP" := GateSpec("add_SWAP", 2, []),
      "CSWAP" := GateSpec("add_CSWAP", 3, []),
      "CCX" := GateSpec("add_CCX", 3, []),
      "TOFFOLI" := GateSpec("add_CCX", 3, [])
    ]
  }

  /**
   * The call `add_gate` makes for a registered gate: one-qubit gates get
   * their first target; SWAP its target list; other two-qubit gates their
   * first target and first control; CSWAP both lists; other three-qubit
   * gates their first target and the control list. Taking the first of an
   * empty list is an IndexError.
   */
  function Dispatch(name: string, spec: GateSpec, targets: seq<int>, controls: seq<int>): (r: Result<Call, ConvertError>)
    requires 1 <= spec.numQubits <= 3
    ensures r.Success? ==> r.value.methodName == spec.methodName
    ensures r.Failure? ==> r.error == IndexError
    ensures r.Failure? <==> (targets == [] && !(spec.numQubits == 2 && name == "SWAP") && !(spec.numQubits == 3 && name == "CSWAP"))
                            || (spec.numQubits == 2 && name != "SWAP" && controls == [])
  {
    if spec.numQubits == 1 then
      if targets == [] then Failure(IndexError) else Success(Call(spec.methodName, OneQubit(targets[0])))
    else if spec.numQubits == 2 then
      if name == "SWAP" then Success(Call(spec.methodName, TargetList(targets)))
      else if targets == [] || controls == [] then Failure(IndexError)
      else Success(Call(spec.methodName, TargetControl(targets[0], controls[0])))
    else
      if name == "CSWAP" then Success(Call(spec.methodName, TargetsControls(targets, controls)))
      else if targets == [] then Failure(IndexError)
      else Success(Call(spec.methodName, TargetControls(targets[0], controls)))
  }

  /**
   * `add_gate` without its effect on the circuit: an unregistered name is
   * rejected; otherwise the call to make and the parameters to return (the
   * caller's when non-empty, else the registry defaults).
   */
  function AddGateCall(name: string, targets: seq<int>, controls: seq<int>, params: seq<Angle>): (r: Result<(Call, seq<Angle>), ConvertError>)
    ensures r.Failure? && r.error.UnsupportedGate? <==> name !in Registry()
    ensures r.Success? ==> name in Registry() && r.value.0.methodName == Registry()[name].methodName
                           && r.value.1 == (if params != [] then params else Registry()[name].params)
  {
    if name !in Registry() then Failure(UnsupportedGate(name))
    else
      var spec := Registry()[name];
      match Dispatch(name, spec, targets, controls)
      case Failure(e) => Failure(e)
      case Success(call) => Success((call, if params != [] then params else spec.params))
  }

  /** CX behaves exactly as CNOT, and TOFFOLI exactly as CCX. */
  lemma AliasesAgree(targets: seq<int>, controls: seq<int>, params: seq<Angle>)
    ensures AddGateCall("CX", targets, controls, params) == AddGateCall("CNOT", targets, controls, params)
    ensures AddGateCall("TOFFOLI", targets, controls, params) == AddGateCall("CCX", targets, controls, params)
  {
    assert Registry()["CX"] == Registry()["CNOT"];
    assert Registry()["TOFFOLI"] == Registry()["CCX"];
  }

  /** A rotation or U gate added without parameters returns its non-empty defaults. */
  lemma ParameterizedGatesGetDefaults(name: string, targets: seq<int>, controls: seq<int>)
    requires name in {"RX", "RY", "RZ", "U1", "U2", "U3"}
    requires AddGateCall(name, targets, controls, []).Success?
    ensures AddGateCall(name, targets, controls, []).value.1 != []
  {
  }

  /** A one-qubit gate with a target always succeeds and acts on its first target. */
  lemma OneQubitGateTakesFirstTarget(name: string, targets: seq<int>, controls: seq<int>, params: seq<Angle>)
    requires name in Registry() && Registry()[name].numQubits == 1 && targets != []
    ensures AddGateCall(name, targets, controls, params).Success?
    ensures AddGateCall(name, targets, controls, params).value.0.args == OneQubit(targets[0])
  {
  }

  /** SWAP passes its whole target list, whatever the controls. */
  lemma SwapTakesTargetList(targets: seq<int>, controls: seq<int>, params: seq<Angle>)
    ensures AddGateCall("SWAP", targets, controls, params).Success?
    ensures AddGateCall("SWAP", targets, controls, params).value.0 == Call("add_SWAP", TargetList(targets))
  {
    assert Registry()["SWAP"].numQubits == 2;
  }

  /**
   * Any other two-qubit gate acts on its first target and first control, and
   * is an IndexError when either list is empty.
   */
  lemma TwoQubitGateTakesFirstTargetAndControl(name: string, targets: seq<int>, controls: seq<int>, params: seq<Angle>)
    requires name in Registry() && Registry()[name].numQubits == 2 && name != "SWAP"
    ensures targets == [] || controls == [] ==> AddGateCall(name, targets, controls, params) == Failure(IndexError)
    ensures targets != [] && controls != [] ==>
              && AddGateCall(name, targets, controls, params).Success?
              && AddGateCall(name, targets, controls, params).value.0.args == TargetControl(targets[0], controls[0])
  {
  }

  /** CSWAP passes both lists whole, even empty ones. */
  lemma CswapTakesBothLists(targets: seq<int>, controls: seq<int>, params: seq<Angle>)
    ensures AddGateCall("CSWAP", targets, controls, params).Success?
    ensures AddGateCall("CSWAP", targets, controls, params).value.0 == Call("add_CSWAP", TargetsControls(targets, controls))
  {
    assert Registry()["CSWAP"].numQubits == 3;
  }

  /**
   * Any other three-qubit gate acts on its first target and the whole control
   * list, and is an IndexError without a target.
   */
  lemma ThreeQubitGateTakesFirstTargetAndControls(name: string, targets: seq<int>, controls: seq<int>, params: seq<Angle>)
    requires name in Registry() && Registry()[name].numQubits == 3 && name != "CSWAP"
    ensures targets == [] ==> AddGateCall(name, targets, controls, params) == Failure(IndexError)
    ensures targets != [] ==>
              && AddGateCall(name, targets, controls, params).Success?
              && AddGateCall(name, targets, controls, params).value.0.args == TargetControls(targets[0], controls)
  {
  }

  /** The qubits a call acts on. */
  function ArgQubits(a: Args): (r: seq<int>)
  {
    match a
    case OneQubit(t) => [t]
    case TargetList(ts) => ts
    case TargetControl(t, c) => [t, c]
    case TargetsControls(ts, cs) => ts + cs
    case TargetControls(t, cs) => [t] + cs
  }

  /** Every qubit a successful `add_gate` call acts on was given by the caller. */
  lemma CallQubitsFromCaller(name: string, targets: seq<int>, controls: seq<int>, params: seq<Angle>)
    requires AddGateCall(name, targets, controls, params).Success?
    ensures forall q <- ArgQubits(AddGateCall(name, targets, controls, params).value.0.args) :: q in targets || q in controls
  {
    var spec := Registry()[name];
    var call := Dispatch(name, spec, targets, controls).value;
    assert AddGateCall(name, targets, controls, params).value.0 == call;
    match call.args
    case OneQubit(t) => assert t == targets[0];
    case TargetList(ts) =>
    case TargetControl(t, c) => assert t == targets[0] && c == controls[0];
    case TargetsControls(ts, cs) =>
    case TargetControls(t, cs) => assert t == targets[0];
  }

  /** The squander circuit, seen through the calls made on it. */
  class SquanderCircuit {
    var calls: seq<Call>

    constructor()
      ensures calls == []
    {
      calls := [];
    }
  }

  /**
   * `add_gate`: on success the registry method is called on the circuit and
   * the parameters are returned; on an error the circuit is untouched.
   */
  method AddGate(circuit: SquanderCircuit, name: string, targets: seq<int>, controls: seq<int>, params: seq<Angle>)
    returns (r: Result<seq<Angle>, ConvertError>)
    modifies circuit
    ensures match AddGateCall(name, targets, controls, params)
            case Failure(e) => r == Failure(e) && circuit.calls == old(circuit.calls)
            case Success((call, ps)) => r == Success(ps) && circuit.calls == old(circuit.calls) + [call]
  {
    if name !in Registry() {
      return Failure(UnsupportedGate(name));
    }
    var spec := Registry()[name];
    var call := Dispatch(name, spec, targets, controls);
    if call.Failure? {
      return Failure(call.error);
    }
    circuit.calls := circuit.calls + [call.value];
    r := Success(if params != [] then params else spec.params);
  }
}
