/** The parts of a Qiskit `QuantumCircuit` that the converters and the result decoder read. */
module Circuits {
  import opened Outcomes

  /** A Qiskit bit: the register it belongs to and its index in that register (`Bit.index`). */
  datatype Bit = Bit(register: string, index: nat)

  /**
   * A gate angle, recorded as its value in radians divided by pi, so that the converters'
   * `param / pi` is exactly `overPi`. Floating-point rounding is not modelled.
   */
  datatype Angle = Angle(overPi: real)

  /** One entry of `circuit.data`: the operation's name and parameters, and the bits it acts on. */
  datatype Instruction = Instruction(name: string, params: seq<Angle>, qubits: seq<Bit>, clbits: seq<Bit>)

  datatype Circuit = Circuit(name: string, qubits: seq<Bit>, numClbits: nat, data: seq<Instruction>)

  /**
   * The `qubit_map` the converters build: every bit of `circuit.qubits` to its position.
   * Qiskit keeps `circuit.qubits` free of repetitions; were a bit repeated, its last position would win.
   */
  function PositionMap(qs: seq<Bit>): map<Bit, nat>
  {
    if qs == [] then map[] else PositionMap(qs[..|qs| - 1])[qs[|qs| - 1] := |qs| - 1]
  }

  lemma {:induction false} PositionMapKeys(qs: seq<Bit>)
    ensures PositionMap(qs).Keys == set b | b in qs
  {
    if qs != [] {
      var init := qs[..|qs| - 1];
      PositionMapKeys(init);
      assert qs == init + [qs[|qs| - 1]];
    }
  }

  /** A bit that does not occur again later in `circuit.qubits` is mapped to its own position. */
  lemma {:induction false} PositionMapIsPosition(qs: seq<Bit>, i: nat)
    requires i < |qs|
    requires forall j :: i < j < |qs| ==> qs[j] != qs[i]
    ensures qs[i] in PositionMap(qs) && PositionMap(qs)[qs[i]] == i
  {
    if i < |qs| - 1 {
      var init := qs[..|qs| - 1];
      assert init[i] == qs[i];
      PositionMapIsPosition(init, i);
    }
  }

  /** The `count` loop over `circuit.qubits` that both converters start with. */
  method QubitMap(qs: seq<Bit>) returns (qubitMap: map<Bit, nat>)
    ensures qubitMap == PositionMap(qs)
  {
    var count := 0;
    qubitMap := map[];
    while count < |qs|
      invariant 0 <= count <= |qs|
      invariant qubitMap == PositionMap(qs[..count])
    {
      assert qs[..count + 1][..count] == qs[..count];
      qubitMap := qubitMap[qs[count] := count];
      count := count + 1;
    }
    assert qs[..count] == qs;
  }

  /** `[qubit_map[bit] for bit in bits]`: a bit missing from the map raises KeyError. */
  function Indices(qubitMap: map<Bit, nat>, bits: seq<Bit>): (r: Result<seq<nat>>)
    ensures r.Ok? <==> forall b :: b in bits ==> b in qubitMap
    ensures r.Err? ==> r.error == KeyError
    ensures r.Ok? ==> |r.value| == |bits| && forall i :: 0 <= i < |bits| ==> r.value[i] == qubitMap[bits[i]]
  {
    if bits == [] then Ok([])
    else if bits[0] !in qubitMap then Err(KeyError)
    else match Indices(qubitMap, bits[1..])
      case Err(e) => Err(e)
      case Ok(rest) => Ok([qubitMap[bits[0]]] + rest)
  }

  /** The number of `measure` instructions, an independent count the converters' `meas` is compared with. */
  function MeasureCount(data: seq<Instruction>): nat
  {
    if data == [] then 0 else (if data[0].name == "measure" then 1 else 0) + MeasureCount(data[1..])
  }

  /** The instructions that are neither `measure` nor `barrier`, in circuit order. */
  function Gates(data: seq<Instruction>): seq<Instruction>
  {
    if data == [] then []
    else (if data[0].name in {"measure", "barrier"} then [] else [data[0]]) + Gates(data[1..])
  }

  /** `circuit.measure(q, c)`: one measure instruction on one qubit and one clbit. */
  function Measure(q: Bit, c: Bit): Instruction { Instruction("measure", [], [q], [c]) }
}
