/**
 * The serialisers that turn a circuit into an AQT request: the current API's `quantum_circuit`
 * op list with its job envelope, and the legacy `(name, exponent, qubits)` sequence.
 */
module CircuitToAqt {
  import opened Outcomes
  import opened Circuits

  /** One op of the current API's `quantum_circuit` list. */
  datatype AqtOp =
    | RZ(phi: real, qubit: nat)               // {"gate": "RZ", "phi": ..., "qubit": ...}
    | R(phi: real, theta: real, qubit: nat)   // {"gate": "R", "phi": ..., "theta": ..., "qubit": ...}
    | XX(qubits: seq<nat>)                    // {"gate": "XX", "qubits": [...]}

  /** One op of the legacy sequence, `(op name, exponent, [qubit index])`. */
  datatype SeqOp = SeqOp(name: string, exponent: real, qubits: seq<nat>)

  /** What one instruction contributes to a converter's loop. */
  datatype Step<Op> = Emit(ops: seq<Op>) | Measured | Skipped

  /** The loop state: the ops appended so far and the `meas` counter. */
  datatype Scan<Op> = Scan(ops: seq<Op>, measurements: nat)

  /** `{"job_type": ..., "label": ..., "payload": {"repetitions": ..., "quantum_circuit": ...}}` */
  datatype JobRequest = JobRequest(jobType: string, jobLabel: string, payload: CircuitPayload)
  datatype CircuitPayload = CircuitPayload(repetitions: int, quantumCircuit: seq<AqtOp>)

  /** `{"data": ..., "access_token": ..., "repetitions": ..., "no_qubits": ...}`; `data` is the op list before JSON encoding. */
  datatype LegacyRequest = LegacyRequest(data: seq<SeqOp>, accessToken: string, repetitions: int, noQubits: nat)

  /** `circuit_to_aqt` accepts a single circuit or a list of circuits. */
  datatype CircuitsArg = Single(circuit: Circuit) | List(circuits: seq<Circuit>)

  const NoMeasurement := ValueError("Circuit must have at least one measurements.")

  function AqtUnsupported(gate: string): Exception
  {
    ValueError("Operation '" + gate + "' outside of basis rz, r, rxx")
  }

  function LegacyUnsupported(gate: string): Exception
  {
    ValueError("Operation '" + gate + "' outside of basis rx, ry, rxx")
  }

  // ----- generic loop over circuit.data -------------------------------------------------------

  /** The loop of a converter over `data`, stopping at the first instruction that raises. */
  function Run<Op>(data: seq<Instruction>, step: Instruction -> Result<Step<Op>>): Result<Scan<Op>>
  {
    if data == [] then Ok(Scan([], 0)) else Next(Run(data[..|data| - 1], step), step(data[|data| - 1]))
  }

  /** One iteration of the loop body. */
  function Next<Op>(sofar: Result<Scan<Op>>, step: Result<Step<Op>>): Result<Scan<Op>>
  {
    match sofar
    case Err(e) => Err(e)
    case Ok(s) =>
      match step
      case Err(e) => Err(e)
      case Ok(Emit(ops)) => Ok(Scan(s.ops + ops, s.measurements))
      case Ok(Measured) => Ok(Scan(s.ops, s.measurements + 1))
      case Ok(Skipped) => Ok(s)
  }

  lemma RunExtend<Op>(data: seq<Instruction>, i: nat, step: Instruction -> Result<Step<Op>>)
    requires i < |data|
    ensures Run(data[..i + 1], step) == Next(Run(data[..i], step), step(data[i]))
  {
    assert data[..i + 1][..i] == data[..i];
  }

  /** Once a prefix of the loop has raised, the whole loop raises the same exception. */
  lemma {:induction false} RunStopsAtError<Op>(data: seq<Instruction>, n: nat, step: Instruction -> Result<Step<Op>>)
    requires n <= |data| && Run(data[..n], step).Err?
    ensures Run(data, step) == Run(data[..n], step)
  {
    if n < |data| {
      var init := data[..|data| - 1];
      assert init[..n] == data[..n];
      RunStopsAtError(init, n, step);
    } else {
      assert data[..n] == data;
    }
  }

  /** The ops every instruction emits, concatenated in circuit order (defined front to back). */
  function Emitted<Op>(data: seq<Instruction>, step: Instruction -> Result<Step<Op>>): seq<Op>
  {
    if data == [] then []
    else (match step(data[0]) case Ok(Emit(ops)) => ops case _ => []) + Emitted(data[1..], step)
  }

  /** How many instructions the step function counts as measurements. */
  function Measurements<Op>(data: seq<Instruction>, step: Instruction -> Result<Step<Op>>): nat
  {
    if data == [] then 0 else (if step(data[0]) == Ok(Measured) then 1 else 0) + Measurements(data[1..], step)
  }

  lemma {:induction false} EmittedAppend<Op>(data: seq<Instruction>, x: Instruction, step: Instruction -> Result<Step<Op>>)
    ensures Emitted(data + [x], step) == Emitted(data, step) + Emitted([x], step)
    ensures Measurements(data + [x], step) == Measurements(data, step) + Measurements([x], step)
  {
    if data != [] {
      assert (data + [x])[1..] == data[1..] + [x];
      EmittedAppend(data[1..], x, step);
    }
  }

  /**
   * The loop succeeds exactly when no instruction raises, and then its ops are the emitted ops
   * in order and its counter is the number of measurements.
   */
  lemma {:induction false} RunResult<Op>(data: seq<Instruction>, step: Instruction -> Result<Step<Op>>)
    ensures Run(data, step).Ok? <==> forall i :: 0 <= i < |data| ==> step(data[i]).Ok?
    ensures Run(data, step).Ok? ==>
      Run(data, step).value == Scan(Emitted(data, step), Measurements(data, step))
  {
    if data != [] {
      var init, last := data[..|data| - 1], data[|data| - 1];
      RunResult(init, step);
      EmittedAppend(init, last, step);
      assert data == init + [last];
      assert Emitted([last], step) == (match step(last) case Ok(Emit(ops)) => ops case _ => []);
      if Run(data, step).Ok? {
        forall i | 0 <= i < |data| ensures step(data[i]).Ok? {
          if i < |init| { assert data[i] == init[i]; }
        }
      }
      if forall i :: 0 <= i < |data| ==> step(data[i]).Ok? {
        assert forall i :: 0 <= i < |init| ==> step(init[i]).Ok? by {
          forall i | 0 <= i < |init| ensures step(init[i]).Ok? { assert init[i] == data[i]; }
        }
        assert step(data[|data| - 1]).Ok?;
      }
    }
  }

  // ----- _experiment_to_aqt_circuit ------------------------------------------------------------

  /** The branch of `_experiment_to_aqt_circuit`'s loop body taken for one instruction. */
  function AqtStep(qubitMap: map<Bit, nat>, inst: Instruction): Result<Step<AqtOp>>
  {
    match Indices(qubitMap, inst.qubits)
    case Err(e) => Err(e)
    case Ok(qubits) =>
      if inst.name == "rz" then
        if |inst.params| < 1 || |qubits| < 1 then Err(IndexError)
        else Ok(Emit([RZ(inst.params[0].overPi, qubits[0])]))
      else if inst.name == "r" then
        if |inst.params| < 2 || |qubits| < 1 then Err(IndexError)
        else Ok(Emit([R(inst.params[1].overPi, inst.params[0].overPi, qubits[0])]))
      else if inst.name == "rxx" then Ok(Emit([XX(if |qubits| <= 2 then qubits else qubits[..2])]))
      else if inst.name == "measure" then Ok(Measured)
      else if inst.name == "barrier" then Ok(Skipped)
      else Err(AqtUnsupported(inst.name))
  }

  function AqtStepFn(qubitMap: map<Bit, nat>): Instruction -> Result<Step<AqtOp>>
  {
    inst => AqtStep(qubitMap, inst)
  }

  /** What `_experiment_to_aqt_circuit` returns or raises. */
  function AqtCircuit(c: Circuit): Result<seq<AqtOp>>
  {
    match Run(c.data, AqtStepFn(PositionMap(c.qubits)))
    case Err(e) => Err(e)
    case Ok(s) => if s.measurements == 0 then Err(NoMeasurement) else Ok(s.ops)
  }

  method ExperimentToAqtCircuit(c: Circuit) returns (r: Result<seq<AqtOp>>)
    ensures r == AqtCircuit(c)
  {
    var qubitMap := QubitMap(c.qubits);
    ghost var step := AqtStepFn(qubitMap);
    var ops: seq<AqtOp> := [];
    var meas := 0;
    var i := 0;
    while i < |c.data|
      invariant 0 <= i <= |c.data|
      invariant Run(c.data[..i], step) == Ok(Scan(ops, meas))
    {
      RunExtend(c.data, i, step);
      match AqtStep(qubitMap, c.data[i]) {
        case Err(e) =>
          RunStopsAtError(c.data, i + 1, step);
          return Err(e);
        case Ok(Emit(emitted)) =>
          ops := ops + emitted;
        case Ok(Measured) =>
          meas := meas + 1;
        case Ok(Skipped) =>
      }
      i := i + 1;
    }
    assert c.data[..i] == c.data;
    if meas == 0 {
      r := Err(NoMeasurement);
    } else {
      r := Ok(ops);
    }
  }

  /** What `circuit_to_aqt_new` returns or raises. */
  function Request(c: Circuit, shots: int): Result<JobRequest>
  {
    match AqtCircuit(c)
    case Err(e) => Err(e)
    case Ok(ops) => Ok(JobRequest("quantum_circuit", "qiskit", CircuitPayload(shots, ops)))
  }

  method CircuitToAqtNew(c: Circuit, shots: int) returns (r: Result<JobRequest>)
    ensures r == Request(c, shots)
  {
    var seqs := ExperimentToAqtCircuit(c);
    if seqs.Err? {
      return Err(seqs.error);
    }
    r := Ok(JobRequest("quantum_circuit", "qiskit", CircuitPayload(shots, seqs.value)));
  }

  /** What one instruction that does not raise contributes to `_experiment_to_aqt_circuit`. */
  lemma AqtStepShape(qubitMap: map<Bit, nat>, x: Instruction)
    requires AqtStep(qubitMap, x).Ok?
    ensures (AqtStep(qubitMap, x) == Ok(Measured)) == (x.name == "measure")
    ensures x.name in {"measure", "barrier"} ==> !AqtStep(qubitMap, x).value.Emit?
    ensures x.name !in {"measure", "barrier"} ==>
      AqtStep(qubitMap, x).value.Emit? && |AqtStep(qubitMap, x).value.ops| == 1
  {
  }

  /** Counts measurements exactly for `measure`; emits one op per gate, none for `measure` and `barrier`. */
  lemma {:induction false} AqtGatesAndMeasurements(data: seq<Instruction>, qubitMap: map<Bit, nat>)
    requires forall i :: 0 <= i < |data| ==> AqtStep(qubitMap, data[i]).Ok?
    ensures Measurements(data, AqtStepFn(qubitMap)) == MeasureCount(data)
    ensures |Emitted(data, AqtStepFn(qubitMap))| == |Gates(data)|
    ensures forall k :: 0 <= k < |Gates(data)| ==>
      AqtStep(qubitMap, Gates(data)[k]) == Ok(Emit([Emitted(data, AqtStepFn(qubitMap))[k]]))
  {
    if data != [] {
      var step, x, tail := AqtStepFn(qubitMap), data[0], data[1..];
      assert forall i :: 0 <= i < |tail| ==> AqtStep(qubitMap, tail[i]).Ok? by {
        forall i | 0 <= i < |tail| ensures AqtStep(qubitMap, tail[i]).Ok? {
          assert tail[i] == data[i + 1];
        }
      }
      AqtGatesAndMeasurements(tail, qubitMap);
      AqtStepShape(qubitMap, x);
      assert step(x) == AqtStep(qubitMap, x);
      var rest, gates := Emitted(tail, step), Gates(tail);
      if x.name !in {"measure", "barrier"} {
        var op := AqtStep(qubitMap, x).value.ops[0];
        assert AqtStep(qubitMap, x) == Ok(Emit([op]));
        assert Gates(data) == [x] + gates;
        assert Emitted(data, step) == [op] + rest;
        forall k | 0 <= k < |Gates(data)|
          ensures AqtStep(qubitMap, Gates(data)[k]) == Ok(Emit([Emitted(data, step)[k]]))
        {
          if k > 0 {
            assert Gates(data)[k] == gates[k - 1];
            assert Emitted(data, step)[k] == rest[k - 1];
          }
        }
      }
    }
  }

  /**
   * `_experiment_to_aqt_circuit` succeeds exactly when no instruction raises and at least one is
   * a measurement; it then emits one op per gate (measure and barrier excluded), in circuit order.
   */
  lemma AqtCircuitSpec(c: Circuit)
    ensures AqtCircuit(c).Ok? <==>
      (forall i :: 0 <= i < |c.data| ==> AqtStep(PositionMap(c.qubits), c.data[i]).Ok?) && MeasureCount(c.data) > 0
    ensures AqtCircuit(c).Ok? ==>
      |AqtCircuit(c).value| == |Gates(c.data)| &&
      forall k :: 0 <= k < |Gates(c.data)| ==>
        AqtStep(PositionMap(c.qubits), Gates(c.data)[k]) == Ok(Emit([AqtCircuit(c).value[k]]))
  {
    var qubitMap := PositionMap(c.qubits);
    RunResult(c.data, AqtStepFn(qubitMap));
    assert forall i :: 0 <= i < |c.data| ==> AqtStepFn(qubitMap)(c.data[i]) == AqtStep(qubitMap, c.data[i]);
    if forall i :: 0 <= i < |c.data| ==> AqtStep(qubitMap, c.data[i]).Ok? {
      AqtGatesAndMeasurements(c.data, qubitMap);
    }
  }

  /** A circuit without a measure instruction is rejected. */
  lemma AqtCircuitNeedsMeasurement(c: Circuit)
    requires MeasureCount(c.data) == 0
    ensures AqtCircuit(c).Err?
    ensures (forall i :: 0 <= i < |c.data| ==> AqtStep(PositionMap(c.qubits), c.data[i]).Ok?) ==>
      AqtCircuit(c) == Err(NoMeasurement)
  {
    AqtCircuitSpec(c);
    var qubitMap := PositionMap(c.qubits);
    if forall i :: 0 <= i < |c.data| ==> AqtStep(qubitMap, c.data[i]).Ok? {
      RunResult(c.data, AqtStepFn(qubitMap));
      AqtGatesAndMeasurements(c.data, qubitMap);
    }
  }

  /** Any operation other than rz, r, rxx, measure and barrier makes the conversion raise. */
  lemma AqtCircuitRejectsUnsupported(c: Circuit, i: nat)
    requires i < |c.data| && c.data[i].name !in {"rz", "r", "rxx", "measure", "barrier"}
    ensures AqtCircuit(c).Err?
  {
    AqtCircuitSpec(c);
  }

  // ----- _experiment_to_seq (legacy API) -------------------------------------------------------

  /** The legacy API name of a gate, if it has one. */
  function LegacyName(gate: string): Option<string>
  {
    if gate == "rx" then Some("X")
    else if gate == "ry" then Some("Y")
    else if gate == "rz" then Some("Z")
    else if gate == "r" then Some("R")
    else if gate == "rxx" || gate == "ms" then Some("MS")
    else None
  }

  /** An X rotation by exactly pi, which the legacy converter splits into two half rotations. */
  predicate IsFullX(inst: Instruction)
  {
    inst.name == "rx" && |inst.params| >= 1 && inst.params[0].overPi == 1.0
  }

  /** The branch of `_experiment_to_seq`'s loop body taken for one instruction. */
  function LegacyStep(qubitMap: map<Bit, nat>, inst: Instruction): Result<Step<SeqOp>>
  {
    match Indices(qubitMap, inst.qubits)
    case Err(e) => Err(e)
    case Ok(indices) =>
      if inst.name == "measure" then Ok(Measured)
      else if inst.name == "barrier" then Ok(Skipped)
      else match LegacyName(inst.name)
        case None => Err(LegacyUnsupported(inst.name))
        case Some(name) =>
          if |inst.params| < 1 then Err(IndexError)
          else
            var qubits := if inst.name == "ms" then [] else indices;
            var exponent := inst.params[0].overPi;
            if name == "X" && exponent == 1.0 then Ok(Emit([SeqOp(name, 0.5, qubits), SeqOp(name, 0.5, qubits)]))
            else Ok(Emit([SeqOp(name, exponent, qubits)]))
  }

  function LegacyStepFn(qubitMap: map<Bit, nat>): Instruction -> Result<Step<SeqOp>>
  {
    inst => LegacyStep(qubitMap, inst)
  }

  /** What `_experiment_to_seq` returns (before JSON encoding) or raises. */
  function LegacySeq(c: Circuit): Result<seq<SeqOp>>
  {
    match Run(c.data, LegacyStepFn(PositionMap(c.qubits)))
    case Err(e) => Err(e)
    case Ok(s) => if s.measurements == 0 then Err(NoMeasurement) else Ok(s.ops)
  }

  method ExperimentToSeq(c: Circuit) returns (r: Result<seq<SeqOp>>)
    ensures r == LegacySeq(c)
  {
    var qubitMap := QubitMap(c.qubits);
    ghost var step := LegacyStepFn(qubitMap);
    var ops: seq<SeqOp> := [];
    var meas := 0;
    var i := 0;
    while i < |c.data|
      invariant 0 <= i <= |c.data|
      invariant Run(c.data[..i], step) == Ok(Scan(ops, meas))
    {
      RunExtend(c.data, i, step);
      match LegacyStep(qubitMap, c.data[i]) {
        case Err(e) =>
          RunStopsAtError(c.data, i + 1, step);
          return Err(e);
        case Ok(Emit(emitted)) =>
          ops := ops + emitted;
        case Ok(Measured) =>
          meas := meas + 1;
        case Ok(Skipped) =>
      }
      i := i + 1;
    }
    assert c.data[..i] == c.data;
    if meas == 0 {
      r := Err(NoMeasurement);
    } else {
      r := Ok(ops);
    }
  }

  /** The number of full X rotations among the instructions. */
  function FullXCount(data: seq<Instruction>): nat
  {
    if data == [] then 0 else (if IsFullX(data[0]) then 1 else 0) + FullXCount(data[1..])
  }

  /** What one instruction that does not raise contributes to `_experiment_to_seq`. */
  lemma LegacyStepShape(qubitMap: map<Bit, nat>, x: Instruction)
    requires LegacyStep(qubitMap, x).Ok?
    ensures (LegacyStep(qubitMap, x) == Ok(Measured)) == (x.name == "measure")
    ensures x.name in {"measure", "barrier"} ==> !LegacyStep(qubitMap, x).value.Emit?
    ensures x.name !in {"measure", "barrier"} ==>
      LegacyStep(qubitMap, x).value.Emit? &&
      |LegacyStep(qubitMap, x).value.ops| == if IsFullX(x) then 2 else 1
  {
  }

  lemma {:induction false} LegacyGatesAndMeasurements(data: seq<Instruction>, qubitMap: map<Bit, nat>)
    requires forall i :: 0 <= i < |data| ==> LegacyStep(qubitMap, data[i]).Ok?
    ensures Measurements(data, LegacyStepFn(qubitMap)) == MeasureCount(data)
    ensures Emitted(data, LegacyStepFn(qubitMap)) == Emitted(Gates(data), LegacyStepFn(qubitMap))
    ensures |Emitted(data, LegacyStepFn(qubitMap))| == |Gates(data)| + FullXCount(Gates(data))
  {
    if data != [] {
      var step, x, tail := LegacyStepFn(qubitMap), data[0], data[1..];
      assert forall i :: 0 <= i < |tail| ==> LegacyStep(qubitMap, tail[i]).Ok? by {
        forall i | 0 <= i < |tail| ensures LegacyStep(qubitMap, tail[i]).Ok? {
          assert tail[i] == data[i + 1];
        }
      }
      LegacyGatesAndMeasurements(tail, qubitMap);
      LegacyStepShape(qubitMap, x);
      assert step(x) == LegacyStep(qubitMap, x);
      var gates := Gates(tail);
      if x.name !in {"measure", "barrier"} {
        var g := Gates(data);
        assert g == [x] + gates;
        assert g[0] == x && g[1..] == gates;
        assert Emitted(g, step) == LegacyStep(qubitMap, x).value.ops + Emitted(gates, step);
        assert FullXCount(g) == (if IsFullX(x) then 1 else 0) + FullXCount(gates);
      } else {
        assert Gates(data) == gates;
      }
    }
  }

  /**
   * `_experiment_to_seq` succeeds exactly when no instruction raises and at least one is a
   * measurement; its ops are then those of the gates in circuit order, one per gate plus one
   * more for every full X rotation.
   */
  lemma LegacySeqSpec(c: Circuit)
    ensures LegacySeq(c).Ok? <==>
      (forall i :: 0 <= i < |c.data| ==> LegacyStep(PositionMap(c.qubits), c.data[i]).Ok?) && MeasureCount(c.data) > 0
    ensures LegacySeq(c).Ok? ==>
      LegacySeq(c).value == Emitted(Gates(c.data), LegacyStepFn(PositionMap(c.qubits))) &&
      |LegacySeq(c).value| == |Gates(c.data)| + FullXCount(Gates(c.data))
    ensures MeasureCount(c.data) == 0 ==> LegacySeq(c).Err?
  {
    var qubitMap := PositionMap(c.qubits);
    RunResult(c.data, LegacyStepFn(qubitMap));
    assert forall i :: 0 <= i < |c.data| ==> LegacyStepFn(qubitMap)(c.data[i]) == LegacyStep(qubitMap, c.data[i]);
    if forall i :: 0 <= i < |c.data| ==> LegacyStep(qubitMap, c.data[i]).Ok? {
      LegacyGatesAndMeasurements(c.data, qubitMap);
    }
  }

  /** What `circuit_to_aqt` returns or raises; `shots` defaults to 100. */
  function LegacyRequests(circuits: CircuitsArg, accessToken: string, shots: int := 100): Result<seq<LegacyRequest>>
  {
    match OnlyCircuit(circuits)
    case Err(e) => Err(e)
    case Ok(c) =>
      match LegacySeq(c)
      case Err(e) => Err(e)
      case Ok(seqs) => Ok([LegacyRequest(seqs, accessToken, shots, |c.qubits|)])
  }

  /** The one circuit `circuit_to_aqt` converts: a list must hold exactly one. */
  function OnlyCircuit(circuits: CircuitsArg): Result<Circuit>
  {
    match circuits
    case Single(c) => Ok(c)
    case List(cs) =>
      if |cs| > 1 then Err(ValueError("Lists of circuits are not supported."))
      else if cs == [] then Err(IndexError)
      else Ok(cs[0])
  }

  method CircuitToAqt(circuits: CircuitsArg, accessToken: string, shots: int := 100) returns (r: Result<seq<LegacyRequest>>)
    ensures r == LegacyRequests(circuits, accessToken, shots)
  {
    var outJson: seq<LegacyRequest> := [];
    var c: Circuit;
    if circuits.List? {
      if |circuits.circuits| > 1 {
        r := Err(ValueError("Lists of circuits are not supported."));
        assert r == LegacyRequests(circuits, accessToken, shots);
        return;
      }
      if circuits.circuits == [] {
        r := Err(IndexError);
        assert r == LegacyRequests(circuits, accessToken, shots);
        return;
      }
      c := circuits.circuits[0];
    } else {
      c := circuits.circuit;
    }
    assert OnlyCircuit(circuits) == Ok(c);
    var seqs := ExperimentToSeq(c);
    if seqs.Err? {
      r := Err(seqs.error);
      assert r == LegacyRequests(circuits, accessToken, shots);
      return;
    }
    outJson := outJson + [LegacyRequest(seqs.value, accessToken, shots, |c.qubits|)];
    assert outJson == [LegacyRequest(seqs.value, accessToken, shots, |c.qubits|)];
    r := Ok(outJson);
    assert r == LegacyRequests(circuits, accessToken, shots);
  }

  // ----- the cases the repository's tests exercise --------------------------------------------

  function Rotation(name: string, angle: real, q: Bit): Instruction { Instruction(name, [Angle(angle)], [q], []) }

  lemma IndicesOfOne(qubitMap: map<Bit, nat>, q: Bit)
    requires q in qubitMap
    ensures Indices(qubitMap, [q]) == Ok([qubitMap[q]])
  {
    assert [q][1..] == [];
    assert [qubitMap[q]] + [] == [qubitMap[q]];
  }

  /** The loop over a rotation followed by a measurement, with no instruction raising. */
  lemma RunRotationThenMeasure<Op>(g: Instruction, m: Instruction, step: Instruction -> Result<Step<Op>>, ops: seq<Op>)
    requires step(g) == Ok(Emit(ops)) && step(m) == Ok(Measured)
    ensures Run([g, m], step) == Ok(Scan(ops, 1))
  {
    var data := [g, m];
    RunResult(data, step);
    assert data[1..][0] == m && data[1..][1..] == [];
    assert Emitted(data[1..], step) == [] && Measurements(data[1..], step) == 1;
    assert ops + [] == ops;
  }

  /** `QuantumCircuit(1)` with no instruction cannot be converted. */
  lemma EmptyCircuitRejected()
    ensures Request(Circuit("c", [Bit("q", 0)], 0, []), 100) == Err(NoMeasurement)
  {
  }

  /** A circuit holding only a measurement converts to an empty op list inside the fixed envelope. */
  lemma MeasureOnlyCircuit()
    ensures Request(Circuit("c", [Bit("q", 0)], 1, [Measure(Bit("q", 0), Bit("c", 0))]), 100)
         == Ok(JobRequest("quantum_circuit", "qiskit", CircuitPayload(100, [])))
  {
    var q := Bit("q", 0);
    assert PositionMap([q]) == map[q := 0];
  }

  /** `h` and `rx` are outside the basis of the current API. */
  lemma HAndRxRejected()
    ensures Request(Circuit("c", [Bit("q", 0)], 1, [Instruction("h", [], [Bit("q", 0)], []), Measure(Bit("q", 0), Bit("c", 0))]), 100)
         == Err(AqtUnsupported("h"))
    ensures Request(Circuit("c", [Bit("q", 0)], 1, [Rotation("rx", 1.0, Bit("q", 0)), Measure(Bit("q", 0), Bit("c", 0))]), 100)
         == Err(AqtUnsupported("rx"))
  {
    var q := Bit("q", 0);
    var m := map[q := 0];
    assert PositionMap([q]) == m;
    IndicesOfOne(m, q);
    var step := AqtStepFn(m);
    var h := [Instruction("h", [], [q], []), Measure(q, Bit("c", 0))];
    assert h[..1] == [h[0]] && [h[0]][..0] == [];
    assert step(h[0]) == Err(AqtUnsupported("h"));
    RunStopsAtError(h, 1, step);
    var rx := [Rotation("rx", 1.0, q), Measure(q, Bit("c", 0))];
    assert rx[..1] == [rx[0]] && [rx[0]][..0] == [];
    assert step(rx[0]) == Err(AqtUnsupported("rx"));
    RunStopsAtError(rx, 1, step);
  }

  /** The qubit map of a two-qubit register. */
  lemma PositionMapOfTwo(q0: Bit, q1: Bit)
    requires q0 != q1
    ensures PositionMap([q0, q1]) == map[q0 := 0, q1 := 1]
  {
    assert [q0, q1][..1] == [q0] && [q0][..0] == [];
    assert PositionMap([q0]) == map[q0 := 0];
  }

  /** The loop over two gates followed by a measurement, with no instruction raising. */
  lemma RunTwoGatesThenMeasure<Op>(g1: Instruction, g2: Instruction, m: Instruction,
                                   step: Instruction -> Result<Step<Op>>, op1: Op, op2: Op)
    requires step(g1) == Ok(Emit([op1])) && step(g2) == Ok(Emit([op2])) && step(m) == Ok(Measured)
    ensures Run([g1, g2, m], step) == Ok(Scan([op1, op2], 1))
  {
    var data := [g1, g2, m];
    RunRotationThenMeasure(g2, m, step, [op2]);
    assert data[1..] == [g2, m];
    RunResult(data[1..], step);
    RunResult(data, step);
    assert [op1] + [op2] == [op1, op2];
  }

  /** `rz(pi)` on qubit 0 and `rz(2 pi)` on qubit 1 become two RZ ops with phi 1.0 and 2.0. */
  lemma TwoRzCircuit()
    ensures Request(Circuit("c", [Bit("q", 0), Bit("q", 1)], 1,
                            [Rotation("rz", 1.0, Bit("q", 0)), Rotation("rz", 2.0, Bit("q", 1)), Measure(Bit("q", 0), Bit("c", 0))]), 100)
         == Ok(JobRequest("quantum_circuit", "qiskit", CircuitPayload(100, [RZ(1.0, 0), RZ(2.0, 1)])))
  {
    var q0, q1 := Bit("q", 0), Bit("q", 1);
    PositionMapOfTwo(q0, q1);
    var m := map[q0 := 0, q1 := 1];
    IndicesOfOne(m, q0);
    IndicesOfOne(m, q1);
    var step := AqtStepFn(m);
    var data := [Rotation("rz", 1.0, q0), Rotation("rz", 2.0, q1), Measure(q0, Bit("c", 0))];
    assert step(data[0]) == Ok(Emit([RZ(1.0, 0)]));
    assert step(data[1]) == Ok(Emit([RZ(2.0, 1)]));
    RunTwoGatesThenMeasure(data[0], data[1], data[2], step, RZ(1.0, 0), RZ(2.0, 1));
  }

  /** The legacy converter splits `rx(pi)` into two X ops of exponent 0.5 on the same qubits. */
  lemma LegacyFullXSplit()
    ensures LegacySeq(Circuit("c", [Bit("q", 0)], 1, [Rotation("rx", 1.0, Bit("q", 0)), Measure(Bit("q", 0), Bit("c", 0))]))
         == Ok([SeqOp("X", 0.5, [0]), SeqOp("X", 0.5, [0])])
  {
    var q := Bit("q", 0);
    var m := map[q := 0];
    assert PositionMap([q]) == m;
    IndicesOfOne(m, q);
    var step := LegacyStepFn(m);
    var data := [Rotation("rx", 1.0, q), Measure(q, Bit("c", 0))];
    assert step(data[0]) == Ok(Emit([SeqOp("X", 0.5, [0]), SeqOp("X", 0.5, [0])]));
    RunRotationThenMeasure(data[0], data[1], step, [SeqOp("X", 0.5, [0]), SeqOp("X", 0.5, [0])]);
  }

  /** `ry(pi)` in the legacy format, wrapped in its one-element request list, with the default shots. */
  lemma LegacyRyRequest()
    ensures LegacyRequests(Single(Circuit("c", [Bit("q", 0)], 1, [Rotation("ry", 1.0, Bit("q", 0)), Measure(Bit("q", 0), Bit("c", 0))])), "foo")
         == Ok([LegacyRequest([SeqOp("Y", 1.0, [0])], "foo", 100, 1)])
  {
    var q := Bit("q", 0);
    var m := map[q := 0];
    assert PositionMap([q]) == m;
    IndicesOfOne(m, q);
    var step := LegacyStepFn(m);
    var data := [Rotation("ry", 1.0, q), Measure(q, Bit("c", 0))];
    assert step(data[0]) == Ok(Emit([SeqOp("Y", 1.0, [0])]));
    RunRotationThenMeasure(data[0], data[1], step, [SeqOp("Y", 1.0, [0])]);
  }
}
