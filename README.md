# AQT provider for Qiskit: a Dafny model of its core

This project models the parts of the Qiskit provider for Alpine Quantum Technologies (AQT)
that decide what is sent to the AQT portal and how the answers are read back. Each part is
modelled in the form its source takes and then proved against specification functions.

- **Circuit serialisers** (`circuit_to_aqt.dfy`, module `CircuitToAqt`, over the circuit data
  model of `circuits.dfy`). `circuit_to_aqt_new` builds the JSON request of the current API.
  Its gates are RZ, R and XX; barriers and measurements emit nothing; a circuit needs at least
  one measurement. `circuit_to_aqt` builds the legacy `[name, exponent, qubits]` sequence; a
  full X rotation becomes two half rotations. Both converter loops are methods proved equal
  to a fold over the instructions (`Run`). The fold's properties are then proved as lemmas.
- **Job tracking** (`aqt_job.dfy`, module `AqtJob`). The status tags of the API jobs are
  modelled, together with the aggregation of their statuses into one Qiskit status and the
  decoding of an API status answer. The job is a class whose `jobs` field is the
  insertion-ordered dict of API job ids. `submit`, `_status_single`, `failed_jobs`, `job_ids`
  and `result` are its members.
- **Shot decoding** (`shot_format.dfy`, module `ShotFormat`).
  - `_build_memory_mapping` is a nested loop proved equal to a fold over the measurements.
  - `_shot_to_int` writes into a zero-filled classical register in dict order. Without a map,
    bit i of the result is state i. With a map that sends no two qubits to the same classical
    bit, it is proved equal to the sum of `states[src] * 2^dest`. With a map that covers every
    qubit but repeats a destination, the later write in dict order wins.
  - `hex` is modelled and proved invertible.
  - `_format_counts` is proved to be the histogram of the hexadecimal keys.
- **Backend registry and providers** (`registry.dfy`, `aqt_provider.dfy`,
  `legacy_provider.dfy`). `BackendService` binds one attribute per backend name and lists
  backends with a name pre-filter. The current provider adds:
  - token and portal-URL resolution from the environment;
  - `get_backend`'s exactly-one rule;
  - `get_resource`'s first-match search through workspaces and resources.

  The older provider has its own four-backend catalog.
- **Bitstring helper of the Grover 3-SAT example** (`grover.dfy`). `format_bitstring` reads
  an MSB-first bitstring as LSB-first booleans. Its inverse and both round trips are proved.

`outcomes.dfy` holds `Option`, `Result` and the exceptions the code raises. `dicts.dfy` models
Python's insertion-ordered `dict` as a list of key/value pairs: assigning to an existing key
keeps its position, and a new key is appended.

Conventions:
- Angles are stored as multiples of pi (`Angle(overPi)`), so `params[0] / pi` is exact.
- A Qiskit `Bit` is a register name and an index.
- Python exceptions are `Err` values; each message is the one the code raises.

## Model

| member | source | states |
|---|---|---|
| Circuits.QubitMap | qiskit_aqt_provider/circuit_to_aqt.py:67-71 | the loop over `circuit.qubits` builds the position map: each bit maps to its position (last position for a repeated bit) |
| Circuits.PositionMapKeys | qiskit_aqt_provider/circuit_to_aqt.py:23-27 | the qubit map's keys are exactly the circuit's qubits |
| Circuits.PositionMapIsPosition | qiskit_aqt_provider/circuit_to_aqt.py:67-71 | a qubit not repeated later maps to its index in `circuit.qubits` |
| Circuits.Indices | qiskit_aqt_provider/circuit_to_aqt.py:76 | `[qubit_map[bit] for bit in ...]` succeeds iff every bit is mapped, and then gives the mapped index of each bit in order; otherwise KeyError |
| CircuitToAqt.RunResult | qiskit_aqt_provider/circuit_to_aqt.py:74-107 | the conversion loop succeeds iff no instruction raises, and its ops are the emitted ops in order; the measure count is counted |
| CircuitToAqt.RunStopsAtError | qiskit_aqt_provider/circuit_to_aqt.py:103-104 | once an instruction raises, later instructions do not change the outcome |
| CircuitToAqt.RunExtend | qiskit_aqt_provider/circuit_to_aqt.py:74-100 | the fold over one more instruction is one more loop step |
| CircuitToAqt.EmittedAppend | qiskit_aqt_provider/circuit_to_aqt.py:74-100 | ops and measurements of a longer instruction list are those of its parts added up |
| CircuitToAqt.ExperimentToAqtCircuit | qiskit_aqt_provider/circuit_to_aqt.py:66-107 | the loop of `_experiment_to_aqt_circuit` returns what the fold specification returns, error cases included |
| CircuitToAqt.AqtStepShape | qiskit_aqt_provider/circuit_to_aqt.py:77-102 | a translated instruction is a measurement exactly when named measure; measure and barrier emit nothing; any other accepted gate emits one op |
| CircuitToAqt.AqtGatesAndMeasurements | qiskit_aqt_provider/circuit_to_aqt.py:74-102 | with no instruction raising, there is one op per gate (measure and barrier excluded), in circuit order, and the measure count is the number of measure instructions |
| CircuitToAqt.AqtCircuitSpec | qiskit_aqt_provider/circuit_to_aqt.py:66-107 | the conversion succeeds iff no instruction raises and there is at least one measurement; the ops are then exactly the translated gates, in order |
| CircuitToAqt.AqtCircuitNeedsMeasurement | qiskit_aqt_provider/circuit_to_aqt.py:105-106 | a circuit without a measurement is rejected, with the missing-measurement error when no gate raises first |
| CircuitToAqt.AqtCircuitRejectsUnsupported | qiskit_aqt_provider/circuit_to_aqt.py:103-104 | any gate other than rz, r, rxx, measure and barrier makes the conversion fail |
| CircuitToAqt.AqtStep | qiskit_aqt_provider/circuit_to_aqt.py:75-104 | one loop step of `_experiment_to_aqt_circuit`; AqtStepShape and AqtCircuitRejectsUnsupported state its cases |
| CircuitToAqt.AqtCircuit | qiskit_aqt_provider/circuit_to_aqt.py:66-107 | what `_experiment_to_aqt_circuit` returns or raises; its meaning is AqtCircuitSpec |
| CircuitToAqt.Request | qiskit_aqt_provider/circuit_to_aqt.py:150-157 | the request envelope around AqtCircuit; the test lemmas and CircuitToAqtNew pin it down |
| CircuitToAqt.CircuitToAqtNew | qiskit_aqt_provider/circuit_to_aqt.py:139-157 | the request is job type "quantum_circuit", label "qiskit", repetitions = shots and the converted ops, or the converter's error |
| CircuitToAqt.EmptyCircuitRejected | test/test_circuit_to_aqt_new.py:25-27 | a circuit without instructions raises ValueError |
| CircuitToAqt.MeasureOnlyCircuit | test/test_circuit_to_aqt_new.py:29-40 | a measure-only circuit gives an empty op list with repetitions 100 |
| CircuitToAqt.HAndRxRejected | test/test_circuit_to_aqt_new.py:42-53 | `h` and `rx` are rejected |
| CircuitToAqt.TwoRzCircuit | test/test_circuit_to_aqt_new.py:55-71 | rz(pi) on qubit 0 and rz(2 pi) on qubit 1 give RZ ops with phi 1.0 and 2.0 |
| CircuitToAqt.PositionMapOfTwo | qiskit_aqt_provider/circuit_to_aqt.py:67-71 | two distinct qubits map to 0 and 1 |
| CircuitToAqt.IndicesOfOne | qiskit_aqt_provider/circuit_to_aqt.py:76 | a single mapped bit translates to its index |
| CircuitToAqt.RunRotationThenMeasure | qiskit_aqt_provider/circuit_to_aqt.py:74-100 | a gate then a measurement fold to the gate's ops and one measurement |
| CircuitToAqt.RunTwoGatesThenMeasure | qiskit_aqt_provider/circuit_to_aqt.py:74-100 | two gates then a measurement fold to both gates' ops in order |
| CircuitToAqt.ExperimentToSeq | qiskit_aqt_provider/circuit_to_aqt.py:22-63 | the loop of `_experiment_to_seq` returns what its fold specification returns |
| CircuitToAqt.LegacyStepShape | qiskit_aqt_provider/circuit_to_aqt.py:33-60 | an accepted legacy instruction is a measurement exactly when named measure; measure and barrier emit nothing; other gates emit ops |
| CircuitToAqt.LegacyGatesAndMeasurements | qiskit_aqt_provider/circuit_to_aqt.py:30-60 | with no instruction raising, the ops are those of the gates in order, one per gate plus one per full X rotation |
| CircuitToAqt.LegacySeqSpec | qiskit_aqt_provider/circuit_to_aqt.py:22-63 | the legacy conversion succeeds iff no instruction raises and there is a measurement; its length is gates plus full X rotations |
| CircuitToAqt.LegacyStep | qiskit_aqt_provider/circuit_to_aqt.py:31-60 | one loop step of `_experiment_to_seq`; LegacyStepShape and LegacyFullXSplit state its cases |
| CircuitToAqt.LegacySeq | qiskit_aqt_provider/circuit_to_aqt.py:22-63 | what `_experiment_to_seq` returns or raises, before `json.dumps`; its meaning is LegacySeqSpec |
| CircuitToAqt.LegacyFullXSplit | qiskit_aqt_provider/circuit_to_aqt.py:54-57 | rx(pi) becomes two X ops with exponent 0.5 on the same qubits |
| CircuitToAqt.CircuitToAqt | qiskit_aqt_provider/circuit_to_aqt.py:110-136 | a list of more than one circuit raises, a one-element list is unwrapped, and the result is one request with data, token, repetitions and qubit count |
| CircuitToAqt.LegacyRequests | qiskit_aqt_provider/circuit_to_aqt.py:110-136 | what `circuit_to_aqt` returns or raises, with `shots` defaulting to 100; LegacyRyRequest uses the default |
| CircuitToAqt.OnlyCircuit | qiskit_aqt_provider/circuit_to_aqt.py:124-127 | the circuit converted: a lone circuit, or the only element of a list; more than one raises ValueError and an empty list IndexError |
| CircuitToAqt.LegacyRyRequest | qiskit_aqt_provider/circuit_to_aqt.py:123-136 | ry(pi) with token "foo" gives `[["Y", 1.0, [0]]]`, repetitions 100 and one qubit |
| AqtJob.Worst | qiskit_aqt_provider/aqt_job_new.py:225-248 | the worst status occurs in the list and no status in it is more severe |
| AqtJob.AggregateIsWorst | qiskit_aqt_provider/aqt_job_new.py:225-248 | the aggregate is QUEUED for no jobs and otherwise the most severe status, in the order ERROR, CANCELLED, RUNNING, QUEUED, DONE |
| AqtJob.AggregateDone | qiskit_aqt_provider/aqt_job_new.py:241-248 | the aggregate is DONE iff there is at least one job and every job is DONE |
| AqtJob.Aggregate | qiskit_aqt_provider/aqt_job_new.py:232-248 | the precedence chain of `_aggregate_status`; AggregateIsWorst proves it is the most severe status (QUEUED for none) and AggregateDone that it is DONE iff every job is |
| AqtJob.DecodeStatusRoundTrip | qiskit_aqt_provider/aqt_job_new.py:212-219 | an answer carrying a tag's status name and payload decodes back to that tag |
| AqtJob.DecodeStatusRejects | qiskit_aqt_provider/aqt_job_new.py:220-223 | decoding fails iff the status is none of finished, error, queued and ongoing, with the unknown-status RuntimeError |
| AqtJob.DecodeStatus | qiskit_aqt_provider/aqt_job_new.py:209-223 | the tag an API answer decodes to; DecodeStatusRoundTrip proves each of the four status names decodes to its tag, DecodeStatusRejects that every other name raises |
| AqtJob.FirstRejected | qiskit_aqt_provider/aqt_job_new.py:100-101 | the index of the first circuit the converter rejects: all earlier ones convert |
| AqtJob.FirstRejectedAt | qiskit_aqt_provider/aqt_job_new.py:100-101 | an index before which all circuits convert and at which one is rejected is that first index |
| AqtJob.QueueAllFresh | qiskit_aqt_provider/aqt_job_new.py:97-101 | submitting with distinct ids gives exactly one QUEUED entry per circuit, keyed by its id, in circuit order |
| AqtJob.QueueAllKeys | qiskit_aqt_provider/aqt_job_new.py:202-203 | the job ids after submitting are the old ids plus the new ones, each once |
| AqtJob.QueueAll | qiskit_aqt_provider/aqt_job_new.py:100-101 | `self._jobs[job_id] = JobQueued()` per submitted id; QueueAllFresh gives the resulting table and QueueAllKeys its ids |
| AqtJob.Experiment | qiskit_aqt_provider/aqt_job_new.py:140-162 | an entry succeeds exactly when its status is DONE, and has counts exactly when its job finished |
| AqtJob.CollectSpec | qiskit_aqt_provider/aqt_job_new.py:137-162 | collecting the entries succeeds iff every entry succeeds, and keeps them in order |
| AqtJob.CollectStopsAtError | qiskit_aqt_provider/aqt_job_new.py:137-162 | the first failing entry's error is the result |
| AqtJob.Collect | qiskit_aqt_provider/aqt_job_new.py:137-162 | the loop building `results`, stopping at the first raise; its meaning is CollectSpec and CollectStopsAtError |
| AqtJob.ResultOf | qiskit_aqt_provider/aqt_job_new.py:117-162 | what `result()` returns or raises; CombinedResultSpec states that it returns exactly when every job is DONE and every circuit's shots format |
| AqtJob.CombinedResultSpec | qiskit_aqt_provider/aqt_job_new.py:117-162 | an aggregate other than DONE raises the evaluation RuntimeError; a DONE aggregate whose circuits' shots all format returns a result; a result has one success entry per zipped pair, each with the counts of its circuit's memory mapping |
| AqtJob.Job.constructor | qiskit_aqt_provider/aqt_job_new.py:74-94 | the job keeps its circuits and shots and starts with no API jobs |
| AqtJob.Job.SubmitSingle | qiskit_aqt_provider/aqt_job_new.py:190-203 | a converted circuit's id is set to QUEUED; a rejected circuit raises and leaves the jobs unchanged |
| AqtJob.Job.Submit | qiskit_aqt_provider/aqt_job_new.py:97-101 | the circuits are submitted in order until the first rejected one, which raises; the jobs are the old ones with one QUEUED entry per submitted id, so `job_ids` (lines 175-178) becomes the old set plus the ids submitted before the first rejected circuit |
| AqtJob.Job.StatusSingle | qiskit_aqt_provider/aqt_job_new.py:205-223 | the entry for `job_id` is set to the decoded tag; other entries are unchanged and the key order is kept; an unknown status raises and changes nothing; `job_ids` (lines 175-178) becomes the old set plus the queried id, unchanged when the status is unknown |
| AqtJob.Job.AggregateStatus | qiskit_aqt_provider/aqt_job_new.py:225-248 | the aggregate of the table's statuses in table order; FailedJobsMeanError ties it to `failed_jobs` |
| AqtJob.Job.FailedJobs | qiskit_aqt_provider/aqt_job_new.py:180-188 | the failed entries of the table; FailedEntriesSpec states what they are |
| AqtJob.Job.CombinedResult | qiskit_aqt_provider/aqt_job_new.py:117-162 | the loop of `result` returns what `ResultOf` specifies for the current jobs |
| AqtJob.Job.ExperimentEntry | qiskit_aqt_provider/aqt_job_new.py:141-162 | one loop body of `result` builds the entry `Experiment` specifies |
| AqtJob.FailedEntriesSpec | qiskit_aqt_provider/aqt_job_new.py:180-188 | the failed jobs are exactly the ids whose entry failed, each once and mapped to its error text |
| AqtJob.FailedEntriesNonEmpty | qiskit_aqt_provider/aqt_job_new.py:180-188 | there are failed jobs iff some entry failed |
| AqtJob.FailedEntries | qiskit_aqt_provider/aqt_job_new.py:184-188 | the dict comprehension of `failed_jobs`; FailedEntriesSpec and FailedEntriesNonEmpty state what it holds |
| AqtJob.FailedJobsMeanError | qiskit_aqt_provider/aqt_job_new.py:180-188 | there are failed jobs iff the aggregate status is ERROR |
| ShotFormat.BuildMemoryMapping | qiskit_aqt_provider/aqt_job_new.py:300-308 | the nested loop builds the fold that sets `qu2cl[qubit] = clbit` for every zipped pair of every measure instruction, in order |
| ShotFormat.PutAllAppend | qiskit_aqt_provider/aqt_job_new.py:302-306 | assigning a list of pairs in two parts is assigning it at once |
| ShotFormat.PutAllKeys | qiskit_aqt_provider/aqt_job_new.py:305-306 | the keys after the assignments are the old keys plus every assigned qubit, each once |
| ShotFormat.PutAllDistinct | qiskit_aqt_provider/aqt_job_new.py:305-306 | assigning the pairs in order keeps every key once |
| ShotFormat.PutAllLastWins | qiskit_aqt_provider/aqt_job_new.py:305-306 | a key reads the value of its last assignment |
| ShotFormat.MemoryMappingKeys | qiskit_aqt_provider/aqt_job_new.py:300-308 | the mapping's keys are exactly the measured qubits, each once |
| ShotFormat.MemoryMappingLastWins | qiskit_aqt_provider/aqt_job_new.py:252-256 | a qubit maps to the clbit of its last measurement |
| ShotFormat.Measures | qiskit_aqt_provider/aqt_job_new.py:304 | the measure instructions, taken from the circuit |
| ShotFormat.MemoryMappingOnlyMeasures | qiskit_aqt_provider/aqt_job_new.py:304 | instructions other than measure contribute nothing |
| ShotFormat.MeasurePairsOnlyMeasures | qiskit_aqt_provider/aqt_job_new.py:304 | the measured pairs of a circuit are those of its measure instructions |
| ShotFormat.MeasurePairsStep | qiskit_aqt_provider/aqt_job_new.py:302-306 | one more instruction adds its zipped pairs when it is a measurement, nothing otherwise |
| ShotFormat.MeasurePairs | qiskit_aqt_provider/aqt_job_new.py:302-306 | the zipped (qubit, clbit) pairs of every measurement, in order; MeasurePairsStep and MeasurePairsOnlyMeasures state it |
| ShotFormat.MemoryMapping | qiskit_aqt_provider/aqt_job_new.py:300-308 | what `_build_memory_mapping` returns; MemoryMappingKeys and MemoryMappingLastWins state its meaning |
| ShotFormat.CrossedMeasurements | qiskit_aqt_provider/aqt_job_new.py:270-273 | measuring qubits 0, 1 into clbits 1, 0 gives {0: 1, 1: 0} |
| ShotFormat.InterleavedMeasurements | qiskit_aqt_provider/aqt_job_new.py:290-298 | x, measure q0 to c2, y, measure q1 to c1, x, measure q2 to c0 gives {0: 2, 1: 1, 2: 0} |
| ShotFormat.InterleavedPairs | qiskit_aqt_provider/aqt_job_new.py:290-298 | the measured pairs of that circuit, in order |
| ShotFormat.GatesBetweenMeasures | qiskit_aqt_provider/aqt_job_new.py:302-306 | gates between single measurements contribute nothing; the pairs are the measurements' in order |
| ShotFormat.Range | qiskit_aqt_provider/aqt_job_new.py:367 | `set(range(n))` holds exactly the naturals below n |
| ShotFormat.MaxOf | qiskit_aqt_provider/aqt_job_new.py:371 | `max` is in the list and no element exceeds it |
| ShotFormat.MapInBounds | qiskit_aqt_provider/aqt_job_new.py:367-374 | with the keys checked, every source index is a qubit and every destination fits the register |
| ShotFormat.ShotToInt | qiskit_aqt_provider/aqt_job_new.py:364-378 | the zero-filled array written in dict order packs to the specified shot value, or raises for a map whose keys are not the qubits |
| ShotFormat.NaturalShots | qiskit_aqt_provider/aqt_job_new.py:333-343 | [1] gives 1, [0, 0, 1] gives 4, and [0, 1, 1] with an empty map gives 6 |
| ShotFormat.SwappedShot | qiskit_aqt_provider/aqt_job_new.py:345-348 | swapping qubits 1 and 2 turns [0, 0, 1] into 2 |
| ShotFormat.PartialMapRejected | qiskit_aqt_provider/aqt_job_new.py:350-355 | a map missing qubit 0 raises ValueError |
| ShotFormat.WiderRegister | qiskit_aqt_provider/aqt_job_new.py:357-362 | [1] with {0: 1} gives 2 |
| ShotFormat.ShiftedRegister | qiskit_aqt_provider/aqt_job_new.py:361-362 | [0, 1, 1] with {0: 3, 1: 4, 2: 5} gives 0b110 << 3 |
| ShotFormat.KeysOfThree | qiskit_aqt_provider/aqt_job_new.py:367 | a three-item map on qubits 0, 1, 2 passes the key check |
| ShotFormat.MappedSumOfThree | qiskit_aqt_provider/aqt_job_new.py:373-378 | the positional sum of a three-item map |
| ShotFormat.RegisterValueUpdate | qiskit_aqt_provider/aqt_job_new.py:374-378 | writing one register bit changes the packed value by the change times its power of two |
| ShotFormat.RegisterValueZeros | qiskit_aqt_provider/aqt_job_new.py:371 | a zero register packs to 0 |
| ShotFormat.ScatterUntouched | qiskit_aqt_provider/aqt_job_new.py:373-374 | a register bit no item writes keeps its value |
| ShotFormat.ScatterValue | qiskit_aqt_provider/aqt_job_new.py:371-378 | with distinct destinations, the scattered register packs to the sum of `states[src] * 2^dest` |
| ShotFormat.ShotValueMapped | qiskit_aqt_provider/aqt_job_new.py:364-378 | a map over exactly the qubits with distinct destinations packs the shot into the sum of `states[src] * 2^dest` |
| ShotFormat.ShotValueBits | qiskit_aqt_provider/aqt_job_new.py:364-378 | without a map, a 0/1 shot packs below 2^n and bit i of the result is state i |
| ShotFormat.RegisterBits | qiskit_aqt_provider/aqt_job_new.py:378 | a 0/1 register packs below 2^n and has register bit i as bit i |
| ShotFormat.RegisterValue | qiskit_aqt_provider/aqt_job_new.py:378 | the positional sum `(1 << arange(n)) * creg`; RegisterBits and RegisterValueUpdate state its meaning |
| ShotFormat.Scatter | qiskit_aqt_provider/aqt_job_new.py:373-374 | the writes into the register, in dict order; the register keeps its length, and ScatterValue, ScatterUntouched and ScatterLastWins state what it holds |
| ShotFormat.ScatterLastWins | qiskit_aqt_provider/aqt_job_new.py:373-374 | a register bit holds the state of the last item that writes it |
| ShotFormat.Register | qiskit_aqt_provider/aqt_job_new.py:364-376 | the register `_shot_to_int` builds, or the key-check error; RegisterLastWrite states its bits |
| ShotFormat.RegisterLastWrite | qiskit_aqt_provider/aqt_job_new.py:364-376 | for any map the key check accepts, each register bit holds the state of the last qubit written to it in dict order |
| ShotFormat.OverlappingDestinations | qiskit_aqt_provider/aqt_job_new.py:366-374 | `{0: 0, 1: 0}` passes the key check for a two-qubit shot, and `[1, 0]` packs into 0, not the sum 1 |
| ShotFormat.ShotValue | qiskit_aqt_provider/aqt_job_new.py:364-378 | what `_shot_to_int` returns or raises; ShotValueMapped, ShotValueBits and OverlappingDestinations state its meaning |
| ShotFormat.HexDigits | qiskit_aqt_provider/aqt_job_new.py:407 | the hex digits are non-empty, lower-case hexadecimal, without a leading zero |
| ShotFormat.DigitRoundTrip | qiskit_aqt_provider/aqt_job_new.py:407 | each hex digit reads back its value |
| ShotFormat.HexDigitsRoundTrip | qiskit_aqt_provider/aqt_job_new.py:407 | the digits of n read back n |
| ShotFormat.FromHexOfDigits | qiskit_aqt_provider/aqt_job_new.py:407 | a "0x" or "-0x" prefix reads as the sign |
| ShotFormat.HexRoundTrip | qiskit_aqt_provider/aqt_job_new.py:407 | reading a `hex` key back gives the integer |
| ShotFormat.HexInjective | qiskit_aqt_provider/aqt_job_new.py:407 | two integers have the same key iff they are equal |
| ShotFormat.Hex | qiskit_aqt_provider/aqt_job_new.py:407 | Python's `hex`; HexRoundTrip and HexInjective state its meaning |
| ShotFormat.ShotValues | qiskit_aqt_provider/aqt_job_new.py:407 | packing every shot succeeds iff each shot packs, giving the values in order; failure is the map error |
| ShotFormat.SumAppend | qiskit_aqt_provider/aqt_job_new.py:407 | the total of counts grows by an appended count |
| ShotFormat.SumIncrement | qiskit_aqt_provider/aqt_job_new.py:407 | incrementing one count raises the total by one |
| ShotFormat.TallyKeys | qiskit_aqt_provider/aqt_job_new.py:407 | the `Counter` holds exactly the distinct keys, each once |
| ShotFormat.TallyCounts | qiskit_aqt_provider/aqt_job_new.py:407 | each key's count is the number of its occurrences |
| ShotFormat.TallySum | qiskit_aqt_provider/aqt_job_new.py:407 | the counts add up to the number of keys |
| ShotFormat.Tally | qiskit_aqt_provider/aqt_job_new.py:407 | `dict(Counter(keys))`; TallyKeys, TallyCounts and TallySum state its meaning |
| ShotFormat.FormatCounts | qiskit_aqt_provider/aqt_job_new.py:363-407 | the histogram exists iff every shot packs into a non-empty register; a bad map raises the map ValueError, and an empty shot without a map raises the TypeError `hex` raises for numpy's float zero |
| ShotFormat.FormatCountsKeys | qiskit_aqt_provider/aqt_job_new.py:381-407 | the keys are exactly the `hex` strings of the shots' packed values, each once |
| ShotFormat.FormatCountsTally | qiskit_aqt_provider/aqt_job_new.py:381-407 | each key counts the shots packing to it, and the counts add up to the number of shots |
| ShotFormat.CountsExample | qiskit_aqt_provider/aqt_job_new.py:401-402 | [[1,0,0],[0,1,0],[1,0,0]] gives {'0x1': 2, '0x2': 1} |
| ShotFormat.MappedCountsExample | qiskit_aqt_provider/aqt_job_new.py:404-405 | the same shots with {0: 2, 1: 1, 2: 0} give {'0x4': 2, '0x2': 1} |
| ShotFormat.EmptyShotRejected | qiskit_aqt_provider/aqt_job_new.py:376-407 | `[[]]` without a map, and an empty shot beside `[1]` under `{}`, raise TypeError, although the empty shot's packed value alone is 0 |
| ShotFormat.ReversedShots | qiskit_aqt_provider/aqt_job_new.py:404-405 | under the reversing map, [1,0,0] packs to 4 and [0,1,0] to 2 |
| ShotFormat.SmallHex | qiskit_aqt_provider/aqt_job_new.py:401-405 | `hex` of 1, 2 and 4 |
| ShotFormat.TallyOfThree | qiskit_aqt_provider/aqt_job_new.py:401-402 | counting a, b, a gives a: 2 then b: 1, in first-seen order |
| Registry.FilterMembers | qiskit_aqt_provider/aqt_provider.py:172-173 | a backend is kept iff it is in the list and satisfies the predicate |
| Registry.FilterNone | qiskit_aqt_provider/aqt_provider.py:172-173 | a predicate no backend satisfies keeps nothing |
| Registry.FilterAppend | qiskit_aqt_provider/aqt_provider.py:172-173 | filtering keeps the original order |
| Registry.FilterTwice | qiskit_aqt_provider/aqt_provider.py:171-175 | the name pre-filter followed by `filter_backends` is one filter by both |
| Registry.FilterAll | qiskit_aqt_provider/aqt_provider.py:175 | a filter that keeps everything leaves the list unchanged |
| Registry.FilterOnly | qiskit_aqt_provider/aqt_provider.py:172-173 | a name that only one backend carries selects just that backend |
| Registry.Filter | qiskit_aqt_provider/aqt_provider.py:172-173 | the list comprehension with a condition; FilterMembers and FilterAppend state its meaning |
| Registry.NamePrefilter | qiskit_aqt_provider/aqt_provider.py:170-173 | the whole list for a None or empty name, otherwise the backends of that name; CallAll and CallByName state its effect |
| Registry.BindKeys | qiskit_aqt_provider/aqt_provider.py:156-157 | one attribute is bound per backend name, and no other |
| Registry.BindLastWins | qiskit_aqt_provider/aqt_provider.py:156-157 | a name is bound to the last backend carrying it |
| Registry.Bind | qiskit_aqt_provider/aqt_provider.py:156-157 | the attributes the `setattr` loop binds; BindKeys and BindLastWins state its meaning |
| Registry.BackendService.constructor | qiskit_aqt_provider/aqt_provider.py:149-157 | the list is stored unchanged and the attributes are bound in list order |
| Registry.BackendService.CallAll | qiskit_aqt_provider/aqt_provider.py:170-175 | with a None or empty name and nothing filtered out, the listing is the stored list in order |
| Registry.BackendService.CallByName | qiskit_aqt_provider/aqt_provider.py:171-175 | with a name, the listing is exactly the backends of that name the filter keeps, in order |
| Registry.BackendService.CallAbsentName | qiskit_aqt_provider/aqt_provider.py:171-173 | a name no backend has lists nothing |
| Registry.BackendService.AttributeMatchesCall | qiskit_aqt_provider/aqt_provider.py:155-175 | with distinct names, a backend's attribute is that backend, and so is the only backend listed by its name |
| Registry.BackendService.Call | qiskit_aqt_provider/aqt_provider.py:159-175 | `__call__`; CallAll, CallByName and CallAbsentName state its meaning |
| Registry.Unique | qiskit_aqt_provider/aqt_provider.py:128-134 | `get_backend` returns the listing's only backend, raising one error for more than one and another for none |
| AqtProvider.PortalUrlBase | qiskit_aqt_provider/aqt_provider.py:63-67 | the portal URL ends in "/api/v1"; before it comes a non-empty `AQT_PORTAL_URL`, or else the default portal |
| AqtProvider.PortalUrl | qiskit_aqt_provider/aqt_provider.py:63-67 | the portal URL `__init__` stores; PortalUrlBase states its form |
| AqtProvider.ResolveToken | qiskit_aqt_provider/aqt_provider.py:68-74 | the token is the argument when given, else `AQT_TOKEN` even when empty, else the no-token ValueError |
| AqtProvider.CatalogNamesDistinct | qiskit_aqt_provider/aqt_provider.py:78-81 | the four registered backends have distinct, non-empty names |
| AqtProvider.Catalog | qiskit_aqt_provider/aqt_provider.py:78-81 | the four backends `__init__` registers, with the names of qiskit_aqt_provider/aqt_backend.py:34, 132, 230 and 325; CatalogNamesDistinct states they are distinct |
| AqtProvider.Provider.constructor | qiskit_aqt_provider/aqt_provider.py:61-81 | the URL and token are stored, the name is "aqt_provider", and the service holds the four backends |
| AqtProvider.Provider.Create | qiskit_aqt_provider/aqt_provider.py:61-81 | a provider exists iff a token resolves; its URL, token, name and backends are as resolved |
| AqtProvider.Provider.StrForm | qiskit_aqt_provider/aqt_provider.py:75-87 | the string form is `<AQTProvider(name=aqt_provider)>` and repr equals it |
| AqtProvider.Provider.EqualsAnyProvider | qiskit_aqt_provider/aqt_provider.py:136-141 | any two providers compare equal whatever their tokens, URLs or backends, and an object whose class has another name never does |
| AqtProvider.Provider.EqualsLegacyProvider | qiskit_aqt_provider/aqt_provider.py:136-141 | a provider of the older package, whose class is also named AQTProvider, compares equal too |
| AqtProvider.Provider.GetBackend | qiskit_aqt_provider/aqt_provider.py:117-134 | a backend is returned iff exactly one is listed; more than one raises one error and none raises another |
| AqtProvider.Provider.GetBackendByName | qiskit_aqt_provider/aqt_provider.py:128-134 | every catalog name returns its backend, which its attribute holds too |
| AqtProvider.Provider.GetBackendNoName | qiskit_aqt_provider/aqt_provider.py:128-130 | asking with no name matches all four backends, which raises the more-than-one error |
| AqtProvider.Provider.GetBackendUnknown | qiskit_aqt_provider/aqt_provider.py:131-132 | a name outside the catalog raises the no-match error |
| AqtProvider.FirstWorkspace | qiskit_aqt_provider/aqt_provider.py:99-104 | the first workspace whose id matches, or none when no workspace matches |
| AqtProvider.FirstResource | qiskit_aqt_provider/aqt_provider.py:108-113 | the first resource whose id matches, or none when no resource matches |
| AqtProvider.ResourceLookupFound | qiskit_aqt_provider/aqt_provider.py:96-115 | given the first matching workspace, the lookup succeeds iff it lists the resource; it then returns the first such resource under the workspace id; otherwise the missing-resource ValueError |
| AqtProvider.ResourceLookupNoWorkspace | qiskit_aqt_provider/aqt_provider.py:103-104 | no workspace with the id raises the not-accessible ValueError |
| AqtProvider.MissingResourcesKey | qiskit_aqt_provider/aqt_provider.py:106 | a workspace without a "resources" key has no resources |
| AqtProvider.LaterWorkspaceShadowed | qiskit_aqt_provider/aqt_provider.py:99-102 | only the first workspace with the id is searched |
| AqtProvider.Provider.GetResource | qiskit_aqt_provider/aqt_provider.py:96-115 | the two search loops with `break` return what the lookup specifies |
| AqtProvider.ResourceLookupAt | qiskit_aqt_provider/aqt_provider.py:99-102 | the workspace where the search loop stops is the first match |
| AqtProvider.ResourceAt | qiskit_aqt_provider/aqt_provider.py:108-111 | the resource where the search loop stops is the first match |
| AqtProvider.ResourceLookup | qiskit_aqt_provider/aqt_provider.py:96-115 | what `get_resource` returns or raises for a list of workspaces; ResourceLookupFound, ResourceLookupNoWorkspace and LaterWorkspaceShadowed state its meaning |
| LegacyAqtProvider.CatalogNamesDistinct | qiskit/providers/aqt/aqt_provider.py:30-33 | the four assumed backend names are distinct and non-empty |
| LegacyAqtProvider.Catalog | qiskit/providers/aqt/aqt_provider.py:30-33 | the four backends `__init__` registers, under assumed names; CatalogNamesDistinct states they are distinct |
| LegacyAqtProvider.Provider.constructor | qiskit/providers/aqt/aqt_provider.py:24-33 | the token is stored unchanged, the name is "aqt_provider", and the service holds the four backends in order |
| LegacyAqtProvider.Provider.StrForm | qiskit/providers/aqt/aqt_provider.py:35-39 | the string form is `<AQTProvider(name=aqt_provider)>` and repr equals it |
| LegacyAqtProvider.Provider.ListAll | qiskit/providers/aqt/aqt_provider.py:68-73 | with no name, the listing is all four backends in registration order |
| LegacyAqtProvider.Provider.ListByName | qiskit/providers/aqt/aqt_provider.py:47-71 | each catalog name lists just its backend, which is also its attribute |
| LegacyAqtProvider.Provider.ListInnsbruck | qiskit/providers/aqt/aqt_provider.py:69-71 | "aqt_innsbruck" lists the one device of the assumed catalog |
| LegacyAqtProvider.Provider.ListUnknown | qiskit/providers/aqt/aqt_provider.py:69-71 | a name outside the catalog leaves no candidates |
| Grover3Sat.FormatBitstring | examples/grover-3-sat.py:49-62 | succeeds iff every character is a digit; the tuple has the input's length, and element i is true iff character len-1-i is not '0' |
| Grover3Sat.FormatError | examples/grover-3-sat.py:62 | a non-digit raises ValueError, and the reported character is the last non-digit |
| Grover3Sat.ToBitstring | examples/grover-3-sat.py:52-54 | the inverse writes the booleans MSB first |
| Grover3Sat.FormatToBitstring | examples/grover-3-sat.py:52-62 | formatting the string of any tuple gives the tuple back |
| Grover3Sat.ToFormatBitstring | examples/grover-3-sat.py:52-62 | a 0/1 string is the string of its own formatting |
| Grover3Sat.FormatExample110 | examples/grover-3-sat.py:56-57 | "110" gives (False, True, True) |
| Grover3Sat.FormatExample001 | examples/grover-3-sat.py:59-60 | "001" gives (True, False, False) |
| Grover3Sat.FormatRejects | examples/grover-3-sat.py:62 | "a1b" reports 'b', the last bad character |
| Dicts.PutKeys | qiskit_aqt_provider/aqt_job_new.py:203 | `d[k] = v` adds `k` to the keys; an existing key keeps its position and a new one is appended |
| Dicts.PutGet | qiskit_aqt_provider/aqt_job_new.py:203 | after `d[k] = v`, `k` reads `v` and every other key reads what it read before |
| Dicts.PutDistinct | qiskit_aqt_provider/aqt_job_new.py:203 | `d[k] = v` keeps every key once |
| Dicts.IndexOf | qiskit_aqt_provider/aqt_job_new.py:203 | the position of a key is its first occurrence |

## Left out

- Threads and the lock: `status()` queries the API jobs from a thread pool, and the dict
  updates run under a lock. The model has one caller, so each `StatusSingle` call is one
  locked update.
- `wait_for_final_state` in `result()` is left out. `CombinedResult` reads the jobs as they are.
- `Result.from_dict`, `backend_name`, `backend_version`, `qobj_id` (`id(...)`), the job id
  (`uuid4`) and the circuit metadata header are not modelled. `result()` is modelled up to
  the list of per-circuit entries it passes to `Result.from_dict`.
- I/O:
  - the ids `backend.submit` returns are the parameter `backendIds` of `Submit`;
  - the answer of `backend.result` is the parameter `response` of `StatusSingle`;
  - the workspace list returned by `workspaces()` (an HTTP GET) is a parameter of `GetResource`;
  - `os.environ` is a map parameter of `Create`.
- Float arithmetic: angles are exact multiples of pi (`Angle(overPi)`), so `params[0] / pi`,
  `float(...)` and the legacy `exponent == 1.0` test carry no rounding.
- ShotValue: numpy's 64-bit wrap-around of `np.left_shift` and of the sum is not modelled.
  Values are unbounded integers, which agrees with numpy only while the register has fewer
  than 63 bits.
  For an empty register the source returns `numpy.float64(0.0)`; ShotValue returns the integer 0,
  and FormatCounts raises the TypeError that `hex` raises on that float.
- ShotToInt: the same 64-bit wrap-around is not modelled.
- ShotValueMapped: the sum `states[src] * 2^dest` is promised only for maps that send no two
  qubits to the same classical bit. The key check at line 367 accepts any map that covers every
  qubit. For such a map with a repeated destination, the register bit gets the later write in
  dict order (RegisterLastWrite, OverlappingDestinations).
- test/test_circuit_to_aqt_new.py calls `circuit_to_aqt_new(qc)` without `shots`. That
  signature has no default, so those calls raise TypeError. The test lemmas (EmptyCircuitRejected,
  MeasureOnlyCircuit, HAndRxRejected, TwoRzCircuit) supply 100, the repetitions the tests expect.
- `filter_backends` (Qiskit) is not part of this model. It is a predicate `keep` that the
  listing applies after the name pre-filter, fixed per backend. Qiskit's `filter_backends`
  decides whether a keyword filters on configuration or on status by looking at the list it
  is given, so what it keeps can depend on that list; the model does not capture this.
- Backends are values (`Backend(name, kind)`); their back-reference to the provider and
  their configuration are not modelled.
- `qiskit/providers/aqt/aqt_backend.py`, which names the older package's backends, is not part
  of this model. The four legacy names (`aqt_qasm_simulator`, `aqt_qasm_simulator_noise_1`,
  `aqt_innsbruck`, `aqt_imst_ibex`) are assumed, not read from the code. ListAll, ListByName,
  ListInnsbruck and LegacyAqtProvider.CatalogNamesDistinct hold for that assumed catalog.
- `get_resource` returns `AQTResource(self, workspace_id, resource)`, whose constructor reads
  `resource["name"]` and raises KeyError when it is missing. That constructor is not part of
  this model: `GetResource` returns the `ResourceHandle` whatever the resource record holds.
- `setattr` is modelled as a name-to-backend map. A backend name that collides with an
  attribute of the service itself (`_backends`, `__call__`) is not modelled.
- `JobStatus.INITIALIZING` and `JobStatus.VALIDATING` are never produced by this code and are
  not modelled. Of Qiskit's `JobStatus`, only the names the code uses are modelled.
- The API's `JobCancelled` tag is never produced by `_status_single`; it is modelled as a tag
  with status CANCELLED.
- `int()` on a non-ASCII Unicode digit (which Python accepts) is not modelled in
  `FormatBitstring`; only '0'-'9' count as digits.
- The transpiler plugin, the shot-limit guard in the backend and the generated API models are
  not part of this model.
- The `json.dumps` of the legacy sequence is not modelled. `circuit_to_aqt` returns the
  operation list itself as `data`.
