/**
 * Decoding the shots an AQT job returns: the qubit to classical-bit memory mapping read off the
 * circuit's measurements, the packing of one shot into an integer, and the histogram of all shots
 * under hexadecimal keys.
 */
module ShotFormat {
  import opened Outcomes
  import opened Dicts
  import opened Circuits

  // ---------------------------------------------------------------------------------------------
  // _build_memory_mapping
  // ---------------------------------------------------------------------------------------------

  function Min(a: nat, b: nat): nat { if a <= b then a else b }

  /** `zip(instruction.qubits, instruction.clbits)`, as (qubit index, clbit index) pairs. */
  function ZipIndices(inst: Instruction): seq<(nat, nat)>
  {
    seq(Min(|inst.qubits|, |inst.clbits|), k requires 0 <= k < Min(|inst.qubits|, |inst.clbits|) =>
      (inst.qubits[k].index, inst.clbits[k].index))
  }

  /** The (qubit, clbit) pairs of every measure instruction, in circuit order. */
  function MeasurePairs(data: seq<Instruction>): seq<(nat, nat)>
  {
    if data == [] then []
    else
      var last := data[|data| - 1];
      MeasurePairs(data[..|data| - 1]) + (if last.name == "measure" then ZipIndices(last) else [])
  }

  /** `d[q] = c` for each pair (q, c), in order. */
  function PutAll(d: Items<nat, nat>, pairs: seq<(nat, nat)>): Items<nat, nat>
  {
    if pairs == [] then d
    else Put(PutAll(d, pairs[..|pairs| - 1]), pairs[|pairs| - 1].0, pairs[|pairs| - 1].1)
  }

  /** The dict `_build_memory_mapping` returns for a circuit with instructions `data`. */
  function MemoryMapping(data: seq<Instruction>): Items<nat, nat>
  {
    PutAll([], MeasurePairs(data))
  }

  lemma {:induction false} PutAllAppend(d: Items<nat, nat>, a: seq<(nat, nat)>, b: seq<(nat, nat)>)
    ensures PutAll(d, a + b) == PutAll(PutAll(d, a), b)
  {
    if b == [] {
      assert a + b == a;
    } else {
      var init := b[..|b| - 1];
      assert (a + b)[..|a + b| - 1] == a + init;
      PutAllAppend(d, a, init);
    }
  }

  /** The nested loop of `_build_memory_mapping`, which fills `qu2cl` in place. */
  method BuildMemoryMapping(circuit: Circuit) returns (qu2cl: Items<nat, nat>)
    ensures qu2cl == MemoryMapping(circuit.data)
  {
    qu2cl := [];
    for i := 0 to |circuit.data|
      invariant qu2cl == PutAll([], MeasurePairs(circuit.data[..i]))
    {
      var inst := circuit.data[i];
      assert circuit.data[..i + 1][..i] == circuit.data[..i];
      if inst.name == "measure" {
        ghost var before := qu2cl;
        ghost var pairs := ZipIndices(inst);
        for j := 0 to Min(|inst.qubits|, |inst.clbits|)
          invariant qu2cl == PutAll(before, pairs[..j])
        {
          assert pairs[..j + 1][..j] == pairs[..j];
          qu2cl := Put(qu2cl, inst.qubits[j].index, inst.clbits[j].index);
        }
        assert pairs[..|pairs|] == pairs;
        PutAllAppend([], MeasurePairs(circuit.data[..i]), pairs);
      } else {
        assert MeasurePairs(circuit.data[..i]) + [] == MeasurePairs(circuit.data[..i]);
      }
    }
    assert circuit.data[..|circuit.data|] == circuit.data;
  }

  lemma {:induction false} PutAllKeys(d: Items<nat, nat>, pairs: seq<(nat, nat)>)
    ensures Keys(PutAll(d, pairs)) == Keys(d) + set p | p in pairs :: p.0
    ensures DistinctKeys(d) ==> DistinctKeys(PutAll(d, pairs))
  {
    if pairs != [] {
      var init := pairs[..|pairs| - 1];
      var last := pairs[|pairs| - 1];
      var before := PutAll(d, init);
      assert PutAll(d, pairs) == Put(before, last.0, last.1);
      PutAllKeys(d, init);
      PutKeys(before, last.0, last.1);
      assert (set p | p in pairs :: p.0) == (set p | p in init :: p.0) + {last.0} by {
        assert pairs == init + [last];
      }
    }
    if DistinctKeys(d) {
      PutAllDistinct(d, pairs);
    }
  }

  /** The assignments keep every key once. */
  lemma {:induction false} PutAllDistinct(d: Items<nat, nat>, pairs: seq<(nat, nat)>)
    requires DistinctKeys(d)
    ensures DistinctKeys(PutAll(d, pairs))
  {
    if pairs != [] {
      var last := pairs[|pairs| - 1];
      PutAllDistinct(d, pairs[..|pairs| - 1]);
      PutDistinct(PutAll(d, pairs[..|pairs| - 1]), last.0, last.1);
    }
  }

  /**
   * The value stored for a key is the clbit of the last pair with that key: a later measurement
   * of the same qubit overrides an earlier one.
   */
  lemma {:induction false} PutAllLastWins(d: Items<nat, nat>, pairs: seq<(nat, nat)>, k: nat)
    requires k < |pairs|
    requires forall j :: k < j < |pairs| ==> pairs[j].0 != pairs[k].0
    ensures pairs[k].0 in Keys(PutAll(d, pairs)) && Get(PutAll(d, pairs), pairs[k].0) == pairs[k].1
  {
    var init := pairs[..|pairs| - 1];
    var last := pairs[|pairs| - 1];
    PutGet(PutAll(d, init), last.0, last.1);
    if k < |pairs| - 1 {
      assert init[k] == pairs[k];
      PutAllLastWins(d, init, k);
    }
  }

  /** The mapping holds exactly the measured qubits and, as every dict, each of them once. */
  lemma MemoryMappingKeys(data: seq<Instruction>)
    ensures Keys(MemoryMapping(data)) == set p | p in MeasurePairs(data) :: p.0
    ensures DistinctKeys(MemoryMapping(data))
  {
    PutAllKeys([], MeasurePairs(data));
  }

  /** A qubit is mapped to the clbit of its last measurement. */
  lemma MemoryMappingLastWins(data: seq<Instruction>, k: nat)
    requires k < |MeasurePairs(data)|
    requires forall j :: k < j < |MeasurePairs(data)| ==> MeasurePairs(data)[j].0 != MeasurePairs(data)[k].0
    ensures var m := MemoryMapping(data); var p := MeasurePairs(data)[k];
            p.0 in Keys(m) && Get(m, p.0) == p.1
  {
    PutAllLastWins([], MeasurePairs(data), k);
  }

  /** The measure instructions of `data`, in order. */
  function Measures(data: seq<Instruction>): (r: seq<Instruction>)
    ensures forall inst :: inst in r ==> inst in data && inst.name == "measure"
  {
    if data == [] then []
    else Measures(data[..|data| - 1]) + (if data[|data| - 1].name == "measure" then [data[|data| - 1]] else [])
  }

  /** Instructions other than `measure` contribute nothing to the mapping. */
  lemma {:induction false} MemoryMappingOnlyMeasures(data: seq<Instruction>)
    ensures MemoryMapping(Measures(data)) == MemoryMapping(data)
  {
    MeasurePairsOnlyMeasures(data);
  }

  lemma {:induction false} MeasurePairsOnlyMeasures(data: seq<Instruction>)
    ensures MeasurePairs(Measures(data)) == MeasurePairs(data)
  {
    if data != [] {
      var init := data[..|data| - 1];
      var last := data[|data| - 1];
      MeasurePairsOnlyMeasures(init);
      if last.name == "measure" {
        var ms := Measures(init) + [last];
        assert ms[..|ms| - 1] == Measures(init);
      } else {
        assert Measures(data) == Measures(init);
      }
    }
  }

  /** `qc.measure([0, 1], [1, 0])` maps qubit 0 to clbit 1 and qubit 1 to clbit 0. */
  lemma CrossedMeasurements()
    ensures MemoryMapping([Measure(Bit("q", 0), Bit("c", 1)), Measure(Bit("q", 1), Bit("c", 0))])
         == [(0, 1), (1, 0)]
  {
    var m0, m1 := Measure(Bit("q", 0), Bit("c", 1)), Measure(Bit("q", 1), Bit("c", 0));
    assert ZipIndices(m0) == [(0, 1)] && ZipIndices(m1) == [(1, 0)];
    var d: seq<Instruction> := [];
    MeasurePairsStep(d, m0);
    var d1 := d + [m0];
    MeasurePairsStep(d1, m1);
    assert d1 + [m1] == [m0, m1];
    var pairs: seq<(nat, nat)> := [(0, 1), (1, 0)];
    assert pairs[..1] == [(0, 1)] && pairs[..1][..0] == [];
    assert PutAll([], pairs[..1]) == [(0, 1)];
  }

  /**
   * Gates interleaved with single measurements: qubit 0 measured into clbit 2, qubit 1 into
   * clbit 1 and qubit 2 into clbit 0.
   */
  lemma InterleavedMeasurements()
    ensures MemoryMapping([Instruction("x", [], [Bit("q", 0)], []), Measure(Bit("q", 0), Bit("c", 2)),
                           Instruction("y", [], [Bit("q", 1)], []), Measure(Bit("q", 1), Bit("c", 1)),
                           Instruction("x", [], [Bit("q", 2)], []), Measure(Bit("q", 2), Bit("c", 0))])
         == [(0, 2), (1, 1), (2, 0)]
  {
    InterleavedPairs();
    var pairs: seq<(nat, nat)> := [(0, 2), (1, 1), (2, 0)];
    assert pairs[..2] == [(0, 2), (1, 1)] && pairs[..2][..1] == [(0, 2)] && pairs[..1][..0] == [];
    assert PutAll([], pairs[..1]) == [(0, 2)];
    assert PutAll([], pairs[..2]) == [(0, 2), (1, 1)];
  }

  lemma InterleavedPairs()
    ensures MeasurePairs([Instruction("x", [], [Bit("q", 0)], []), Measure(Bit("q", 0), Bit("c", 2)),
                          Instruction("y", [], [Bit("q", 1)], []), Measure(Bit("q", 1), Bit("c", 1)),
                          Instruction("x", [], [Bit("q", 2)], []), Measure(Bit("q", 2), Bit("c", 0))])
         == [(0, 2), (1, 1), (2, 0)]
  {
    GatesBetweenMeasures(Instruction("x", [], [Bit("q", 0)], []), Instruction("y", [], [Bit("q", 1)], []),
                         Instruction("x", [], [Bit("q", 2)], []), Bit("q", 0), Bit("q", 1), Bit("q", 2),
                         Bit("c", 2), Bit("c", 1), Bit("c", 0));
  }

  /** Three gates, each followed by one measurement, contribute the three measured pairs in order. */
  lemma GatesBetweenMeasures(g0: Instruction, g1: Instruction, g2: Instruction, q0: Bit, q1: Bit, q2: Bit,
                             c0: Bit, c1: Bit, c2: Bit)
    requires g0.name != "measure" && g1.name != "measure" && g2.name != "measure"
    ensures MeasurePairs([g0, Measure(q0, c0), g1, Measure(q1, c1), g2, Measure(q2, c2)])
         == [(q0.index, c0.index), (q1.index, c1.index), (q2.index, c2.index)]
  {
    var m0, m1, m2 := Measure(q0, c0), Measure(q1, c1), Measure(q2, c2);
    assert ZipIndices(m0) == [(q0.index, c0.index)];
    assert ZipIndices(m1) == [(q1.index, c1.index)];
    assert ZipIndices(m2) == [(q2.index, c2.index)];
    var d1: seq<Instruction> := [g0];
    assert MeasurePairs(d1) == [] by { MeasurePairsStep([], g0); assert [] + [g0] == d1; }
    var d2 := d1 + [m0];
    MeasurePairsStep(d1, m0);
    var d3 := d2 + [g1];
    MeasurePairsStep(d2, g1);
    var d4 := d3 + [m1];
    MeasurePairsStep(d3, m1);
    var d5 := d4 + [g2];
    MeasurePairsStep(d4, g2);
    MeasurePairsStep(d5, m2);
    assert d5 + [m2] == [g0, m0, g1, m1, g2, m2];
  }

  /** Appending one instruction appends its pairs when it is a measurement, and nothing otherwise. */
  lemma MeasurePairsStep(data: seq<Instruction>, inst: Instruction)
    ensures MeasurePairs(data + [inst]) == MeasurePairs(data) + (if inst.name == "measure" then ZipIndices(inst) else [])
  {
    assert (data + [inst])[..|data|] == data;
  }

  // ---------------------------------------------------------------------------------------------
  // _shot_to_int
  // ---------------------------------------------------------------------------------------------

  function Pow2(n: nat): (r: nat)
    ensures r >= 1
  {
    if n == 0 then 1 else 2 * Pow2(n - 1)
  }

  /** `(np.left_shift(1, np.arange(len(creg))) * creg).sum()`, the sum of `creg[i] * 2^i`. */
  function RegisterValue(creg: seq<int>): int
  {
    if creg == [] then 0 else creg[0] + 2 * RegisterValue(creg[1..])
  }

  /** `set(range(n))` */
  function Range(n: nat): (r: set<nat>)
    ensures forall i: nat :: i in r <==> i < n
  {
    if n == 0 then {} else Range(n - 1) + {n - 1}
  }

  /** `max(values)` of a non-empty list. */
  function MaxOf(s: seq<nat>): (m: nat)
    requires s != []
    ensures m in s && forall x :: x in s ==> x <= m
  {
    if |s| == 1 then s[0]
    else
      var rest := MaxOf(s[1..]);
      assert forall x :: x in s ==> x == s[0] || x in s[1..];
      if s[0] >= rest then s[0] else rest
  }

  /** `[0] * n` */
  function Zeros(n: nat): seq<int>
  {
    seq(n, _ => 0)
  }

  /** The error `_shot_to_int` raises for a map whose keys are not exactly the shot's qubits. */
  const NotInjective := ValueError("Map must be injective.")

  /** `creg[dest_index] = fluorescence_states[src_index]` for each item, in dict order. */
  function Scatter(creg: seq<int>, items: Items<nat, nat>, states: seq<int>): (r: seq<int>)
    requires forall i :: 0 <= i < |items| ==> items[i].0 < |states| && items[i].1 < |creg|
    ensures |r| == |creg|
  {
    if items == [] then creg
    else
      var last := items[|items| - 1];
      Scatter(creg, items[..|items| - 1], states)[last.1 := states[last.0]]
  }

  /** Every item of a map with keys `0..n-1` reads a state, and every value is below `max(values) + 1`. */
  lemma MapInBounds(tr: Items<nat, nat>, n: nat)
    requires tr != [] && Keys(tr) == Range(n)
    ensures forall i :: 0 <= i < |tr| ==> tr[i].0 < n && tr[i].1 < MaxOf(Values(tr)) + 1
  {
    forall i | 0 <= i < |tr| ensures tr[i].0 < n && tr[i].1 < MaxOf(Values(tr)) + 1 {
      assert tr[i].0 in Keys(tr);
      assert Values(tr)[i] == tr[i].1;
      assert tr[i].1 in Values(tr);
    }
  }

  /** The classical register `_shot_to_int` builds from one shot, or the error it raises. */
  function Register(states: seq<int>, qubitToBit: Option<Items<nat, nat>>): Result<seq<int>>
  {
    if qubitToBit.None? || qubitToBit.value == [] then Ok(states)
    else if Keys(qubitToBit.value) != Range(|states|) then Err(NotInjective)
    else
      var tr := qubitToBit.value;
      MapInBounds(tr, |states|);
      Ok(Scatter(Zeros(MaxOf(Values(tr)) + 1), tr, states))
  }

  /** The integer `_shot_to_int` returns for one shot, or the error it raises. */
  function ShotValue(states: seq<int>, qubitToBit: Option<Items<nat, nat>>): Result<int>
  {
    match Register(states, qubitToBit)
    case Ok(creg) => Ok(RegisterValue(creg))
    case Err(e) => Err(e)
  }

  /** `_shot_to_int`, which zero-fills the classical register and writes into it. */
  method ShotToInt(states: seq<int>, qubitToBit: Option<Items<nat, nat>>) returns (r: Result<int>)
    ensures r == ShotValue(states, qubitToBit)
  {
    var trMap: Items<nat, nat> := if qubitToBit.Some? then qubitToBit.value else [];
    var creg: seq<int>;
    if trMap != [] {
      if Keys(trMap) != Range(|states|) {
        return Err(NotInjective);
      }
      MapInBounds(trMap, |states|);
      var reg := new int[MaxOf(Values(trMap)) + 1](_ => 0);
      assert reg[..] == Zeros(reg.Length);
      for j := 0 to |trMap|
        invariant reg[..] == Scatter(Zeros(reg.Length), trMap[..j], states)
      {
        assert trMap[..j + 1][..j] == trMap[..j];
        var (src, dest) := trMap[j];
        reg[dest] := states[src];
      }
      assert trMap[..|trMap|] == trMap;
      creg := reg[..];
    } else {
      creg := states;
    }
    return Ok(RegisterValue(creg));
  }

  /** The examples of `_shot_to_int` without a map: `[1]`, `[0, 0, 1]` and `[0, 1, 1]` pack into 1, 4 and 6. */
  lemma NaturalShots()
    ensures ShotValue([1], None) == Ok(1)
    ensures ShotValue([0, 0, 1], None) == Ok(4)
    ensures ShotValue([0, 1, 1], Some([])) == Ok(6)
  {
    assert [1][1..] == [];
    assert [0, 0, 1][1..] == [0, 1] && [0, 1][1..] == [1];
    assert [0, 1, 1][1..] == [1, 1] && [1, 1][1..] == [1];
  }

  lemma KeysOfThree(tr: Items<nat, nat>)
    requires |tr| == 3 && tr[0].0 == 0 && tr[1].0 == 1 && tr[2].0 == 2
    ensures Keys(tr) == Range(3)
  {
    assert Keys(tr) == {0, 1, 2} by {
      assert tr[0].0 in Keys(tr) && tr[1].0 in Keys(tr) && tr[2].0 in Keys(tr);
    }
    assert Range(3) == {0, 1, 2};
  }

  lemma MappedSumOfThree(tr: Items<nat, nat>, states: seq<int>)
    requires |tr| == 3 && tr[0].0 < |states| && tr[1].0 < |states| && tr[2].0 < |states|
    ensures MappedSum(tr, states)
         == states[tr[0].0] * Pow2(tr[0].1) + states[tr[1].0] * Pow2(tr[1].1) + states[tr[2].0] * Pow2(tr[2].1)
  {
    var t1, t2 := tr[..2][..1], tr[..2];
    assert t1[..0] == [] && t2[..1] == t1 && tr[..2] == t2;
    assert t1[0] == tr[0] && t2[1] == tr[1];
    assert MappedSum(t1, states) == states[tr[0].0] * Pow2(tr[0].1);
    assert MappedSum(t2, states) == MappedSum(t1, states) + states[tr[1].0] * Pow2(tr[1].1);
  }

  /** Swapping qubits 1 and 2 sends `[0, 0, 1]` to 2. */
  lemma SwappedShot()
    ensures ShotValue([0, 0, 1], Some([(0, 0), (1, 2), (2, 1)])) == Ok(2)
  {
    var tr: Items<nat, nat> := [(0, 0), (1, 2), (2, 1)];
    KeysOfThree(tr);
    assert DistinctValues(tr);
    ShotValueMapped([0, 0, 1], tr);
    MappedSumOfThree(tr, [0, 0, 1]);
    assert Pow2(1) == 2;
  }

  /** A map that misses qubit 0 of a three-qubit shot raises ValueError. */
  lemma PartialMapRejected()
    ensures ShotValue([0, 0, 1], Some([(1, 2), (2, 1)])) == Err(NotInjective)
  {
    var tr: Items<nat, nat> := [(1, 2), (2, 1)];
    assert 0 !in Keys(tr);
    assert 0 in Range(3);
  }

  /** The classical register can be larger than the shot: `[1]` with `{0: 1}` packs into 2. */
  lemma WiderRegister()
    ensures ShotValue([1], Some([(0, 1)])) == Ok(2)
  {
    var tr: Items<nat, nat> := [(0, 1)];
    assert Keys(tr) == {0} == Range(1);
    ShotValueMapped([1], tr);
  }

  /** `[0, 1, 1]` with `{0: 3, 1: 4, 2: 5}` is `0b110 << 3`. */
  lemma ShiftedRegister()
    ensures ShotValue([0, 1, 1], Some([(0, 3), (1, 4), (2, 5)])) == Ok(48)
  {
    var tr: Items<nat, nat> := [(0, 3), (1, 4), (2, 5)];
    KeysOfThree(tr);
    assert DistinctValues(tr);
    ShotValueMapped([0, 1, 1], tr);
    MappedSumOfThree(tr, [0, 1, 1]);
    assert Pow2(4) == 16 && Pow2(5) == 32;
    assert MappedSum(tr, [0, 1, 1]) == 48;
  }

  /** Writing `x` into bit `d` of the register changes its value by `(x - creg[d]) * 2^d`. */
  lemma {:induction false} RegisterValueUpdate(creg: seq<int>, d: nat, x: int)
    requires d < |creg|
    ensures RegisterValue(creg[d := x]) == RegisterValue(creg) + (x - creg[d]) * Pow2(d)
  {
    if d == 0 {
      assert creg[d := x][1..] == creg[1..];
    } else {
      assert creg[d := x][1..] == creg[1..][d - 1 := x];
      RegisterValueUpdate(creg[1..], d - 1, x);
    }
  }

  /** The sum of `states[src] * 2^dest` over the items of a translation map. */
  function MappedSum(items: Items<nat, nat>, states: seq<int>): int
    requires forall i :: 0 <= i < |items| ==> items[i].0 < |states|
  {
    if items == [] then 0
    else
      var last := items[|items| - 1];
      MappedSum(items[..|items| - 1], states) + states[last.0] * Pow2(last.1)
  }

  /** No two items write the same classical bit. */
  ghost predicate DistinctValues(items: Items<nat, nat>)
  {
    forall i, j :: 0 <= i < j < |items| ==> items[i].1 != items[j].1
  }

  lemma {:induction false} RegisterValueZeros(n: nat)
    ensures RegisterValue(Zeros(n)) == 0
  {
    if n > 0 {
      assert Zeros(n)[1..] == Zeros(n - 1);
      RegisterValueZeros(n - 1);
    }
  }

  /** A bit no item writes keeps its initial value. */
  lemma {:induction false} ScatterUntouched(creg: seq<int>, items: Items<nat, nat>, states: seq<int>, d: nat)
    requires forall i :: 0 <= i < |items| ==> items[i].0 < |states| && items[i].1 < |creg|
    requires d < |creg| && forall i :: 0 <= i < |items| ==> items[i].1 != d
    ensures Scatter(creg, items, states)[d] == creg[d]
  {
    if items != [] {
      ScatterUntouched(creg, items[..|items| - 1], states, d);
    }
  }

  /** Scattering into a zeroed register with distinct destinations gives the mapped sum. */
  lemma {:induction false} ScatterValue(n: nat, items: Items<nat, nat>, states: seq<int>)
    requires forall i :: 0 <= i < |items| ==> items[i].0 < |states| && items[i].1 < n
    requires DistinctValues(items)
    ensures RegisterValue(Scatter(Zeros(n), items, states)) == MappedSum(items, states)
  {
    if items == [] {
      RegisterValueZeros(n);
    } else {
      var init := items[..|items| - 1];
      var last := items[|items| - 1];
      assert forall i :: 0 <= i < |init| ==> init[i] == items[i];
      ScatterValue(n, init, states);
      ScatterUntouched(Zeros(n), init, states, last.1);
      var before := Scatter(Zeros(n), init, states);
      assert before[last.1] == 0;
      RegisterValueUpdate(before, last.1, states[last.0]);
      assert Scatter(Zeros(n), items, states) == before[last.1 := states[last.0]];
      assert RegisterValue(Scatter(Zeros(n), items, states)) == RegisterValue(before) + states[last.0] * Pow2(last.1);
      assert MappedSum(items, states) == MappedSum(init, states) + states[last.0] * Pow2(last.1);
    }
  }

  /**
   * With a translation map whose keys are the shot's qubits and which sends no two qubits to the
   * same classical bit, the shot packs into the sum of `states[src] * 2^map[src]`.
   */
  lemma ShotValueMapped(states: seq<int>, tr: Items<nat, nat>)
    requires tr != [] && Keys(tr) == Range(|states|) && DistinctValues(tr)
    ensures forall i :: 0 <= i < |tr| ==> tr[i].0 < |states|
    ensures ShotValue(states, Some(tr)) == Ok(MappedSum(tr, states))
  {
    MapInBounds(tr, |states|);
    var n := MaxOf(Values(tr)) + 1;
    ScatterValue(n, tr, states);
    assert Register(states, Some(tr)) == Ok(Scatter(Zeros(n), tr, states));
  }

  /** A bit keeps the state of the last item that writes it. */
  lemma {:induction false} ScatterLastWins(creg: seq<int>, items: Items<nat, nat>, states: seq<int>, k: nat)
    requires forall i :: 0 <= i < |items| ==> items[i].0 < |states| && items[i].1 < |creg|
    requires k < |items| && forall j :: k < j < |items| ==> items[j].1 != items[k].1
    ensures Scatter(creg, items, states)[items[k].1] == states[items[k].0]
  {
    if k < |items| - 1 {
      var init := items[..|items| - 1];
      assert init[k] == items[k];
      ScatterLastWins(creg, init, states, k);
    }
  }

  /**
   * For any map the key check accepts, with distinct destinations or not, the register bit an
   * item writes holds that item's state unless a later item in dict order writes the same bit.
   */
  lemma RegisterLastWrite(states: seq<int>, tr: Items<nat, nat>, k: nat)
    requires tr != [] && Keys(tr) == Range(|states|)
    requires k < |tr| && forall j :: k < j < |tr| ==> tr[j].1 != tr[k].1
    ensures Register(states, Some(tr)).Ok?
    ensures var creg := Register(states, Some(tr)).value;
            tr[k].0 < |states| && tr[k].1 < |creg| && creg[tr[k].1] == states[tr[k].0]
  {
    MapInBounds(tr, |states|);
    var n := MaxOf(Values(tr)) + 1;
    ScatterLastWins(Zeros(n), tr, states, k);
    assert Register(states, Some(tr)) == Ok(Scatter(Zeros(n), tr, states));
  }

  /**
   * Two qubits sent to one classical bit: the key check accepts `{0: 0, 1: 0}` for a two-qubit
   * shot, and `[1, 0]` packs into 0, qubit 1 overwriting qubit 0, where the sum of
   * `states[src] * 2^dest` is 1.
   */
  lemma OverlappingDestinations()
    ensures ShotValue([1, 0], Some([(0, 0), (1, 0)])) == Ok(0)
    ensures MappedSum([(0, 0), (1, 0)], [1, 0]) == 1
  {
    var tr: Items<nat, nat> := [(0, 0), (1, 0)];
    assert Keys(tr) == {0, 1} by { assert tr[0].0 in Keys(tr) && tr[1].0 in Keys(tr); }
    assert Range(2) == {0, 1};
    assert Values(tr) == [0, 0];
    RegisterLastWrite([1, 0], tr, 1);
    var creg := Register([1, 0], Some(tr)).value;
    assert |creg| == 1 && creg[0] == 0;
    assert creg == [0];
    assert creg[1..] == [];
    assert tr[..1] == [(0, 0)] && tr[..1][..0] == [];
  }

  /**
   * Without a map the register is the shot itself, and for a shot of 0s and 1s bit `i` of the
   * returned integer is `states[i]`: bit 0 of the register is bit 0 of the integer.
   */
  lemma {:induction false} ShotValueBits(states: seq<int>, i: nat)
    requires forall k :: 0 <= k < |states| ==> states[k] == 0 || states[k] == 1
    requires i < |states|
    ensures ShotValue(states, None).Ok?
    ensures 0 <= ShotValue(states, None).value < Pow2(|states|)
    ensures (ShotValue(states, None).value / Pow2(i)) % 2 == states[i]
  {
    RegisterBits(states, i);
  }

  lemma {:induction false} RegisterBits(creg: seq<int>, i: nat)
    requires forall k :: 0 <= k < |creg| ==> creg[k] == 0 || creg[k] == 1
    requires i < |creg|
    ensures 0 <= RegisterValue(creg) < Pow2(|creg|)
    ensures (RegisterValue(creg) / Pow2(i)) % 2 == creg[i]
  {
    var rest := creg[1..];
    if |rest| > 0 {
      RegisterBits(rest, if i == 0 then 0 else i - 1);
    }
    var x := RegisterValue(rest);
    assert 0 <= x < Pow2(|rest|);
    if i > 0 {
      RegisterBits(rest, i - 1);
      DivShift(creg[0], x, Pow2(i - 1));
    } else {
      assert Pow2(0) == 1;
    }
  }

  /** Dropping the lowest bit before dividing by `p` is dividing by `2 * p`. */
  lemma DivShift(b: int, x: nat, p: nat)
    requires b == 0 || b == 1
    requires p >= 1
    ensures (b + 2 * x) / (2 * p) == x / p
  {
    var q, r := x / p, x % p;
    assert x == q * p + r;
    assert b + 2 * x == q * (2 * p) + (2 * r + b);
    DivUnique(b + 2 * x, 2 * p, q, 2 * r + b);
  }

  lemma DivUnique(n: int, d: int, q: int, r: int)
    requires d > 0 && n == q * d + r && 0 <= r < d
    ensures n / d == q
  {
    var q0, r0 := n / d, n % d;
    SameDivision(d, q, r, q0, r0);
  }

  lemma SameDivision(d: int, q: int, r: int, q0: int, r0: int)
    requires d > 0 && 0 <= r < d && 0 <= r0 < d
    requires q * d + r == q0 * d + r0
    ensures q == q0
  {
    assert (q - q0) * d == r0 - r;
    if q - q0 >= 1 {
      assert false;
    } else if q - q0 <= -1 {
      assert false;
    }
  }

  // ---------------------------------------------------------------------------------------------
  // hex and _format_counts
  // ---------------------------------------------------------------------------------------------

  const HexAlphabet := "0123456789abcdef"

  /** The lower-case hexadecimal digits of `n`, most significant first, without leading zeros. */
  function HexDigits(n: nat): (s: string)
    ensures |s| >= 1
    ensures n > 0 ==> s[0] != '0'
    ensures forall c :: c in s ==> c in HexAlphabet
    decreases n
  {
    if n < 16 then [HexAlphabet[n]] else HexDigits(n / 16) + [HexAlphabet[n % 16]]
  }

  /** Python's `hex`: `"0x"` and the digits, with a leading `"-"` for a negative number. */
  function Hex(n: int): string
  {
    if n < 0 then "-0x" + HexDigits(-n) else "0x" + HexDigits(n)
  }

  function DigitValue(c: char): nat
  {
    if '0' <= c <= '9' then c as nat - '0' as nat
    else if 'a' <= c <= 'f' then c as nat - 'a' as nat + 10
    else 0
  }

  /** The value of a string of hexadecimal digits, most significant first. */
  function DigitsValue(s: string): nat
  {
    if s == [] then 0 else 16 * DigitsValue(s[..|s| - 1]) + DigitValue(s[|s| - 1])
  }

  /** `int(s, 16)` on the strings `hex` produces. */
  function FromHex(s: string): int
  {
    if |s| >= 3 && s[0] == '-' then -(DigitsValue(s[3..]) as int)
    else if |s| >= 2 then DigitsValue(s[2..]) as int
    else 0
  }

  lemma DigitRoundTrip(d: nat)
    requires d < 16
    ensures DigitValue(HexAlphabet[d]) == d
  {
  }

  lemma {:induction false} HexDigitsRoundTrip(n: nat)
    ensures DigitsValue(HexDigits(n)) == n
    decreases n
  {
    if n < 16 {
      DigitRoundTrip(n);
      assert [HexAlphabet[n]][..0] == [];
    } else {
      var s := HexDigits(n);
      HexDigitsRoundTrip(n / 16);
      DigitRoundTrip(n % 16);
      assert s[..|s| - 1] == HexDigits(n / 16);
    }
  }

  lemma FromHexOfDigits(d: string)
    ensures FromHex("-0x" + d) == -(DigitsValue(d) as int)
    ensures FromHex("0x" + d) == DigitsValue(d) as int
  {
    assert ("-0x" + d)[0] == '-' && ("-0x" + d)[3..] == d;
    assert ("0x" + d)[0] == '0' && ("0x" + d)[2..] == d;
  }

  /** `int(hex(n), 16) == n`: reading back a key gives the packed shot. */
  lemma HexRoundTrip(n: int)
    ensures FromHex(Hex(n)) == n
  {
    if n < 0 {
      var m: nat := -n;
      var d := HexDigits(m);
      HexDigitsRoundTrip(m);
      FromHexOfDigits(d);
      assert Hex(n) == "-0x" + d;
    } else {
      var d := HexDigits(n);
      HexDigitsRoundTrip(n);
      FromHexOfDigits(d);
      assert Hex(n) == "0x" + d;
    }
  }

  /** Distinct packed shots get distinct keys. */
  lemma HexInjective(a: int, b: int)
    ensures Hex(a) == Hex(b) <==> a == b
  {
    HexRoundTrip(a);
    HexRoundTrip(b);
  }

  /**
   * `_shot_to_int(shot, qubit_to_bit)` for every shot, in order: the first shot that raises
   * ends the evaluation.
   */
  function ShotValues(samples: seq<seq<int>>, qubitToBit: Option<Items<nat, nat>>): (r: Result<seq<int>>)
    ensures r.Ok? <==> forall i :: 0 <= i < |samples| ==> ShotValue(samples[i], qubitToBit).Ok?
    ensures r.Ok? ==>
              && |r.value| == |samples|
              && forall i :: 0 <= i < |samples| ==> ShotValue(samples[i], qubitToBit) == Ok(r.value[i])
    ensures r.Err? ==> r.error == NotInjective
  {
    if samples == [] then Ok([])
    else match ShotValue(samples[0], qubitToBit)
      case Err(e) => Err(e)
      case Ok(v) =>
        match ShotValues(samples[1..], qubitToBit)
        case Err(e) => Err(e)
        case Ok(vs) => Ok([v] + vs)
  }

  /** `Counter(keys)` turned into a dict: each key once, in order of first occurrence, with its tally. */
  function Tally(keys: seq<string>): Items<string, nat>
  {
    if keys == [] then []
    else
      var counts := Tally(keys[..|keys| - 1]);
      var k := keys[|keys| - 1];
      Put(counts, k, (if k in Keys(counts) then Get(counts, k) else 0) + 1)
  }

  function Sum(s: seq<nat>): nat
  {
    if s == [] then 0 else s[0] + Sum(s[1..])
  }

  lemma {:induction false} SumAppend(a: seq<nat>, x: nat)
    ensures Sum(a + [x]) == Sum(a) + x
  {
    if a != [] {
      assert (a + [x])[1..] == a[1..] + [x];
      SumAppend(a[1..], x);
    }
  }

  lemma {:induction false} SumIncrement(a: seq<nat>, i: nat)
    requires i < |a|
    ensures Sum(a[i := a[i] + 1]) == Sum(a) + 1
  {
    if i == 0 {
      assert a[i := a[i] + 1][1..] == a[1..];
    } else {
      assert a[i := a[i] + 1][1..] == a[1..][i - 1 := a[i] + 1];
      SumIncrement(a[1..], i - 1);
    }
  }

  /** The tally holds exactly the distinct keys, each once. */
  lemma {:induction false} TallyKeys(keys: seq<string>)
    ensures Keys(Tally(keys)) == set k | k in keys
    ensures DistinctKeys(Tally(keys))
  {
    if keys != [] {
      var init := keys[..|keys| - 1];
      var k := keys[|keys| - 1];
      var counts := Tally(init);
      TallyKeys(init);
      var n := (if k in Keys(counts) then Get(counts, k) else 0) + 1;
      PutKeys(counts, k, n);
      PutDistinct(counts, k, n);
      assert keys == init + [k];
    }
  }

  /** Each key of the tally counts the times it occurs. */
  lemma {:induction false} TallyCounts(keys: seq<string>)
    ensures forall k :: k in Keys(Tally(keys)) ==> Get(Tally(keys), k) == multiset(keys)[k]
  {
    if keys != [] {
      var init := keys[..|keys| - 1];
      var k := keys[|keys| - 1];
      var counts := Tally(init);
      var n := (if k in Keys(counts) then Get(counts, k) else 0) + 1;
      var t := Tally(keys);
      assert t == Put(counts, k, n);
      assert multiset(keys) == multiset(init) + multiset{k} by {
        assert keys == init + [k];
      }
      TallyCounts(init);
      assert Get(t, k) == multiset(keys)[k] by {
        PutGet(counts, k, n);
        if k !in Keys(counts) {
          TallyKeys(init);
          assert k !in multiset(init);
        }
      }
      forall x | x in Keys(t) && x != k ensures Get(t, x) == multiset(keys)[x] {
        PutKeys(counts, k, n);
        PutGet(counts, k, n);
      }
    }
  }

  /** The counts of the tally add up to the number of keys tallied. */
  lemma {:induction false} TallySum(keys: seq<string>)
    ensures Sum(Values(Tally(keys))) == |keys|
  {
    if keys != [] {
      var init := keys[..|keys| - 1];
      var k := keys[|keys| - 1];
      var counts := Tally(init);
      TallySum(init);
      var n := (if k in Keys(counts) then Get(counts, k) else 0) + 1;
      PutKeys(counts, k, n);
      if k in Keys(counts) {
        var i := IndexOf(counts, k);
        assert Values(Tally(keys)) == Values(counts)[i := Values(counts)[i] + 1];
        SumIncrement(Values(counts), i);
      } else {
        assert Values(Tally(keys)) == Values(counts) + [1];
        SumAppend(Values(counts), 1);
      }
    }
  }

  /** `hex` of each packed shot. */
  function HexKeys(values: seq<int>): (r: seq<string>)
    ensures |r| == |values| && forall i :: 0 <= i < |values| ==> r[i] == Hex(values[i])
  {
    seq(|values|, i requires 0 <= i < |values| => Hex(values[i]))
  }

  /** `qubit_to_bit or {}` is falsy: `_shot_to_int` copies the shot as its register. */
  predicate NoMap(qubitToBit: Option<Items<nat, nat>>)
  {
    qubitToBit.None? || qubitToBit.value == []
  }

  /**
   * The error `hex` raises for an empty register: numpy sums the empty product as
   * `numpy.float64(0.0)`, which `hex` refuses.
   */
  const HexOfFloat := TypeError("'numpy.float64' object cannot be interpreted as an integer")

  /**
   * `dict(Counter(hex(_shot_to_int(shot, qubit_to_bit)) for shot in samples))`. A map that
   * is present makes every register at least one bit wide, so the two errors never meet.
   */
  function FormatCounts(samples: seq<seq<int>>, qubitToBit: Option<Items<nat, nat>>): (r: Result<Items<string, nat>>)
    ensures r.Ok? <==>
              forall i :: 0 <= i < |samples| ==>
                ShotValue(samples[i], qubitToBit).Ok? && Register(samples[i], qubitToBit) != Ok([])
    ensures r.Err? ==> r.error == NotInjective || r.error == HexOfFloat
    ensures r == Err(HexOfFloat) <==> NoMap(qubitToBit) && [] in samples
  {
    if NoMap(qubitToBit) && [] in samples then Err(HexOfFloat)
    else match ShotValues(samples, qubitToBit)
    case Err(e) => Err(e)
    case Ok(values) => Ok(Tally(HexKeys(values)))
  }

  /** Every key is the hex of some shot's packed value, and each key occurs once. */
  lemma FormatCountsKeys(samples: seq<seq<int>>, qubitToBit: Option<Items<nat, nat>>, counts: Items<string, nat>)
    requires FormatCounts(samples, qubitToBit) == Ok(counts)
    ensures DistinctKeys(counts)
    ensures forall k :: k in Keys(counts) <==>
              exists i :: 0 <= i < |samples| && ShotValue(samples[i], qubitToBit) == Ok(FromHex(k)) && k == Hex(FromHex(k))
  {
    var values := ShotValues(samples, qubitToBit).value;
    var keys := HexKeys(values);
    TallyKeys(keys);
    forall k | k in Keys(counts)
      ensures exists i :: 0 <= i < |samples| && ShotValue(samples[i], qubitToBit) == Ok(FromHex(k)) && k == Hex(FromHex(k))
    {
      var i :| 0 <= i < |keys| && keys[i] == k;
      HexRoundTrip(values[i]);
    }
    forall k, i | 0 <= i < |samples| && ShotValue(samples[i], qubitToBit) == Ok(FromHex(k)) && k == Hex(FromHex(k))
      ensures k in Keys(counts)
    {
      assert keys[i] == k;
    }
  }

  /** Each key counts the shots that produce it, and the counts add up to the number of shots. */
  lemma FormatCountsTally(samples: seq<seq<int>>, qubitToBit: Option<Items<nat, nat>>, counts: Items<string, nat>)
    requires FormatCounts(samples, qubitToBit) == Ok(counts)
    ensures forall k :: k in Keys(counts) ==> Get(counts, k) == multiset(HexKeys(ShotValues(samples, qubitToBit).value))[k]
    ensures Sum(Values(counts)) == |samples|
  {
    var keys := HexKeys(ShotValues(samples, qubitToBit).value);
    TallyCounts(keys);
    TallySum(keys);
  }

  /** `[[1, 0, 0], [0, 1, 0], [1, 0, 0]]` without a map counts `{'0x1': 2, '0x2': 1}`. */
  lemma CountsExample()
    ensures FormatCounts([[1, 0, 0], [0, 1, 0], [1, 0, 0]], None) == Ok([("0x1", 2), ("0x2", 1)])
  {
    var samples: seq<seq<int>> := [[1, 0, 0], [0, 1, 0], [1, 0, 0]];
    assert [1, 0, 0][1..] == [0, 0] && [0, 0][1..] == [0] && [0][1..] == [];
    assert [0, 1, 0][1..] == [1, 0] && [1, 0][1..] == [0];
    assert ShotValue([1, 0, 0], None) == Ok(1);
    assert ShotValue([0, 1, 0], None) == Ok(2);
    var r := ShotValues(samples, None);
    assert r.Ok? && |r.value| == 3;
    assert r.value[0] == 1 && r.value[1] == 2 && r.value[2] == 1;
    assert r.value == [1, 2, 1];
    SmallHex();
    assert HexKeys([1, 2, 1]) == ["0x1", "0x2", "0x1"];
    TallyOfThree("0x1", "0x2");
  }

  /** With the map `{0: 2, 1: 1, 2: 0}` the same shots count `{'0x4': 2, '0x2': 1}`. */
  lemma MappedCountsExample()
    ensures FormatCounts([[1, 0, 0], [0, 1, 0], [1, 0, 0]], Some([(0, 2), (1, 1), (2, 0)])) == Ok([("0x4", 2), ("0x2", 1)])
  {
    var samples: seq<seq<int>> := [[1, 0, 0], [0, 1, 0], [1, 0, 0]];
    var tr: Items<nat, nat> := [(0, 2), (1, 1), (2, 0)];
    ReversedShots(tr);
    var r := ShotValues(samples, Some(tr));
    assert r.Ok? && |r.value| == 3;
    assert r.value[0] == 4 && r.value[1] == 2 && r.value[2] == 4;
    assert r.value == [4, 2, 4];
    SmallHex();
    assert HexKeys([4, 2, 4]) == ["0x4", "0x2", "0x4"];
    TallyOfThree("0x4", "0x2");
  }

  /**
   * A shot with no qubits and no map packs an empty register, and `hex` raises TypeError on
   * it, while the same shot beside a one-bit shot under an empty dict also raises.
   */
  lemma EmptyShotRejected()
    ensures FormatCounts([[]], None) == Err(HexOfFloat)
    ensures FormatCounts([[1], []], Some([])) == Err(HexOfFloat)
    ensures ShotValue([], None) == Ok(0)
  {
    var samples: seq<seq<int>> := [[1], []];
    assert samples[1] == [];
  }

  lemma ReversedShots(tr: Items<nat, nat>)
    requires tr == [(0, 2), (1, 1), (2, 0)]
    ensures ShotValue([1, 0, 0], Some(tr)) == Ok(4) && ShotValue([0, 1, 0], Some(tr)) == Ok(2)
  {
    KeysOfThree(tr);
    assert DistinctValues(tr);
    ShotValueMapped([1, 0, 0], tr);
    MappedSumOfThree(tr, [1, 0, 0]);
    ShotValueMapped([0, 1, 0], tr);
    MappedSumOfThree(tr, [0, 1, 0]);
    assert Pow2(1) == 2 && Pow2(2) == 4;
  }

  lemma SmallHex()
    ensures Hex(1) == "0x1" && Hex(2) == "0x2" && Hex(4) == "0x4"
  {
    assert HexAlphabet[1] == '1' && HexAlphabet[2] == '2' && HexAlphabet[4] == '4';
  }

  lemma TallyOfThree(a: string, b: string)
    requires a != b
    ensures Tally([a, b, a]) == [(a, 2), (b, 1)]
  {
    var keys := [a, b, a];
    assert keys[..2] == [a, b] && keys[..2][..1] == [a] && keys[..2][..1][..0] == [];
    var t1: Items<string, nat> := [(a, 1)];
    assert Tally([a]) == t1 by {
      PutKeys([], a, 1);
    }
    assert Keys(t1) == {a} by {
      assert t1[0].0 == a;
    }
    PutKeys(t1, b, 1);
    var t2 := t1 + [(b, 1)];
    assert Tally([a, b]) == t2;
    assert t2[0].0 == a;
    assert a in Keys(t2) && IndexOf(t2, a) == 0;
  }
}
