/**
 * The bitstring helper of the Grover 3-SAT example: a measured bitstring, most significant
 * bit first, read as a tuple of booleans, least significant bit first.
 */
module Grover3Sat {
  import opened Outcomes

  /** The characters `int` accepts on their own (ASCII digits). */
  predicate IsDigit(c: char)
  {
    '0' <= c <= '9'
  }

  /** The error `int(c)` raises for a character that is not a digit. */
  function InvalidLiteral(c: char): Exception
  {
    ValueError("invalid literal for int() with base 10: '" + [c] + "'")
  }

  /**
   * `format_bitstring(bits)`: `bool(int(bit))` for each character of `bits`, last character
   * first. Characters are converted last to first, so the error is the one of the last
   * non-digit character.
   */
  function FormatBitstring(bits: string): (r: Result<seq<bool>>)
    ensures r.Ok? <==> forall i :: 0 <= i < |bits| ==> IsDigit(bits[i])
    ensures r.Ok? ==> |r.value| == |bits|
    ensures r.Ok? ==> forall i :: 0 <= i < |bits| ==> r.value[i] == (bits[|bits| - 1 - i] != '0')
  {
    if bits == [] then Ok([])
    else
      var init, c := bits[..|bits| - 1], bits[|bits| - 1];
      if !IsDigit(c) then Err(InvalidLiteral(c))
      else match FormatBitstring(init)
        case Err(e) => Err(e)
        case Ok(rest) => Ok([c != '0'] + rest)
  }

  /** The error raised is the one of the last character that is not a digit. */
  lemma {:induction false} FormatError(bits: string, i: nat)
    requires i < |bits| && !IsDigit(bits[i])
    requires forall j :: i < j < |bits| ==> IsDigit(bits[j])
    ensures FormatBitstring(bits) == Err(InvalidLiteral(bits[i]))
  {
    if i < |bits| - 1 {
      var init := bits[..|bits| - 1];
      assert init[i] == bits[i];
      FormatError(init, i);
    }
  }

  /** The inverse direction: booleans, least significant first, as a '0'/'1' string, MSB first. */
  function ToBitstring(values: seq<bool>): (s: string)
    ensures |s| == |values|
    ensures forall i :: 0 <= i < |s| ==> s[i] == (if values[|values| - 1 - i] then '1' else '0')
  {
    if values == [] then ""
    else ToBitstring(values[1..]) + [if values[0] then '1' else '0']
  }

  /** Formatting the string of any boolean tuple gives back that tuple. */
  lemma {:induction false} FormatToBitstring(values: seq<bool>)
    ensures FormatBitstring(ToBitstring(values)) == Ok(values)
  {
    if values != [] {
      var s := ToBitstring(values);
      var c := if values[0] then '1' else '0';
      assert s == ToBitstring(values[1..]) + [c];
      assert s[..|s| - 1] == ToBitstring(values[1..]) && s[|s| - 1] == c;
      FormatToBitstring(values[1..]);
      assert FormatBitstring(s) == Ok([c != '0'] + values[1..]);
      assert values == [values[0]] + values[1..];
    }
  }

  /** A string of '0' and '1' characters is the string of its own formatting. */
  lemma {:induction false} ToFormatBitstring(bits: string)
    requires forall i :: 0 <= i < |bits| ==> bits[i] == '0' || bits[i] == '1'
    ensures FormatBitstring(bits).Ok? && ToBitstring(FormatBitstring(bits).value) == bits
  {
    if bits != [] {
      var init := bits[..|bits| - 1];
      ToFormatBitstring(init);
      var v := FormatBitstring(bits).value;
      assert v[1..] == FormatBitstring(init).value;
      assert bits == init + [bits[|bits| - 1]];
    }
  }

  /** `format_bitstring("110") == (False, True, True)` */
  lemma FormatExample110()
    ensures FormatBitstring("110") == Ok([false, true, true])
  {
    var r := FormatBitstring("110");
    assert IsDigit("110"[0]) && IsDigit("110"[1]) && IsDigit("110"[2]);
    assert r.Ok? && |r.value| == 3;
    assert r.value[0] == false && r.value[1] == true && r.value[2] == true;
    assert r.value == [false, true, true];
  }

  /** `format_bitstring("001") == (True, False, False)` */
  lemma FormatExample001()
    ensures FormatBitstring("001") == Ok([true, false, false])
  {
    var r := FormatBitstring("001");
    assert IsDigit("001"[0]) && IsDigit("001"[1]) && IsDigit("001"[2]);
    assert r.Ok? && |r.value| == 3;
    assert r.value[0] == true && r.value[1] == false && r.value[2] == false;
    assert r.value == [true, false, false];
  }

  /** Of two characters that are not digits, the later one is reported. */
  lemma FormatRejects()
    ensures FormatBitstring("a1b") == Err(InvalidLiteral('b'))
  {
    FormatError("a1b", 2);
  }
}
