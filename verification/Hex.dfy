/** Hex coding of peer ids and message authentication codes, and their comparison. */
module Hex {
  import opened Base

  type Byte = b: nat | b < 256

  datatype HexError = InvalidHexLength(expected: nat, actual: nat) | InvalidHex

  function Digit(nibble: nat): Byte
    requires nibble < 16
  {
    if nibble < 10 then 48 + nibble else 87 + nibble
  }

  function Nibble(c: Byte): (n: Option<nat>)
    ensures n.Some? ==> n.value < 16
  {
    if 48 <= c <= 57 then Some(c - 48)
    else if 97 <= c <= 102 then Some(c - 87)
    else if 65 <= c <= 70 then Some(c - 55)
    else None
  }

  /** Lower-case form of a hex digit, which is what encoding produces. */
  function Lower(c: Byte): Byte { if 65 <= c <= 70 then c + 32 else c }

  predicate IsHex(value: seq<Byte>) { forall c | c in value :: Nibble(c).Some? }

  /** Two digits per byte, high nibble first. */
  method EncodeHex(bytes: seq<Byte>) returns (output: seq<Byte>)
    ensures |output| == 2 * |bytes| && IsHex(output)
    ensures forall k | 0 <= k < |bytes| ::
      Nibble(output[2 * k]) == Some(bytes[k] / 16) && Nibble(output[2 * k + 1]) == Some(bytes[k] % 16)
    ensures forall c | c in output :: Lower(c) == c
  {
    output := [];
    for k := 0 to |bytes|
      invariant |output| == 2 * k && IsHex(output) && forall c | c in output :: Lower(c) == c
      invariant forall j | 0 <= j < k ::
        Nibble(output[2 * j]) == Some(bytes[j] / 16) && Nibble(output[2 * j + 1]) == Some(bytes[j] % 16)
    {
      output := output + [Digit(bytes[k] / 16)];
      output := output + [Digit(bytes[k] % 16)];
    }
  }

  /** Accepts exactly hex of the right length, in either case, and inverts the encoding. */
  method DecodeHexExact(value: seq<Byte>, n: nat) returns (r: Result<seq<Byte>, HexError>)
    ensures r.Ok? <==> |value| == 2 * n && IsHex(value)
    ensures r.Ok? ==> |r.value| == n && forall k | 0 <= k < n ::
      Nibble(value[2 * k]) == Some(r.value[k] / 16) && Nibble(value[2 * k + 1]) == Some(r.value[k] % 16)
  {
    if |value| != n * 2 { return Err(InvalidHexLength(n * 2, |value|)); }
    var output: seq<Byte> := [];
    for index := 0 to n
      invariant |output| == index
      invariant forall j | 0 <= j < index ::
        Nibble(value[2 * j]) == Some(output[j] / 16) && Nibble(value[2 * j + 1]) == Some(output[j] % 16)
      invariant forall j | 0 <= j < 2 * index :: Nibble(value[j]).Some?
    {
      var high := Nibble(value[index * 2]);
      if high.None? { return Err(InvalidHex); }
      var low := Nibble(value[index * 2 + 1]);
      if low.None? { return Err(InvalidHex); }
      output := output + [high.value * 16 + low.value];
    }
    return Ok(output);
  }

  /** Digits determine the byte, so decoding what was encoded gives it back. */
  method RoundTrip(bytes: seq<Byte>) returns (decoded: Result<seq<Byte>, HexError>)
    ensures decoded == Ok(bytes)
  {
    var encoded := EncodeHex(bytes);
    decoded := DecodeHexExact(encoded, |bytes|);
    forall k | 0 <= k < |bytes| ensures decoded.value[k] == bytes[k] {
      assert Nibble(encoded[2 * k]) == Some(bytes[k] / 16);
    }
    assert decoded.value == bytes;
  }

  /** Looks at every byte whatever it finds, and still decides equality. */
  method ConstantTimeEq(left: seq<bv8>, right: seq<bv8>) returns (equal: bool)
    requires |left| == |right|
    ensures equal <==> left == right
  {
    var difference: bv8 := 0;
    for k := 0 to |left|
      invariant difference == 0 <==> left[..k] == right[..k]
    {
      var before := difference;
      difference := difference | (left[k] ^ right[k]);
      OrXorZero(before, left[k], right[k]);
      assert left[..k + 1] == left[..k] + [left[k]] && right[..k + 1] == right[..k] + [right[k]];
    }
    assert left[..|left|] == left && right[..|left|] == right;
    return difference == 0;
  }

  lemma OrXorZero(d: bv8, a: bv8, b: bv8)
    ensures d | (a ^ b) == 0 <==> d == 0 && a == b
  {
  }
}
