/** Numbers as bytes, low byte first. */
module ByteOrder {
  type Byte = x: int | 0 <= x < 256

  type Bytes = seq<Byte>

  function Span(count: nat): (r: nat)
    ensures r > 0
  {
    if count == 0 then 1 else 256 * Span(count - 1)
  }

  function LittleEndian(n: nat, count: nat): (r: Bytes)
    ensures |r| == count
  {
    if count == 0 then [] else [n % 256] + LittleEndian(n / 256, count - 1)
  }

  function FromLittleEndian(bytes: Bytes): nat {
    if bytes == [] then 0 else bytes[0] + 256 * FromLittleEndian(bytes[1..])
  }

  lemma {:induction false} LittleEndianRoundTrip(n: nat, count: nat)
    requires n < Span(count)
    ensures FromLittleEndian(LittleEndian(n, count)) == n
  {
    if count > 0 {
      assert LittleEndian(n, count)[1..] == LittleEndian(n / 256, count - 1);
      LittleEndianRoundTrip(n / 256, count - 1);
    }
  }
}
