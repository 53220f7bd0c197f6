/** Little-endian encoding of unsigned integers, as `to_le_bytes` and Borsh write them. */
module Bytes {
  import opened Types

  function Pow256(n: nat): (r: nat)
    ensures r > 0
  {
    if n == 0 then 1 else 256 * Pow256(n - 1)
  }

  /** The `n` low-order bytes of `x`, least significant first. */
  function ToLe(x: nat, n: nat): (r: seq<byte>)
    ensures |r| == n
  {
    if n == 0 then [] else [x % 256] + ToLe(x / 256, n - 1)
  }

  /** The number whose little-endian bytes are `s`. */
  function FromLe(s: seq<byte>): (r: nat)
    ensures r < Pow256(|s|)
  {
    if s == [] then 0 else s[0] + 256 * FromLe(s[1..])
  }

  lemma {:induction false} FromLeToLe(x: nat, n: nat)
    requires x < Pow256(n)
    ensures FromLe(ToLe(x, n)) == x
  {
    if n > 0 {
      FromLeToLe(x / 256, n - 1);
      assert ToLe(x, n)[1..] == ToLe(x / 256, n - 1);
    }
  }

  lemma {:induction false} ToLeFromLe(s: seq<byte>)
    ensures ToLe(FromLe(s), |s|) == s
  {
    if s != [] {
      ToLeFromLe(s[1..]);
      assert FromLe(s) % 256 == s[0];
      assert FromLe(s) / 256 == FromLe(s[1..]);
    }
  }

  lemma Pow256Of8()
    ensures Pow256(8) == U64_MAX + 1
  {
  }

  /** `u64::to_le_bytes`. */
  function U64ToLe(x: u64): (r: seq<byte>)
    ensures |r| == 8
    ensures FromLe(r) == x
  {
    Pow256Of8();
    FromLeToLe(x, 8);
    ToLe(x, 8)
  }

  /** `u64::from_le_bytes`. */
  function LeToU64(s: seq<byte>): (x: u64)
    requires |s| == 8
    ensures U64ToLe(x) == s
  {
    Pow256Of8();
    ToLeFromLe(s);
    FromLe(s)
  }

  /** Distinct numbers have distinct encodings. */
  lemma U64ToLeInjective(a: u64, b: u64)
    requires U64ToLe(a) == U64ToLe(b)
    ensures a == b
  {
  }
}
