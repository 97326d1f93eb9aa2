/** Octet strings: network byte order, nibbles, and reading from a stream that may end early. */
module Octets {

  type byte = b: int | 0 <= b < 256
  type bytes = seq<byte>

  datatype Option<+T> = None | Some(value: T)

  /** The number of values that fit in k octets. */
  function Capacity(k: nat): (c: nat)
    ensures c >= 1
  {
    if k == 0 then 1 else 256 * Capacity(k - 1)
  }

  /** Network byte order of the low k octets of n. */
  function Big(n: nat, k: nat): (b: bytes)
    ensures |b| == k
  {
    if k == 0 then [] else Big(n / 256, k - 1) + [n % 256]
  }

  /** The number a string of octets denotes in network byte order. */
  function Value(b: bytes): (n: nat)
    ensures n < Capacity(|b|)
  {
    if b == [] then 0 else Value(b[..|b| - 1]) * 256 + b[|b| - 1]
  }

  /** n shifted right by k octets. */
  function Shifted(n: nat, k: nat): nat {
    if k == 0 then n else Shifted(n / 256, k - 1)
  }

  /** Writing then reading k octets keeps exactly the residue modulo 256^k. */
  lemma {:induction false} ValueOfBig(n: nat, k: nat)
    ensures n == Capacity(k) * Shifted(n, k) + Value(Big(n, k))
  {
    if k == 0 {
    } else {
      ValueOfBig(n / 256, k - 1);
      assert Big(n, k)[..k - 1] == Big(n / 256, k - 1);
      Regroup(n, Capacity(k - 1), Shifted(n, k), Value(Big(n / 256, k - 1)));
    }
  }

  lemma Regroup(n: nat, c: nat, s: nat, v: nat)
    requires n / 256 == c * s + v
    ensures n == 256 * c * s + (v * 256 + n % 256)
  {
  }

  lemma ProductAtLeast(c: nat, s: nat)
    requires s >= 1
    ensures c * s >= c
  {
  }

  /** A number that fits is read back unchanged. */
  lemma BigRoundTrip(n: nat, k: nat)
    requires n < Capacity(k)
    ensures Value(Big(n, k)) == n
  {
    ValueOfBig(n, k);
    if Shifted(n, k) > 0 {
      ProductAtLeast(Capacity(k), Shifted(n, k));
    }
  }

  lemma LastDigit(n: nat, last: byte)
    ensures (n * 256 + last) / 256 == n && (n * 256 + last) % 256 == last
  {
  }

  /** Reading k octets then writing them is the identity. */
  lemma {:induction false} BigOfValue(b: bytes)
    ensures Big(Value(b), |b|) == b
  {
    if b != [] {
      var front, last := b[..|b| - 1], b[|b| - 1];
      BigOfValue(front);
      assert b == front + [last];
      LastDigit(Value(front), last);
    }
  }

  lemma Capacities()
    ensures Capacity(1) == 0x100 && Capacity(2) == 0x1_0000 && Capacity(3) == 0x100_0000
    ensures Capacity(4) == 0x1_0000_0000 && Capacity(5) == 0x100_0000_0000
  {
    assert Capacity(0) == 1;
    assert Capacity(1) == 256 * Capacity(0);
    assert Capacity(2) == 256 * Capacity(1);
    assert Capacity(3) == 256 * Capacity(2);
    assert Capacity(4) == 256 * Capacity(3);
    assert Capacity(5) == 256 * Capacity(4);
  }

  function Low(b: byte): (n: nat)
    ensures n < 16
  {
    b % 16
  }

  function High(b: byte): (n: nat)
    ensures n < 16
  {
    b / 16
  }

  /** b | 0xF0 */
  function FillHigh(b: byte): (r: byte)
    ensures Low(r) == Low(b) && High(r) == 15
  {
    240 + b % 16
  }

  function Zeros(n: nat): (z: bytes)
    ensures |z| == n && forall i :: 0 <= i < n ==> z[i] == 0
  {
    seq(n, i => 0)
  }

  /** n octets read from a stream into a zeroed buffer: what is missing keeps its old value. */
  function Take(s: bytes, n: nat): (r: bytes)
    ensures |r| == n
    ensures n <= |s| ==> r == s[..n]
  {
    if n <= |s| then s[..n] else s + Zeros(n - |s|)
  }

  /** The stream after an attempt to read n octets. */
  function Drop(s: bytes, n: nat): (r: bytes)
    ensures |r| == if n <= |s| then |s| - n else 0
    ensures n <= |s| ==> r == s[n..]
  {
    if n <= |s| then s[n..] else []
  }

  /** One octet read into a field holding `old`. */
  function TakeOne(s: bytes, old_: byte): (r: byte)
    ensures s != [] ==> r == s[0]
  {
    if s == [] then old_ else s[0]
  }

  lemma Assoc(a: bytes, b: bytes, c: bytes)
    ensures a + b + c == a + (b + c)
  {
  }

  lemma Assoc4(a: bytes, b: bytes, c: bytes, d: bytes)
    ensures a + b + c + d == a + (b + c + d)
  {
    Assoc(a, b, c);
    Assoc(a, b + c, d);
  }

  lemma ReadBack(a: bytes, rest: bytes)
    ensures Take(a + rest, |a|) == a && Drop(a + rest, |a|) == rest
  {
  }
}
