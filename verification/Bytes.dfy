/**
 Bytes, big-endian integers and the sequence helpers the rest of the model shares.
 `ToBytes(n, k)` is what `to_be_bytes` yields after an `as` cast to a k-byte unsigned type:
 only the k low bytes of `n` survive.
 */
module Bytes {
  type byte = x: int | 0 <= x < 256

  datatype Option<+T> = None | Some(value: T)

  function Pow256(k: nat): (p: nat)
    ensures p > 0
  {
    if k == 0 then 1 else 256 * Pow256(k - 1)
  }

  function ToBytes(n: nat, k: nat): (s: seq<byte>)
    ensures |s| == k
  {
    if k == 0 then [] else ToBytes(n / 256, k - 1) + [n % 256]
  }

  function FromBytes(s: seq<byte>): nat {
    Value(s, |s|)
  }

  /** The number the first k bytes spell. */
  function Value(s: seq<byte>, k: nat): nat
    requires k <= |s|
  {
    if k == 0 then 0 else 256 * Value(s, k - 1) + s[k - 1]
  }

  /** Decoding an encoded number gives it back exactly when the cast lost nothing. */
  lemma {:induction false} CastIsLosslessIffSmall(n: nat, k: nat)
    ensures FromBytes(ToBytes(n, k)) == n <==> n < Pow256(k)
  {
    if n < Pow256(k) {
      FromTo(n, k);
    }
    FromBytesBound(ToBytes(n, k));
  }

  lemma {:induction false} FromTo(n: nat, k: nat)
    requires n < Pow256(k)
    ensures FromBytes(ToBytes(n, k)) == n
  {
    if k != 0 {
      FromTo(n / 256, k - 1);
      ValueOfPrefix(ToBytes(n / 256, k - 1), [n % 256], k - 1);
    }
  }

  lemma {:induction false} ValueOfPrefix(s: seq<byte>, t: seq<byte>, k: nat)
    requires k <= |s|
    ensures Value(s + t, k) == Value(s, k)
  {
    if k != 0 {
      ValueOfPrefix(s, t, k - 1);
    }
  }

  lemma {:induction false} FromBytesBound(s: seq<byte>)
    ensures FromBytes(s) < Pow256(|s|)
  {
    ValueBound(s, |s|);
  }

  lemma {:induction false} ValueBound(s: seq<byte>, k: nat)
    requires k <= |s|
    ensures Value(s, k) < Pow256(k)
  {
    if k != 0 {
      ValueBound(s, k - 1);
    }
  }

  lemma {:induction false} ToFrom(s: seq<byte>)
    ensures ToBytes(FromBytes(s), |s|) == s
  {
    PrefixToFrom(s, |s|);
    assert s[..|s|] == s;
  }

  lemma {:induction false} PrefixToFrom(s: seq<byte>, k: nat)
    requires k <= |s|
    ensures ToBytes(Value(s, k), k) == s[..k]
  {
    if k != 0 {
      PrefixToFrom(s, k - 1);
      assert s[..k] == s[..k - 1] + [s[k - 1]];
    }
  }

  lemma Pow256Values()
    ensures Pow256(2) == 0x1_0000
    ensures Pow256(4) == 0x1_0000_0000
    ensures Pow256(8) == 0x1_0000_0000_0000_0000
  {
    assert Pow256(3) == 0x100_0000;
    assert Pow256(5) == 0x100_0000_0000;
    assert Pow256(6) == 0x1_0000_0000_0000;
    assert Pow256(7) == 0x100_0000_0000_0000;
  }

  // ----- the byte order, written out -----

  function Number2(a: int, b: int): int {
    0x100 * a + b
  }

  function Number4(a: int, b: int, c: int, d: int): int {
    0x100_0000 * a + 0x1_0000 * b + 0x100 * c + d
  }

  lemma FromTwo(s: seq<byte>)
    requires |s| == 2
    ensures FromBytes(s) == Number2(s[0], s[1])
  {
    assert Value(s, 1) == 256 * Value(s, 0) + s[0];
  }

  lemma FromFour(s: seq<byte>)
    requires |s| == 4
    ensures FromBytes(s) == Number4(s[0], s[1], s[2], s[3])
  {
    assert Value(s, 1) == 256 * Value(s, 0) + s[0];
    assert Value(s, 2) == 256 * Value(s, 1) + s[1];
    assert Value(s, 3) == 256 * Value(s, 2) + s[2];
  }

  function BigEndian2(n: nat): seq<byte> {
    [n / 0x100 % 0x100, n % 0x100]
  }

  function BigEndian4(n: nat): seq<byte> {
    [n / 0x100_0000 % 0x100, n / 0x1_0000 % 0x100, n / 0x100 % 0x100, n % 0x100]
  }

  lemma ToTwo(n: nat)
    ensures ToBytes(n, 2) == BigEndian2(n)
  {
    assert ToBytes(n / 256, 1) == ToBytes(n / 256 / 256, 0) + [n / 256 % 256];
  }

  lemma ToFour(n: nat)
    ensures ToBytes(n, 4) == BigEndian4(n)
  {
    var a, b := n / 256 / 256, n / 256 / 256 / 256;
    ToTwo(a);
    assert ToBytes(n / 256, 3) == ToBytes(a, 2) + [n / 256 % 256];
    assert a == n / 0x1_0000 && b == n / 0x100_0000;
    assert a / 0x100 == b;
  }

  lemma ToEight(n: nat)
    ensures ToBytes(n, 8) == BigEndian4(n / 0x1_0000_0000) + BigEndian4(n)
  {
    var h := n / 256 / 256 / 256 / 256;
    assert h == n / 0x1_0000_0000;
    ToFour(h);
    ToFour(n);
    ToBytesSplit(n);
  }

  lemma ToBytesSplit(n: nat)
    ensures ToBytes(n, 8) == ToBytes(n / 256 / 256 / 256 / 256, 4) + ToBytes(n, 4)
  {
    var n1 := n / 256;
    var n2 := n1 / 256;
    var n3 := n2 / 256;
    assert ToBytes(n, 8) == ToBytes(n1, 7) + [n % 256];
    assert ToBytes(n1, 7) == ToBytes(n2, 6) + [n1 % 256];
    assert ToBytes(n2, 6) == ToBytes(n3, 5) + [n2 % 256];
    assert ToBytes(n3, 5) == ToBytes(n3 / 256, 4) + [n3 % 256];
    assert ToBytes(n, 4) == ToBytes(n1, 3) + [n % 256];
    assert ToBytes(n1, 3) == ToBytes(n2, 2) + [n1 % 256];
    assert ToBytes(n2, 2) == ToBytes(n3, 1) + [n2 % 256];
    assert ToBytes(n3, 1) == ToBytes(n3 / 256, 0) + [n3 % 256];
  }

  lemma Associate<T>(a: seq<T>, b: seq<T>, c: seq<T>)
    ensures a + (b + c) == (a + b) + c
  {
  }

  function Flatten<T>(ss: seq<seq<T>>): seq<T> {
    if ss == [] then [] else ss[0] + Flatten(ss[1..])
  }

  lemma {:induction false} FlattenConcat<T>(a: seq<seq<T>>, b: seq<seq<T>>)
    ensures Flatten(a + b) == Flatten(a) + Flatten(b)
  {
    if a == [] {
      assert a + b == b;
    } else {
      assert (a + b)[1..] == a[1..] + b;
      FlattenConcat(a[1..], b);
      Associate(a[0], Flatten(a[1..]), Flatten(b));
    }
  }

  /** The encodings of all items, one after the other. */
  function FlatMap<T>(f: T -> seq<byte>, xs: seq<T>): seq<byte> {
    if xs == [] then [] else f(xs[0]) + FlatMap(f, xs[1..])
  }

  lemma {:induction false} FlatMapConcat<T>(f: T -> seq<byte>, a: seq<T>, b: seq<T>)
    ensures FlatMap(f, a + b) == FlatMap(f, a) + FlatMap(f, b)
  {
    if a == [] {
      assert a + b == b;
    } else {
      assert (a + b)[1..] == a[1..] + b;
      FlatMapConcat(f, a[1..], b);
      Associate(f(a[0]), FlatMap(f, a[1..]), FlatMap(f, b));
    }
  }

  lemma FlatMapCons<T>(f: T -> seq<byte>, x: T, rest: seq<T>)
    ensures FlatMap(f, [x] + rest) == f(x) + FlatMap(f, rest)
    ensures FlatMap(f, [x]) == f(x)
  {
    assert ([x] + rest)[1..] == rest;
    assert [x][1..] == [];
  }

  function Min(a: nat, b: nat): nat {
    if a <= b then a else b
  }
}
