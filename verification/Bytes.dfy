/** Byte strings and the shared contract helpers of `common/assembly/util.ts`. */
module Bytes {
  newtype byte = x: int | 0 <= x < 256

  type Bytes = seq<byte>

  type u32 = x: int | 0 <= x < 0x1_0000_0000
  type u64 = x: int | 0 <= x < 0x1_0000_0000_0000_0000

  const U32_MODULUS := 0x1_0000_0000
  const U64_MODULUS := 0x1_0000_0000_0000_0000

  /** Koinos addresses are 25 bytes long. */
  const ADDRESS_LENGTH := 25

  predicate IsAddress(v: Bytes) {
    |v| == ADDRESS_LENGTH
  }

  /** u64 addition wraps, as `u64` arithmetic does in AssemblyScript. */
  function AddU64(a: u64, b: u64): (r: u64)
    ensures a + b < U64_MODULUS ==> r == a + b
  {
    (a + b) % U64_MODULUS
  }

  /** u32 increment wraps. */
  function IncU32(a: u32): (r: u32)
    ensures a + 1 < U32_MODULUS ==> r == a + 1
  {
    (a + 1) % U32_MODULUS
  }

  // -------------------------------------------------------------------------
  // concat
  // -------------------------------------------------------------------------

  /** All parts, one after the other. */
  function Flatten(parts: seq<Bytes>): Bytes {
    if parts == [] then [] else parts[0] + Flatten(parts[1..])
  }

  lemma {:induction false} FlattenSnoc(parts: seq<Bytes>, last: Bytes)
    ensures Flatten(parts + [last]) == Flatten(parts) + last
  {
    if parts == [] {
      assert parts + [last] == [last];
      assert Flatten([last]) == last + Flatten([]);
    } else {
      FlattenSnoc(parts[1..], last);
      assert (parts + [last])[1..] == parts[1..] + [last];
    }
  }

  lemma {:induction false} FlattenPrefix(parts: seq<Bytes>, n: nat)
    requires n <= |parts|
    ensures |Flatten(parts[..n])| <= |Flatten(parts)|
    decreases |parts| - n
  {
    if n == |parts| {
      assert parts[..n] == parts;
    } else {
      assert parts[..n + 1] == parts[..n] + [parts[n]];
      FlattenSnoc(parts[..n], parts[n]);
      FlattenPrefix(parts, n + 1);
    }
  }

  /** Concatenates byte strings into one freshly sized buffer. */
  method Concat(parts: seq<Bytes>) returns (out: array<byte>)
    ensures fresh(out)
    ensures out[..] == Flatten(parts)
  {
    var total := 0;
    for i := 0 to |parts|
      invariant total == |Flatten(parts[..i])|
    {
      assert parts[..i + 1] == parts[..i] + [parts[i]];
      FlattenSnoc(parts[..i], parts[i]);
      total := total + |parts[i]|;
    }
    assert parts[..|parts|] == parts;
    out := new byte[total];
    var offset := 0;
    for i := 0 to |parts|
      invariant offset == |Flatten(parts[..i])| <= out.Length
      invariant out.Length == |Flatten(parts)|
      invariant out[..offset] == Flatten(parts[..i])
    {
      assert parts[..i + 1] == parts[..i] + [parts[i]];
      FlattenSnoc(parts[..i], parts[i]);
      FlattenPrefix(parts, i + 1);
      forall k | 0 <= k < |parts[i]| {
        out[offset + k] := parts[i][k];
      }
      assert out[..offset + |parts[i]|] == Flatten(parts[..i]) + parts[i];
      offset := offset + |parts[i]|;
    }
    assert out[..] == out[..offset];
  }

  /** Two strings concatenated with a fixed-length first part determine both parts. */
  lemma ConcatInjectivePrefix(a: Bytes, b: Bytes, a': Bytes, b': Bytes)
    requires |a| == |a'|
    ensures a + b == a' + b' <==> a == a' && b == b'
  {
    if a + b == a' + b' {
      assert a == (a + b)[..|a|] == a';
      assert b == (a + b)[|a|..] == b';
    }
  }

  /** Two strings concatenated with a fixed-length second part determine both parts. */
  lemma ConcatInjectiveSuffix(a: Bytes, b: Bytes, a': Bytes, b': Bytes)
    requires |b| == |b'|
    ensures a + b == a' + b' <==> a == a' && b == b'
  {
    if a + b == a' + b' {
      assert |a| == |a'|;
      ConcatInjectivePrefix(a, b, a', b');
    }
  }

  // -------------------------------------------------------------------------
  // Big-endian integers and byte order
  // -------------------------------------------------------------------------

  /** The number a big-endian byte string denotes. */
  function BigEndian(b: Bytes): nat {
    if b == [] then 0 else BigEndian(b[..|b| - 1]) * 256 + b[|b| - 1] as int
  }

  /** 256 to the power n. */
  function Pow256(n: nat): (r: nat)
    ensures r >= 1
  {
    if n == 0 then 1 else 256 * Pow256(n - 1)
  }

  lemma {:induction false} BigEndianCons(h: byte, t: Bytes)
    ensures BigEndian([h] + t) == h as int * Pow256(|t|) + BigEndian(t)
  {
    if t == [] {
      assert [h] + t == [h];
      assert [h][..0] == [];
    } else {
      var t' := t[..|t| - 1];
      BigEndianCons(h, t');
      assert ([h] + t)[..|t|] == [h] + t';
    }
  }

  lemma {:induction false} BigEndianBound(b: Bytes)
    ensures BigEndian(b) < Pow256(|b|)
  {
    if b != [] {
      BigEndianBound(b[..|b| - 1]);
    }
  }

  lemma ShiftDigit(v: int, rest: int, digit: int, p: int)
    requires v == rest * 256 + digit
    ensures v * p == rest * (256 * p) + digit * p
  {
  }

  lemma DropDigit(v: nat, n: nat)
    requires v < Pow256(n + 1)
    ensures v / 256 < Pow256(n)
  {
  }

  /** A smaller leading digit decides, whatever follows. */
  lemma LeadingDigit(x: nat, y: nat, s: nat, t: nat, p: nat)
    requires x < y && s < p && t < p
    ensures x * p + s < y * p + t
  {
    assert (x + 1) * p <= y * p;
  }

  /** Big-endian u64: filled from the last byte to the first. */
  method U64be(v: u64) returns (out: array<byte>)
    ensures fresh(out) && out.Length == 8
    ensures BigEndian(out[..]) == v
  {
    out := new byte[8];
    var rest: int := v;
    var i := 7;
    assert out[8..] == [];
    while i >= 0
      invariant -1 <= i <= 7
      invariant 0 <= rest < Pow256(i + 1)
      invariant v == rest * Pow256(7 - i) + BigEndian(out[i + 1..])
    {
      ghost var tail := out[i + 1..];
      ghost var before := rest;
      DropDigit(rest, i);
      out[i] := (rest % 256) as byte;
      rest := rest / 256;
      assert out[i + 1..] == tail;
      assert out[i..] == [out[i]] + tail;
      BigEndianCons(out[i], tail);
      ShiftDigit(before, rest, out[i] as int, Pow256(7 - i));
      i := i - 1;
    }
    assert out[0..] == out[..];
    assert rest == 0;
  }

  /** Lexicographic byte comparison: -1, 0 or 1. */
  method Compare(a: Bytes, b: Bytes) returns (c: int)
    ensures c == Order(a, b)
  {
    var n := if |a| < |b| then |a| else |b|;
    var i := 0;
    while i < n
      invariant 0 <= i <= n
      invariant Order(a, b) == Order(a[i..], b[i..])
    {
      if a[i] < b[i] {
        return -1;
      }
      if a[i] > b[i] {
        return 1;
      }
      assert a[i..][1..] == a[i + 1..] && b[i..][1..] == b[i + 1..];
      i := i + 1;
    }
    if |a| < |b| {
      return -1;
    }
    if |a| > |b| {
      return 1;
    }
    return 0;
  }

  /** Lexicographic order of byte strings. */
  function Order(a: Bytes, b: Bytes): (c: int)
    ensures -1 <= c <= 1
    ensures c == 0 <==> a == b
  {
    if a == [] then (if b == [] then 0 else -1)
    else if b == [] then 1
    else if a[0] < b[0] then -1
    else if a[0] > b[0] then 1
    else
      assert a == [a[0]] + a[1..] && b == [b[0]] + b[1..];
      Order(a[1..], b[1..])
  }

  /** Byte order of equally long big-endian strings is numeric order. */
  lemma {:induction false} OrderIsNumeric(a: Bytes, b: Bytes)
    requires |a| == |b|
    ensures BigEndian(a) < BigEndian(b) <==> Order(a, b) < 0
    ensures BigEndian(a) == BigEndian(b) <==> a == b
  {
    if a != [] {
      assert a == [a[0]] + a[1..] && b == [b[0]] + b[1..];
      BigEndianCons(a[0], a[1..]);
      BigEndianCons(b[0], b[1..]);
      BigEndianBound(a[1..]);
      BigEndianBound(b[1..]);
      OrderIsNumeric(a[1..], b[1..]);
      if a[0] < b[0] {
        LeadingDigit(a[0] as int, b[0] as int, BigEndian(a[1..]), BigEndian(b[1..]), Pow256(|a[1..]|));
      } else if b[0] < a[0] {
        LeadingDigit(b[0] as int, a[0] as int, BigEndian(b[1..]), BigEndian(a[1..]), Pow256(|a[1..]|));
      }
    }
  }
}
