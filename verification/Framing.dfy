/** Bytes and the length framing every canonical digest input is built from. */
module Framing {
  /** One byte, written as the character of that number so that literals can be used. */
  type Byte = c: char | c as int < 256

  type Bytes = seq<Byte>

  /** 256 to the power `width`. */
  function Bound(width: nat): nat {
    if width == 0 then 1 else 256 * Bound(width - 1)
  }

  const U64_BOUND: nat := Bound(8)

  /** `n` in `width` big-endian bytes, as `to_be_bytes` writes it. */
  function BigEndian(n: nat, width: nat): (bytes: Bytes)
    ensures |bytes| == width
  {
    if width == 0 then [] else BigEndian(n / 256, width - 1) + [(n % 256) as char]
  }

  function Value(bytes: Bytes): nat {
    if bytes == [] then 0 else Value(bytes[..|bytes| - 1]) * 256 + bytes[|bytes| - 1] as int
  }

  lemma {:induction false} BigEndianValue(n: nat, width: nat)
    requires n < Bound(width)
    ensures Value(BigEndian(n, width)) == n
    decreases width
  {
    if width == 0 {
    } else {
      var high := BigEndian(n / 256, width - 1);
      assert BigEndian(n, width)[..width - 1] == high;
      BigEndianValue(n / 256, width - 1);
    }
  }

  /** A length and then the bytes themselves (`update_bytes`). */
  function Field(bytes: Bytes): (framed: Bytes)
    ensures |framed| == 8 + |bytes|
  {
    BigEndian(|bytes|, 8) + bytes
  }

  predicate Fits(bytes: Bytes) { |bytes| < U64_BOUND }

  /** What follows a field of fixed length is found by cutting at that length. */
  lemma Cut(a: Bytes, b: Bytes, x: Bytes, y: Bytes)
    requires a + x == b + y && |a| == |b|
    ensures a == b && x == y
  {
    assert a == (a + x)[..|a|] && b == (b + y)[..|b|];
    assert x == (a + x)[|a|..] && y == (b + y)[|b|..];
  }

  /** A framed field ends where its length says, whatever follows it. */
  lemma FieldCut(a: Bytes, b: Bytes, x: Bytes, y: Bytes)
    requires Field(a) + x == Field(b) + y && Fits(a) && Fits(b)
    ensures a == b && x == y
  {
    var la, lb := BigEndian(|a|, 8), BigEndian(|b|, 8);
    assert Field(a) + x == la + (a + x) && Field(b) + y == lb + (b + y);
    Cut(la, lb, a + x, b + y);
    BigEndianValue(|a|, 8);
    BigEndianValue(|b|, 8);
    Cut(a, b, x, y);
  }

  /** Likewise for a bare number. */
  lemma NumberCut(m: nat, n: nat, x: Bytes, y: Bytes)
    requires BigEndian(m, 8) + x == BigEndian(n, 8) + y && m < U64_BOUND && n < U64_BOUND
    ensures m == n && x == y
  {
    Cut(BigEndian(m, 8), BigEndian(n, 8), x, y);
    BigEndianValue(m, 8);
    BigEndianValue(n, 8);
  }

  /** The hash does not confuse these two inputs. */
  predicate NoCollision(hash: Bytes -> Bytes, x: Bytes, y: Bytes) {
    hash(x) == hash(y) ==> x == y
  }

  /** What a digest has been fed so far; its value is a function of exactly these bytes. */
  class RunningDigest {
    var fed: Bytes

    constructor (domain: Bytes)
      ensures fed == domain
    {
      fed := domain;
    }

    method Update(bytes: Bytes)
      modifies this
      ensures fed == old(fed) + bytes
    {
      fed := fed + bytes;
    }

    /** `update_bytes`. */
    method UpdateBytes(bytes: Bytes)
      modifies this
      ensures fed == old(fed) + Field(bytes)
    {
      Update(BigEndian(|bytes|, 8));
      Update(bytes);
    }
  }
}
