/** Bytes, unsigned 32-bit words in both byte orders, and the digest function
    shared by the three ends of the command and sensor frames. */
module Bytes {

  type byte = b: int | 0 <= b < 256

  const TWO32: int := 0x1_0000_0000

  type uint32 = n: int | 0 <= n < 0x1_0000_0000

  /** The 32-byte digest every frame carries. SHA-256 (FIPS 180-4, section 6.2)
      is not modelled: every result below holds for any function of this type. */
  type Digest = d: seq<byte> | |d| == 32 witness seq(32, _ => 0)

  type HashFn = seq<byte> -> Digest

  /** `h` never maps two different messages of length `len` to the same digest.
      Only the tamper-detection results depend on it. */
  ghost predicate InjectiveOn(h: HashFn, len: nat) {
    forall a: seq<byte>, b: seq<byte> :: |a| == len && |b| == len && a != b ==> h(a) != h(b)
  }

  /** Most significant byte first, as Node's `Buffer.writeUInt32BE` writes. */
  function BE32(n: uint32): (r: seq<byte>)
    ensures |r| == 4
    ensures ReadBE32(r) == n
  {
    Digits(n);
    [n / 0x100_0000, (n / 0x1_0000) % 256, (n / 0x100) % 256, n % 256]
  }

  /** Least significant byte first, as `struct.pack('<I')` writes and as a
      little-endian CPU stores a `uint32_t`. */
  function LE32(n: uint32): (r: seq<byte>)
    ensures |r| == 4
    ensures ReadLE32(r) == n
  {
    Digits(n);
    [n % 256, (n / 0x100) % 256, (n / 0x1_0000) % 256, n / 0x100_0000]
  }

  function ReadBE32(b: seq<byte>): (n: uint32)
    requires |b| == 4
  {
    b[0] as int * 0x100_0000 + b[1] as int * 0x1_0000 + b[2] as int * 0x100 + b[3]
  }

  /** A little-endian read is a big-endian read of the reversed bytes. */
  function ReadLE32(b: seq<byte>): (n: uint32)
    requires |b| == 4
    ensures n == ReadBE32(Reverse4(b))
  {
    b[3] as int * 0x100_0000 + b[2] as int * 0x1_0000 + b[1] as int * 0x100 + b[0]
  }

  function Reverse4(b: seq<byte>): (r: seq<byte>)
    requires |b| == 4
    ensures |r| == 4 && forall i :: 0 <= i < 4 ==> r[i] == b[3 - i]
  {
    [b[3], b[2], b[1], b[0]]
  }

  /** A 32-bit value is its four base-256 digits. */
  lemma {:induction false} Digits(n: uint32)
    ensures n == (n / 0x100_0000) * 0x100_0000 + ((n / 0x1_0000) % 256) * 0x1_0000
                 + ((n / 0x100) % 256) * 0x100 + n % 256
  {
    var q1 := n / 0x100;
    var q2 := q1 / 0x100;
    var q3 := q2 / 0x100;
    assert n == q1 * 0x100 + n % 256;
    assert q1 == q2 * 0x100 + q1 % 256;
    assert q2 == q3 * 0x100 + q2 % 256;
    assert q2 == n / 0x1_0000;
    assert q3 == n / 0x100_0000;
    assert q2 < 0x100 * 0x100;
  }

  /** Reading four bytes and writing them back in the same order gives them back. */
  lemma {:induction false} BE32OfReadBE32(b: seq<byte>)
    requires |b| == 4
    ensures BE32(ReadBE32(b)) == b
  {
    var n := ReadBE32(b);
    assert n / 0x100 == b[0] as int * 0x1_0000 + b[1] as int * 0x100 + b[2];
    assert n / 0x1_0000 == b[0] as int * 0x100 + b[1];
    assert n / 0x100_0000 == b[0];
  }

  lemma {:induction false} LE32OfReadLE32(b: seq<byte>)
    requires |b| == 4
    ensures LE32(ReadLE32(b)) == b
  {
    var n := ReadLE32(b);
    assert n / 0x100 == b[3] as int * 0x1_0000 + b[2] as int * 0x100 + b[1];
    assert n / 0x1_0000 == b[3] as int * 0x100 + b[2];
    assert n / 0x100_0000 == b[3];
  }

  lemma BE32Injective(m: uint32, n: uint32)
    requires BE32(m) == BE32(n)
    ensures m == n
  {
  }

  /** The two byte orders write the same digits in opposite order. */
  lemma LE32IsReversedBE32(n: uint32)
    ensures LE32(n) == Reverse4(BE32(n))
  {
  }

  /** Byte-swapping a 32-bit word: the value a little-endian reader obtains
      from a big-endian write. */
  function ByteSwap32(n: uint32): (r: uint32)
    ensures BE32(r) == Reverse4(BE32(n))
  {
    var r := ReadLE32(BE32(n));
    LE32OfReadLE32(BE32(n));
    LE32IsReversedBE32(r);
    r
  }

  /** A swapped read recovers the written value exactly when the four bytes
      read the same in both directions. */
  lemma {:induction false} ByteSwapFixedIffPalindrome(n: uint32)
    ensures ByteSwap32(n) == n <==> BE32(n) == Reverse4(BE32(n))
  {
    var b := BE32(n);
    LE32IsReversedBE32(n);
    if ByteSwap32(n) == n {
      LE32OfReadLE32(b);
    }
    if b == Reverse4(b) {
      assert ReadLE32(b) == ReadBE32(b);
    }
  }
}
