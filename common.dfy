/** Shared vocabulary of the Mantle transaction layer: optional values and
    error results, bytes, fixed-width integers, 20-byte addresses, 32-byte
    hashes and big-endian encodings. */
module Common {

  /** A Go pointer that may be nil, or a lookup that may fail. */
  datatype Option<+T> = None | Some(value: T) {
    function GetOr(default: T): T {
      match this
      case Some(v) => v
      case None => default
    }
  }

  /** A Go `(T, error)` pair: either a value or an error message. */
  datatype Result<+T> = Ok(value: T) | Err(msg: string)

  /** Go's `byte`. */
  newtype byte = x: int | 0 <= x < 256

  const UINT64_LIMIT: nat := 0x1_0000_0000_0000_0000
  const UINT256_LIMIT: nat :=
    0x1_0000_0000_0000_0000_0000_0000_0000_0000_0000_0000_0000_0000_0000_0000_0000_0000

  /** Go's `uint64`. */
  type u64 = x: nat | x < UINT64_LIMIT

  function Zeros(n: nat): (r: seq<byte>)
    ensures |r| == n
    ensures forall i :: 0 <= i < n ==> r[i] == 0
  {
    seq(n, _ => 0 as byte)
  }

  /** `common.Address`: 20 bytes. */
  type Address = s: seq<byte> | |s| == 20 witness Zeros(20)

  /** `common.Hash`: 32 bytes. */
  type Hash = s: seq<byte> | |s| == 32 witness Zeros(32)

  const ZeroAddress: Address := Zeros(20)
  const ZeroHash: Hash := Zeros(32)

  /** `*big.Int` as it may be found in a struct field: nil or a value. */
  type BigInt = Option<nat>

  /** What `new(big.Int)` followed by a `Set` guarded by `x != nil` yields. */
  function OrZero(x: BigInt): (r: BigInt)
    ensures r.Some?
    ensures x.Some? ==> r == x
    ensures x.None? ==> r == Some(0)
  {
    Some(x.GetOr(0))
  }

  function Pow256(k: nat): (r: nat)
    ensures r >= 1
  {
    if k == 0 then 1 else 256 * Pow256(k - 1)
  }

  /** Byte `k` of `n`, counting from the low-order end. */
  function ByteOf(n: nat, k: nat): byte
  {
    if k == 0 then (n % 256) as byte else ByteOf(n / 256, k - 1)
  }

  /** The `len` low-order bytes of `n`, most significant first: the layout of
      `binary.BigEndian.PutUint64` (len 8), of `math.U256Bytes` (len 32) and of
      `common.HexToAddress` / `BigToAddress` (len 20), all of which keep only
      the low-order bytes of a wider value. */
  function ToBigEndian(n: nat, len: nat): (r: seq<byte>)
    ensures |r| == len
  {
    seq(len, i requires 0 <= i < len => ByteOf(n, len - 1 - i))
  }

  /** The last byte of an encoding is the low-order byte; the bytes before
      it encode the rest of the value. */
  lemma ToBigEndianSnoc(n: nat, len: nat)
    requires len > 0
    ensures ToBigEndian(n, len) == ToBigEndian(n / 256, len - 1) + [(n % 256) as byte]
  {
    var lhs, rhs := ToBigEndian(n, len), ToBigEndian(n / 256, len - 1) + [(n % 256) as byte];
    forall i | 0 <= i < len
      ensures lhs[i] == rhs[i]
    {
      if i < len - 1 {
        assert ByteOf(n, len - 1 - i) == ByteOf(n / 256, len - 2 - i);
      }
    }
  }

  /** The unsigned integer whose big-endian bytes are `s`; the reading done
      by `binary.BigEndian.Uint64` for 8 bytes. */
  function FromBigEndian(s: seq<byte>): (r: nat)
    ensures r < Pow256(|s|)
  {
    if s == [] then 0 else FromBigEndian(s[..|s| - 1]) * 256 + s[|s| - 1] as nat
  }

  lemma {:induction false} FromBigEndianAppend(s: seq<byte>, b: byte)
    ensures FromBigEndian(s + [b]) == FromBigEndian(s) * 256 + b as nat
  {
    assert (s + [b])[..|s|] == s;
  }

  /** Encoding then decoding gives back every value that fits in `len` bytes. */
  lemma {:induction false} FromToBigEndian(n: nat, len: nat)
    requires n < Pow256(len)
    ensures FromBigEndian(ToBigEndian(n, len)) == n
    decreases len
  {
    if len > 0 {
      var q, r := n / 256, n % 256;
      var p := Pow256(len - 1);
      assert n == 256 * q + r;
      assert Pow256(len) == 256 * p;
      assert q < p;
      FromToBigEndian(q, len - 1);
      var init := ToBigEndian(q, len - 1);
      FromBigEndianAppend(init, r as byte);
      ToBigEndianSnoc(n, len);
      assert FromBigEndian(ToBigEndian(n, len)) == q * 256 + r;
    }
  }

  /** Decoding then encoding at the same width gives back the bytes. */
  lemma {:induction false} ToFromBigEndian(s: seq<byte>)
    ensures ToBigEndian(FromBigEndian(s), |s|) == s
  {
    if s != [] {
      var init := s[..|s| - 1];
      var n := FromBigEndian(s);
      assert n / 256 == FromBigEndian(init) && n % 256 == s[|s| - 1] as nat;
      ToFromBigEndian(init);
      ToBigEndianSnoc(n, |s|);
      assert s == init + [s[|s| - 1]];
    }
  }

  /** Values below 2^(8 len) have pairwise distinct encodings. */
  lemma ToBigEndianInjective(m: nat, n: nat, len: nat)
    requires m < Pow256(len) && n < Pow256(len)
    requires ToBigEndian(m, len) == ToBigEndian(n, len)
    ensures m == n
  {
    FromToBigEndian(m, len);
    FromToBigEndian(n, len);
  }

  lemma Pow256Fixed()
    ensures Pow256(8) == UINT64_LIMIT
    ensures Pow256(20) == 0x1_0000_0000_0000_0000_0000_0000_0000_0000_0000_0000
    ensures Pow256(32) == UINT256_LIMIT
  {
    Pow256Add(8, 8);
    Pow256Add(16, 16);
  }

  lemma {:induction false} Pow256Add(a: nat, b: nat)
    ensures Pow256(a + b) == Pow256(a) * Pow256(b)
  {
    if a > 0 {
      Pow256Add(a - 1, b);
      assert Pow256(a + b) == 256 * Pow256(a - 1 + b);
    }
  }

  /** `common.HexToAddress` of a numeric literal: its low-order 20 bytes. */
  function AddressOf(n: nat): (a: Address)
  {
    ToBigEndian(n, 20)
  }

  /** `common.CopyBytes`: a fresh array with the same contents. */
  method CopyBytes(a: array<byte>) returns (b: array<byte>)
    ensures fresh(b)
    ensures b[..] == a[..]
  {
    b := new byte[a.Length];
    var i := 0;
    while i < a.Length
      invariant 0 <= i <= a.Length
      invariant b[..i] == a[..i]
    {
      b[i] := a[i];
      i := i + 1;
    }
    assert b[..] == b[..a.Length];
  }
}
