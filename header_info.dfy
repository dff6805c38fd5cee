/** The rollup metadata a block header carries: the send root in `Extra`, and
    three big-endian 64-bit counters at the front of `MixDigest`. */
module HeaderInfoCodec {
  import opened Common

  datatype HeaderInfo = HeaderInfo(
    sendRoot: Hash,
    sendCount: u64,
    l1BlockNumber: u64,
    mtOSFormatVersion: u64)

  /** `HeaderInfo{}`. */
  const EmptyHeaderInfo := HeaderInfo(ZeroHash, 0, 0, 0)

  /** The part of `types.Header` the codec reads or writes, and some fields
      it must leave alone. `MixDigest` is a `common.Hash` value and `Extra` a
      byte slice; both are replaced wholesale, never written through. */
  class Header {
    var ParentHash: Hash
    var Number: BigInt
    var GasLimit: u64
    var BaseFee: BigInt
    var MixDigest: Hash
    var Extra: seq<byte>

    constructor (parentHash: Hash, number: BigInt, gasLimit: u64, baseFee: BigInt,
                 mixDigest: Hash, extra: seq<byte>)
      ensures ParentHash == parentHash && Number == number && GasLimit == gasLimit
      ensures BaseFee == baseFee && MixDigest == mixDigest && Extra == extra
    {
      ParentHash, Number, GasLimit := parentHash, number, gasLimit;
      BaseFee, MixDigest, Extra := baseFee, mixDigest, extra;
    }
  }

  // ---------------------------------------------------------------------
  // Encoding.

  /** `extra()`: the send root's 32 bytes. */
  function Extra(info: HeaderInfo): seq<byte>
  {
    info.sendRoot
  }

  /** `mixDigest()`, as a value: the three counters, eight bytes each, then
      eight zero bytes. */
  function MixDigest(info: HeaderInfo): (d: Hash)
  {
    ToBigEndian(info.sendCount, 8) + ToBigEndian(info.l1BlockNumber, 8)
      + ToBigEndian(info.mtOSFormatVersion, 8) + Zeros(8)
  }

  /** `binary.BigEndian.PutUint64(b[off:off+8], v)`: writes eight bytes in
      place and nothing else. */
  method PutUint64(b: array<byte>, off: nat, v: u64)
    requires off + 8 <= b.Length
    modifies b
    ensures b[off..off + 8] == ToBigEndian(v, 8)
    ensures forall i :: 0 <= i < b.Length && !(off <= i < off + 8) ==> b[i] == old(b[i])
  {
    var w := ToBigEndian(v, 8);
    forall i | 0 <= i < 8 {
      b[off + i] := w[i];
    }
  }

  /** `mixDigest()`: a zeroed 32-byte array filled by three `PutUint64`s. */
  method ComputeMixDigest(info: HeaderInfo) returns (d: Hash)
    ensures d == MixDigest(info)
  {
    var a := new byte[32](_ => 0);
    PutUint64(a, 0, info.sendCount);
    PutUint64(a, 8, info.l1BlockNumber);
    PutUint64(a, 16, info.mtOSFormatVersion);
    assert a[24..32] == Zeros(8);
    assert a[..] == a[0..8] + a[8..16] + a[16..24] + a[24..32];
    d := a[..];
  }

  /** `UpdateHeaderWithInfo`: replaces the digest and the extra field, and
      (by its frame) nothing else; a header with a non-zero base fee then
      decodes back to `info`. */
  method UpdateHeaderWithInfo(info: HeaderInfo, header: Header)
    modifies header`MixDigest, header`Extra
    ensures header.MixDigest == MixDigest(info)
    ensures header.Extra == Extra(info)
    ensures header.BaseFee.Some? && header.BaseFee.value != 0 ==>
              DeserializeHeaderExtraInformation(header) == Ok(info)
  {
    var d := ComputeMixDigest(info);
    header.MixDigest := d;
    header.Extra := Extra(info);
    if header.BaseFee.Some? && header.BaseFee.value != 0 {
      HeaderInfoRoundTrip(info, header.BaseFee);
    }
  }

  // ---------------------------------------------------------------------
  // Decoding.

  /** `binary.BigEndian.Uint64(s[off:off+8])`. */
  function Uint64At(s: seq<byte>, off: nat): u64
    requires off + 8 <= |s|
  {
    Pow256Fixed();
    FromBigEndian(s[off..off + 8])
  }

  const ExtraLengthError := "unexpected header extra field length"

  /** `DeserializeHeaderExtraInformation` on the fields it reads. */
  function DecodeHeaderInfo(baseFee: BigInt, extra: seq<byte>, mixDigest: Hash): Result<HeaderInfo>
  {
    if baseFee.None? || baseFee.value == 0 || |extra| == 0 then
      Ok(EmptyHeaderInfo)  // imported blocks and the genesis block
    else if |extra| != 32 then
      Err(ExtraLengthError)
    else
      Ok(HeaderInfo(extra, Uint64At(mixDigest, 0), Uint64At(mixDigest, 8), Uint64At(mixDigest, 16)))
  }

  function DeserializeHeaderExtraInformation(header: Header): Result<HeaderInfo>
    reads header
  {
    DecodeHeaderInfo(header.BaseFee, header.Extra, header.MixDigest)
  }

  // ---------------------------------------------------------------------
  // Properties.

  /** Slices of four concatenated blocks of eight bytes. */
  lemma EightByteBlocks(a: seq<byte>, b: seq<byte>, c: seq<byte>, d: seq<byte>)
    requires |a| == 8 && |b| == 8 && |c| == 8 && |d| == 8
    ensures var s := a + b + c + d; s[0..8] == a && s[8..16] == b && s[16..24] == c && s[24..32] == d
  {
    var s := a + b + c + d;
    assert s[0..8] == a;
    assert s[8..16] == b;
    assert s[16..24] == c;
    assert s[24..32] == d;
  }

  /** Bytes 0..24 of the digest hold the send count, the L1 block number and
      the format version, big-endian; bytes 24..32 are zero. */
  lemma MixDigestLayout(info: HeaderInfo)
    ensures MixDigest(info)[0..8] == ToBigEndian(info.sendCount, 8)
    ensures MixDigest(info)[8..16] == ToBigEndian(info.l1BlockNumber, 8)
    ensures MixDigest(info)[16..24] == ToBigEndian(info.mtOSFormatVersion, 8)
    ensures MixDigest(info)[24..32] == Zeros(8)
  {
    EightByteBlocks(ToBigEndian(info.sendCount, 8), ToBigEndian(info.l1BlockNumber, 8),
      ToBigEndian(info.mtOSFormatVersion, 8), Zeros(8));
  }

  /** Decoding what was encoded, under a non-zero base fee, gives back the
      metadata with no error. */
  lemma HeaderInfoRoundTrip(info: HeaderInfo, baseFee: BigInt)
    requires baseFee.Some? && baseFee.value != 0
    ensures DecodeHeaderInfo(baseFee, Extra(info), MixDigest(info)) == Ok(info)
  {
    MixDigestLayout(info);
    Pow256Fixed();
    FromToBigEndian(info.sendCount, 8);
    FromToBigEndian(info.l1BlockNumber, 8);
    FromToBigEndian(info.mtOSFormatVersion, 8);
  }

  /** Without a base fee, or with an empty extra field, decoding yields the
      empty metadata and no error, whatever the digest holds. */
  lemma DecodeEarlyExit(baseFee: BigInt, extra: seq<byte>, mixDigest: Hash)
    requires baseFee.None? || baseFee.value == 0 || extra == []
    ensures DecodeHeaderInfo(baseFee, extra, mixDigest) == Ok(EmptyHeaderInfo)
  {
  }

  /** Decoding fails exactly when there is a non-zero base fee and an extra
      field that is neither empty nor 32 bytes long. */
  lemma DecodeErrorIff(baseFee: BigInt, extra: seq<byte>, mixDigest: Hash)
    ensures DecodeHeaderInfo(baseFee, extra, mixDigest).Err? <==>
              baseFee.Some? && baseFee.value != 0 && |extra| != 0 && |extra| != 32
  {
  }

  /** A successful decode of a 32-byte extra field is the inverse of the
      encoding: re-encoding the result gives back the extra field and the
      first 24 digest bytes. */
  lemma DecodeThenEncode(baseFee: BigInt, extra: seq<byte>, mixDigest: Hash)
    requires baseFee.Some? && baseFee.value != 0 && |extra| == 32
    ensures DecodeHeaderInfo(baseFee, extra, mixDigest).Ok?
    ensures var info := DecodeHeaderInfo(baseFee, extra, mixDigest).value;
      Extra(info) == extra && MixDigest(info)[..24] == mixDigest[..24]
  {
    var info := DecodeHeaderInfo(baseFee, extra, mixDigest).value;
    MixDigestLayout(info);
    ToFromBigEndian(mixDigest[0..8]);
    ToFromBigEndian(mixDigest[8..16]);
    ToFromBigEndian(mixDigest[16..24]);
    assert MixDigest(info)[..24] == MixDigest(info)[0..8] + MixDigest(info)[8..16] + MixDigest(info)[16..24];
    assert mixDigest[..24] == mixDigest[0..8] + mixDigest[8..16] + mixDigest[16..24];
  }
}
