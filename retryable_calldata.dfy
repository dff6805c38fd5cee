/** The layout of the ticket-submission calldata, and a decoder for it that
    follows the Solidity contract ABI (selector, head of 32-byte words, the
    dynamic `bytes` argument located through its offset word). */
module RetryableCalldata {
  import opened Common
  import opened MantleTypes

  /** The arguments of the ticket-management call, as its callee sees them. */
  datatype RetryableCall = RetryableCall(
    requestId: Hash,
    l1BaseFee: nat,
    depositValue: nat,
    retryValue: nat,
    gasFeeCap: nat,
    gas: nat,
    maxSubmissionFee: nat,
    feeRefundAddr: Address,
    beneficiary: Address,
    retryTo: Address,
    retryData: seq<byte>)

  /** The call a ticket submission stands for; contract creation (no retry
      destination) is passed as the zero address. */
  function CallOf(b: SubmitRetryableBody): RetryableCall
    requires CalldataEncodable(b)
  {
    RetryableCall(b.requestId, b.l1BaseFee.value, b.depositValue.value, b.retryValue.value,
      b.gasFeeCap.value, b.gas, b.maxSubmissionFee.value, b.feeRefundAddr, b.beneficiary,
      b.retryTo.GetOr(ZeroAddress), b.retryData)
  }

  /** The k-th 32-byte argument word. */
  function WordAt(a: seq<byte>, k: nat): seq<byte>
    requires 32 * k + 32 <= |a|
  {
    a[32 * k .. 32 * k + 32]
  }

  /** Decodes a call to the ticket-management entry point: the selector, then
      the arguments. */
  function DecodeSubmitRetryableCall(d: seq<byte>): Option<RetryableCall>
  {
    if |d| < 4 || d[..4] != SubmitRetryableSelector then None
    else DecodeSubmitRetryableArguments(d[4..])
  }

  /** Decodes the arguments: eleven head words, the last of which locates the
      length word of the dynamic `bytes` argument. */
  function DecodeSubmitRetryableArguments(a: seq<byte>): Option<RetryableCall>
  {
    if |a| < 32 * 11 then None
    else
      var offset := FromBigEndian(WordAt(a, 10));
      if offset + 32 > |a| then None
      else
        var len := FromBigEndian(a[offset .. offset + 32]);
        if offset + 32 + len > |a| then None
        else
          Some(RetryableCall(
            WordAt(a, 0),
            FromBigEndian(WordAt(a, 1)),
            FromBigEndian(WordAt(a, 2)),
            FromBigEndian(WordAt(a, 3)),
            FromBigEndian(WordAt(a, 4)),
            FromBigEndian(WordAt(a, 5)),
            FromBigEndian(WordAt(a, 6)),
            WordAt(a, 7)[12..],
            WordAt(a, 8)[12..],
            WordAt(a, 9)[12..],
            a[offset + 32 .. offset + 32 + len]))
  }

  // ---------------------------------------------------------------------
  // Sequence facts.

  lemma SliceRight(a: seq<byte>, b: seq<byte>, i: nat, j: nat)
    requires |a| <= i <= j <= |a| + |b|
    ensures (a + b)[i..j] == b[i - |a| .. j - |a|]
  {
  }

  lemma SliceLeft(a: seq<byte>, b: seq<byte>, i: nat, j: nat)
    requires i <= j <= |a|
    ensures (a + b)[i..j] == a[i..j]
  {
  }

  /** Word k of the head occupies bytes 32k .. 32k + 32. */
  lemma {:induction false} StaticHeadWord(b: SubmitRetryableBody, n: nat, k: nat)
    requires CalldataEncodable(b) && k < n <= 10
    ensures StaticHead(b, n)[32 * k .. 32 * k + 32] == StaticWord(b, k)
  {
    var h, w := StaticHead(b, n - 1), StaticWord(b, n - 1);
    assert StaticHead(b, n) == h + w;
    if k < n - 1 {
      StaticHeadWord(b, n - 1, k);
      SliceLeft(h, w, 32 * k, 32 * k + 32);
    } else {
      SliceRight(h, w, 32 * k, 32 * k + 32);
    }
  }

  lemma PaddingRoundsUp(n: nat)
    ensures n + Padding(n) == 32 * ((n + 31) / 32)
    ensures Padding(n) < 32
  {
    var q, r := n / 32, n % 32;
    assert n == 32 * q + r;
    if r > 0 {
      assert (n + 31) / 32 == q + 1;
    } else {
      assert (n + 31) / 32 == q;
    }
  }

  // ---------------------------------------------------------------------
  // The layout.

  /** Byte for byte, after the selector: the ten static words; the offset
      word 352 (eleven words, the size of the head in the contract ABI); the
      length word; the retry data; zero padding. */
  lemma SubmitRetryableArgumentsLayout(b: SubmitRetryableBody)
    requires CalldataEncodable(b)
    ensures var a, n := SubmitRetryableArguments(b), |b.retryData|;
      && |a| == 384 + 32 * ((n + 31) / 32)
      && a[..320] == StaticHead(b, 10)
      && a[320..352] == UintWord(352)
      && a[352..384] == UintWord(n)
      && a[384..384 + n] == b.retryData
      && a[384 + n..] == Zeros(Padding(n))
  {
    var n := |b.retryData|;
    PaddingRoundsUp(n);
    var a := SubmitRetryableArguments(b);
    var head := StaticHead(b, 10);
    var tail := UintWord(352) + UintWord(n) + b.retryData + Zeros(Padding(n));
    assert a == head + tail;
    SliceLeft(head, tail, 0, 320);
    TailSlices(UintWord(352), UintWord(n), b.retryData, Zeros(Padding(n)));
    SliceRight(head, tail, 320, 352);
    SliceRight(head, tail, 352, 384);
    SliceRight(head, tail, 384, 384 + n);
    SliceRight(head, tail, 384 + n, |a|);
  }

  /** The ten static words, in order, at the front of the arguments: request
      id, L1 base fee, deposit value, retry value, fee cap, gas, maximum
      submission fee, fee-refund address, beneficiary, retry destination. */
  lemma SubmitRetryableArgumentWords(b: SubmitRetryableBody)
    requires CalldataEncodable(b)
    ensures var a := SubmitRetryableArguments(b);
      forall k :: 0 <= k < 10 ==> a[32 * k .. 32 * k + 32] == StaticWord(b, k)
  {
    var a := SubmitRetryableArguments(b);
    SubmitRetryableArgumentsLayout(b);
    forall k | 0 <= k < 10
      ensures a[32 * k .. 32 * k + 32] == StaticWord(b, k)
    {
      StaticHeadWord(b, 10, k);
      assert a[32 * k .. 32 * k + 32] == a[..320][32 * k .. 32 * k + 32];
    }
  }

  /** The pieces of the dynamic tail: two words, the data, the padding. */
  lemma TailSlices(w1: seq<byte>, w2: seq<byte>, d: seq<byte>, p: seq<byte>)
    requires |w1| == 32 && |w2| == 32
    ensures var t := w1 + w2 + d + p;
      && t[0..32] == w1 && t[32..64] == w2 && t[64..64 + |d|] == d && t[64 + |d|..] == p
  {
    var t := w1 + w2 + d + p;
    assert t[0..32] == w1;
    assert t[32..64] == w2;
    assert t[64..64 + |d|] == d;
    assert t[64 + |d|..] == p;
  }

  /** The whole calldata: four selector bytes c9 f9 5d 32, then the
      arguments; 388 bytes plus the retry data rounded up to whole words. */
  lemma SubmitRetryableCalldataLayout(b: SubmitRetryableBody)
    requires CalldataEncodable(b)
    ensures var d, n := SubmitRetryableCalldata(b), |b.retryData|;
      && |d| == 388 + 32 * ((n + 31) / 32)
      && d[..4] == SubmitRetryableSelector
      && d[4..] == SubmitRetryableArguments(b)
  {
    SubmitRetryableArgumentsLayout(b);
    var d := SubmitRetryableCalldata(b);
    assert d[..4] == SubmitRetryableSelector;
  }

  /** A word read back gives the value written, for every 256-bit value. */
  lemma UintWordRoundTrip(n: nat)
    requires n < UINT256_LIMIT
    ensures FromBigEndian(UintWord(n)) == n
  {
    Pow256Fixed();
    FromToBigEndian(n, 32);
  }

  /** Static word k, read back from 32k .. 32k + 32 of the head. */
  lemma HeadWordAt(b: SubmitRetryableBody, a: seq<byte>, k: nat)
    requires CalldataEncodable(b) && |a| >= 320 && a[..320] == StaticHead(b, 10) && k < 10
    ensures WordAt(a, k) == StaticWord(b, k)
  {
    StaticHeadWord(b, 10, k);
    assert WordAt(a, k) == a[..320][32 * k .. 32 * k + 32];
  }

  /** Each numeric static word decodes to the field it encodes. */
  lemma DecodeStaticUintWords(b: SubmitRetryableBody, a: seq<byte>)
    requires CalldataEncodable(b) && |a| >= 320 && a[..320] == StaticHead(b, 10)
    ensures WordAt(a, 0) == b.requestId
    ensures FromBigEndian(WordAt(a, 1)) == b.l1BaseFee.value
    ensures FromBigEndian(WordAt(a, 2)) == b.depositValue.value
    ensures FromBigEndian(WordAt(a, 3)) == b.retryValue.value
    ensures FromBigEndian(WordAt(a, 4)) == b.gasFeeCap.value
    ensures FromBigEndian(WordAt(a, 5)) == b.gas
    ensures FromBigEndian(WordAt(a, 6)) == b.maxSubmissionFee.value
  {
    HeadWordAt(b, a, 0);
    HeadWordAt(b, a, 1);
    UintWordRoundTrip(b.l1BaseFee.value);
    HeadWordAt(b, a, 2);
    UintWordRoundTrip(b.depositValue.value);
    HeadWordAt(b, a, 3);
    UintWordRoundTrip(b.retryValue.value);
    HeadWordAt(b, a, 4);
    UintWordRoundTrip(b.gasFeeCap.value);
    HeadWordAt(b, a, 5);
    UintWordRoundTrip(b.gas);
    HeadWordAt(b, a, 6);
    UintWordRoundTrip(b.maxSubmissionFee.value);
  }

  /** The address sits in the last 20 bytes of its word. */
  lemma AddressWordTail(x: Address)
    ensures AddressWord(x)[12..] == x
  {
  }

  /** Each address word holds its address in its last 20 bytes. */
  lemma DecodeStaticAddressWords(b: SubmitRetryableBody, a: seq<byte>)
    requires CalldataEncodable(b) && |a| >= 320 && a[..320] == StaticHead(b, 10)
    ensures WordAt(a, 7)[12..] == b.feeRefundAddr
    ensures WordAt(a, 8)[12..] == b.beneficiary
    ensures WordAt(a, 9)[12..] == b.retryTo.GetOr(ZeroAddress)
  {
    HeadWordAt(b, a, 7);
    assert StaticWord(b, 7) == AddressWord(b.feeRefundAddr);
    AddressWordTail(b.feeRefundAddr);
    HeadWordAt(b, a, 8);
    assert StaticWord(b, 8) == AddressWord(b.beneficiary);
    AddressWordTail(b.beneficiary);
    HeadWordAt(b, a, 9);
    assert StaticWord(b, 9) == AddressWord(b.retryTo.GetOr(ZeroAddress));
    AddressWordTail(b.retryTo.GetOr(ZeroAddress));
  }

  /** Decoding the arguments gives back the call they encode. */
  lemma SubmitRetryableArgumentsRoundTrip(b: SubmitRetryableBody)
    requires CalldataEncodable(b)
    ensures DecodeSubmitRetryableArguments(SubmitRetryableArguments(b)) == Some(CallOf(b))
  {
    var a := SubmitRetryableArguments(b);
    var n := |b.retryData|;
    SubmitRetryableArgumentsLayout(b);
    assert WordAt(a, 10) == UintWord(352);
    UintWordRoundTrip(352);
    UintWordRoundTrip(n);
    DecodeStaticUintWords(b, a);
    DecodeStaticAddressWords(b, a);
  }

  /** Decoding the calldata gives back the call it encodes. */
  lemma SubmitRetryableCalldataRoundTrip(b: SubmitRetryableBody)
    requires CalldataEncodable(b)
    ensures DecodeSubmitRetryableCall(SubmitRetryableCalldata(b)) == Some(CallOf(b))
  {
    SubmitRetryableCalldataLayout(b);
    SubmitRetryableArgumentsRoundTrip(b);
  }

  /** Two submissions with the same calldata encode the same call. */
  lemma SubmitRetryableCalldataInjective(a: SubmitRetryableBody, b: SubmitRetryableBody)
    requires CalldataEncodable(a) && CalldataEncodable(b)
    requires SubmitRetryableCalldata(a) == SubmitRetryableCalldata(b)
    ensures CallOf(a) == CallOf(b)
  {
    SubmitRetryableCalldataRoundTrip(a);
    SubmitRetryableCalldataRoundTrip(b);
  }
}
