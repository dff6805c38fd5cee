/** The Mantle transaction variants as values: one record per Go struct, the
    closed union the envelope stores, the uniform accessor surface and the
    calldata that the ticket-submission variant presents to the EVM. */
module MantleTypes {
  import opened Common

  // Well-known protocol addresses.
  const MtosAddress: Address := AddressOf(0xa4b05)
  const MtSysAddress: Address := AddressOf(0x64)
  const MtGasInfoAddress: Address := AddressOf(0x6c)
  const MtRetryableTxAddress: Address := AddressOf(0x6e)
  const NodeInterfaceAddress: Address := AddressOf(0xc8)
  const NodeInterfaceDebugAddress: Address := AddressOf(0xc9)

  /** The last byte of a 20-byte address literal is its low-order byte. */
  lemma {:induction false} AddressOfLastByte(n: nat)
    ensures AddressOf(n)[19] == (n % 256) as byte
  {
    assert ToBigEndian(n, 20)[19] == ByteOf(n, 0);
  }

  /** The six well-known addresses are pairwise distinct. */
  lemma WellKnownAddressesDistinct()
    ensures MtosAddress != MtSysAddress && MtosAddress != MtGasInfoAddress
    ensures MtosAddress != MtRetryableTxAddress && MtosAddress != NodeInterfaceAddress
    ensures MtosAddress != NodeInterfaceDebugAddress
    ensures MtSysAddress != MtGasInfoAddress && MtSysAddress != MtRetryableTxAddress
    ensures MtSysAddress != NodeInterfaceAddress && MtSysAddress != NodeInterfaceDebugAddress
    ensures MtGasInfoAddress != MtRetryableTxAddress && MtGasInfoAddress != NodeInterfaceAddress
    ensures MtGasInfoAddress != NodeInterfaceDebugAddress
    ensures MtRetryableTxAddress != NodeInterfaceAddress
    ensures MtRetryableTxAddress != NodeInterfaceDebugAddress
    ensures NodeInterfaceAddress != NodeInterfaceDebugAddress
  {
    var last := [MtosAddress[19], MtSysAddress[19], MtGasInfoAddress[19],
                 MtRetryableTxAddress[19], NodeInterfaceAddress[19], NodeInterfaceDebugAddress[19]];
    AddressOfLastByte(0xa4b05);
    AddressOfLastByte(0x64);
    AddressOfLastByte(0x6c);
    AddressOfLastByte(0x6e);
    AddressOfLastByte(0xc8);
    AddressOfLastByte(0xc9);
    assert last == [0x05, 0x64, 0x6c, 0x6e, 0xc8, 0xc9];
  }

  /** The one-byte type discriminant of the envelope, as an enumeration. */
  datatype TxKind =
    | LegacyTxType
    | AccessListTxType
    | DynamicFeeTxType
    | MantleDepositTxType
    | MantleUnsignedTxType
    | MantleContractTxType
    | MantleRetryTxType
    | MantleSubmitRetryableTxType
    | MantleInternalTxType
    | MantleLegacyTxType

  /** The base chain's plain legacy transaction. */
  datatype LegacyTx = LegacyTx(
    nonce: u64,
    gasPrice: BigInt,
    gas: u64,
    to: Option<Address>,
    value: BigInt,
    data: seq<byte>,
    v: BigInt,
    r: BigInt,
    s: BigInt)

  /** Access-list and dynamic-fee bodies: their fields belong to the base
      chain and are carried here only as an opaque payload. */
  datatype OpaqueTx = OpaqueTx(payload: seq<byte>)

  datatype UnsignedBody = UnsignedBody(
    chainId: BigInt,
    from: Address,
    nonce: u64,
    gasFeeCap: BigInt,
    gas: u64,
    to: Option<Address>,   // None: contract creation
    value: BigInt,
    data: seq<byte>)

  datatype ContractBody = ContractBody(
    chainId: BigInt,
    requestId: Hash,
    from: Address,
    gasFeeCap: BigInt,
    gas: u64,
    to: Option<Address>,
    value: BigInt,
    data: seq<byte>)

  datatype RetryBody = RetryBody(
    chainId: BigInt,
    nonce: u64,
    from: Address,
    gasFeeCap: BigInt,
    gas: u64,
    to: Option<Address>,
    value: BigInt,
    data: seq<byte>,
    ticketId: Hash,
    refundTo: Address,
    maxRefund: BigInt,            // most that is refunded to refundTo
    submissionFeeRefund: BigInt)  // refunded on success, capped by maxRefund

  datatype SubmitRetryableBody = SubmitRetryableBody(
    chainId: BigInt,
    requestId: Hash,
    from: Address,
    l1BaseFee: BigInt,
    depositValue: BigInt,
    gasFeeCap: BigInt,
    gas: u64,
    retryTo: Option<Address>,
    retryValue: BigInt,
    beneficiary: Address,
    maxSubmissionFee: BigInt,
    feeRefundAddr: Address,
    retryData: seq<byte>)

  datatype DepositBody = DepositBody(
    chainId: BigInt,
    l1RequestId: Hash,
    from: Address,
    to: Address,
    value: BigInt)

  datatype InternalBody = InternalBody(chainId: BigInt, data: seq<byte>)

  /** A legacy transaction whose canonical hash is supplied from outside. */
  datatype MantleLegacyBody = MantleLegacyBody(
    legacy: LegacyTx,
    hashOverride: Hash,
    effectiveGasPrice: u64,
    l1BlockNumber: u64,
    sender: Option<Address>)   // only for unsigned, synthetic instances

  /** The six unsigned Mantle variants. */
  datatype MantleTx =
    | Unsigned(unsigned: UnsignedBody)
    | Contract(contract: ContractBody)
    | Retry(retry: RetryBody)
    | SubmitRetryable(submit: SubmitRetryableBody)
    | Deposit(deposit: DepositBody)
    | Internal(internal: InternalBody)

  /** Everything the envelope can hold. */
  datatype TxData =
    | Legacy(legacy: LegacyTx)
    | AccessList(accessList: OpaqueTx)
    | DynamicFee(dynamicFee: OpaqueTx)
    | Mantle(mantle: MantleTx)
    | MantleLegacy(wrapper: MantleLegacyBody)

  /** The envelope, `types.Transaction`. */
  datatype Transaction = Transaction(inner: TxData)

  /** `NewTx`: wrap (a copy of) an inner value. Values cannot alias, so the
      copy is the value itself. */
  function NewTx(inner: TxData): (tx: Transaction)
  {
    Transaction(inner)
  }

  function TxType(t: TxData): TxKind
  {
    match t
    case Legacy(_) => LegacyTxType
    case AccessList(_) => AccessListTxType
    case DynamicFee(_) => DynamicFeeTxType
    case MantleLegacy(_) => MantleLegacyTxType
    case Mantle(m) =>
      match m
      case Unsigned(_) => MantleUnsignedTxType
      case Contract(_) => MantleContractTxType
      case Retry(_) => MantleRetryTxType
      case SubmitRetryable(_) => MantleSubmitRetryableTxType
      case Deposit(_) => MantleDepositTxType
      case Internal(_) => MantleInternalTxType
  }

  /** Whether the transaction has no real signature. The legacy wrapper embeds
      a LegacyTx and so answers as a legacy transaction does. */
  function IsFake(t: TxData): bool
  {
    match t
    case Legacy(_) => false
    case AccessList(_) => false
    case DynamicFee(_) => false
    case MantleLegacy(_) => false
    case Mantle(m) =>
      match m
      case Unsigned(_) => false
      case Contract(_) => true
      case Retry(_) => true
      case SubmitRetryable(_) => true
      case Deposit(_) => true
      case Internal(_) => true
  }

  // ---------------------------------------------------------------------
  // The uniform accessor surface of the six Mantle variants.

  function ChainID(m: MantleTx): BigInt
  {
    match m
    case Unsigned(b) => b.chainId
    case Contract(b) => b.chainId
    case Retry(b) => b.chainId
    case SubmitRetryable(b) => b.chainId
    case Deposit(b) => b.chainId
    case Internal(b) => b.chainId
  }

  function Gas(m: MantleTx): u64
  {
    match m
    case Unsigned(b) => b.gas
    case Contract(b) => b.gas
    case Retry(b) => b.gas
    case SubmitRetryable(b) => b.gas
    case Deposit(_) => 0
    case Internal(_) => 0
  }

  function GasPrice(m: MantleTx): BigInt
  {
    match m
    case Unsigned(b) => b.gasFeeCap
    case Contract(b) => b.gasFeeCap
    case Retry(b) => b.gasFeeCap
    case SubmitRetryable(b) => b.gasFeeCap
    case Deposit(_) => Some(0)
    case Internal(_) => Some(0)
  }

  function GasTipCap(m: MantleTx): BigInt
  {
    Some(0)
  }

  function GasFeeCap(m: MantleTx): BigInt
  {
    match m
    case Unsigned(b) => b.gasFeeCap
    case Contract(b) => b.gasFeeCap
    case Retry(b) => b.gasFeeCap
    case SubmitRetryable(b) => b.gasFeeCap
    case Deposit(_) => Some(0)
    case Internal(_) => Some(0)
  }

  function Value(m: MantleTx): BigInt
  {
    match m
    case Unsigned(b) => b.value
    case Contract(b) => b.value
    case Retry(b) => b.value
    case SubmitRetryable(_) => Some(0)
    case Deposit(b) => b.value
    case Internal(_) => Some(0)
  }

  function Nonce(m: MantleTx): u64
  {
    match m
    case Unsigned(b) => b.nonce
    case Contract(_) => 0
    case Retry(b) => b.nonce
    case SubmitRetryable(_) => 0
    case Deposit(_) => 0
    case Internal(_) => 0
  }

  /** The destination; None means contract creation. */
  function To(m: MantleTx): Option<Address>
  {
    match m
    case Unsigned(b) => b.to
    case Contract(b) => b.to
    case Retry(b) => b.to
    case SubmitRetryable(_) => Some(MtRetryableTxAddress)
    case Deposit(b) => Some(b.to)
    case Internal(_) => Some(MtosAddress)
  }

  /** The input data. The ticket submission derives it from its fields, which
      needs every big-integer field it encodes to be set and below 2^256. */
  function Data(m: MantleTx): seq<byte>
    requires m.SubmitRetryable? ==> CalldataEncodable(m.submit)
  {
    match m
    case Unsigned(b) => b.data
    case Contract(b) => b.data
    case Retry(b) => b.data
    case SubmitRetryable(b) => SubmitRetryableCalldata(b)
    case Deposit(_) => []
    case Internal(b) => b.data
  }

  datatype SignatureValues = SignatureValues(v: nat, r: nat, s: nat)

  const ZeroSignature := SignatureValues(0, 0, 0)

  function RawSignatureValues(m: MantleTx): SignatureValues
  {
    match m
    case Unsigned(_) => ZeroSignature
    case Contract(_) => ZeroSignature
    case Retry(_) => ZeroSignature
    case SubmitRetryable(_) => ZeroSignature
    case Deposit(_) => ZeroSignature
    case Internal(_) => ZeroSignature
  }

  // ---------------------------------------------------------------------
  // Properties of the accessor surface.

  /** Every Mantle variant reports the zero signature triple. */
  lemma ZeroSignatures(m: MantleTx)
    ensures RawSignatureValues(m) == SignatureValues(0, 0, 0)
  {
  }

  /** No tip; the fee cap doubles as the gas price; deposits and internal
      calls cost nothing. */
  lemma FeeAccessors(m: MantleTx)
    ensures GasTipCap(m) == Some(0)
    ensures GasPrice(m) == GasFeeCap(m)
    ensures m.Unsigned? ==> GasFeeCap(m) == m.unsigned.gasFeeCap
    ensures m.Contract? ==> GasFeeCap(m) == m.contract.gasFeeCap
    ensures m.Retry? ==> GasFeeCap(m) == m.retry.gasFeeCap
    ensures m.SubmitRetryable? ==> GasFeeCap(m) == m.submit.gasFeeCap
    ensures m.Deposit? || m.Internal? ==> Gas(m) == 0 && GasPrice(m) == Some(0) && GasFeeCap(m) == Some(0)
  {
  }

  /** Only unsigned calls and delayed retries carry a nonce; the ticket
      submission and the internal call have fixed destinations and no value;
      a deposit always has a destination and never input data. */
  lemma FixedAccessors(m: MantleTx)
    ensures Nonce(m) == (if m.Unsigned? then m.unsigned.nonce else if m.Retry? then m.retry.nonce else 0)
    ensures m.SubmitRetryable? ==> To(m) == Some(MtRetryableTxAddress) && Value(m) == Some(0)
    ensures m.Internal? ==> To(m) == Some(MtosAddress) && Value(m) == Some(0)
    ensures m.Deposit? ==> To(m) == Some(m.deposit.to) && Data(m) == []
  {
  }

  /** The fake flag separates the variants with a real signature (the three
      base kinds, the unsigned call and the legacy wrapper) from the rest. */
  lemma FakeFlag(t: TxData)
    ensures IsFake(t) <==> t.Mantle? && !t.mantle.Unsigned?
  {
  }

  /** The wrapper has its own type tag, distinct from every other kind. */
  lemma MantleLegacyTypeTag(t: TxData)
    ensures TxType(t) == MantleLegacyTxType <==> t.MantleLegacy?
    ensures t.MantleLegacy? ==> TxType(t) != LegacyTxType
  {
  }

  // ---------------------------------------------------------------------
  // The calldata of a ticket submission: a call in the layout of the
  // Solidity contract ABI to the ticket-management entry point.

  const SubmitRetryableSelector: seq<byte> := [0xc9, 0xf9, 0x5d, 0x32]

  /** A big integer that `math.U256Bytes` encodes without truncation. */
  predicate IsU256(x: BigInt)
  {
    x.Some? && x.value < UINT256_LIMIT
  }

  /** Go slice lengths are non-negative `int`s, below 2^63. */
  const MAX_SLICE_LEN: nat := 0x8000_0000_0000_0000

  /** What `data()` needs: the five big-integer fields it encodes are set
      (a nil one makes it panic) and fit in 256 bits, and the retry data is
      a Go slice. */
  predicate CalldataEncodable(b: SubmitRetryableBody)
  {
    IsU256(b.l1BaseFee) && IsU256(b.depositValue) && IsU256(b.retryValue)
    && IsU256(b.gasFeeCap) && IsU256(b.maxSubmissionFee)
    && |b.retryData| < MAX_SLICE_LEN
  }

  /** A 32-byte big-endian unsigned word. */
  function UintWord(n: nat): (w: seq<byte>)
    ensures |w| == 32
  {
    ToBigEndian(n, 32)
  }

  /** An address in a 32-byte word: 12 zero bytes, then the 20 address bytes. */
  function AddressWord(a: Address): (w: seq<byte>)
    ensures |w| == 32
  {
    Zeros(12) + a
  }

  /** The ten static argument words, numbered in the order `data()` appends
      them: request id, L1 base fee, deposit value, retry value, fee cap, gas,
      maximum submission fee, fee-refund address, beneficiary, and the retry
      destination (the zero address when there is none). */
  function StaticWord(b: SubmitRetryableBody, k: nat): (w: seq<byte>)
    requires CalldataEncodable(b) && k < 10
    ensures |w| == 32
  {
    if k == 0 then b.requestId
    else if k == 1 then UintWord(b.l1BaseFee.value)
    else if k == 2 then UintWord(b.depositValue.value)
    else if k == 3 then UintWord(b.retryValue.value)
    else if k == 4 then UintWord(b.gasFeeCap.value)
    else if k == 5 then UintWord(b.gas)
    else if k == 6 then UintWord(b.maxSubmissionFee.value)
    else if k == 7 then AddressWord(b.feeRefundAddr)
    else if k == 8 then AddressWord(b.beneficiary)
    else AddressWord(b.retryTo.GetOr(ZeroAddress))
  }

  /** The first `k` static words laid end to end. */
  function StaticHead(b: SubmitRetryableBody, k: nat): (h: seq<byte>)
    requires CalldataEncodable(b) && k <= 10
    ensures |h| == 32 * k
  {
    if k == 0 then [] else StaticHead(b, k - 1) + StaticWord(b, k - 1)
  }

  /** Bytes needed to round `n` up to a multiple of 32. */
  function Padding(n: nat): nat
  {
    if n % 32 > 0 then 32 - n % 32 else 0
  }

  /** The arguments of the ticket-management call: the ten static words,
      the offset of the dynamic tail (the length of what precedes it plus the
      offset word itself), the length of the retry data, the retry data, and
      zero padding to a 32-byte boundary. */
  function SubmitRetryableArguments(b: SubmitRetryableBody): seq<byte>
    requires CalldataEncodable(b)
  {
    var head := StaticHead(b, 10);
    head + UintWord(|head| + 32) + UintWord(|b.retryData|) + b.retryData
      + Zeros(Padding(|b.retryData|))
  }

  /** `MantleSubmitRetryableTx.data()`: the selector, then the arguments. */
  function SubmitRetryableCalldata(b: SubmitRetryableBody): seq<byte>
    requires CalldataEncodable(b)
  {
    SubmitRetryableSelector + SubmitRetryableArguments(b)
  }
}
