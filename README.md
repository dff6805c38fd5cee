# Mantle transaction layer, modelled in Dafny

This project models the extended transaction layer of the Mantle fork of
go-ethereum. That layer adds several transaction kinds that carry no signature
of their own:

- the unsigned call;
- the contract-originated call;
- the deposit;
- the MtOS internal call;
- the delayed retry;
- the retryable-ticket submission.

It also adds a legacy wrapper, which pairs a plain legacy transaction with a
hash supplied from outside. The model covers:

- **Transaction values** (`tx_data.dfy`, module `MantleTypes`): one datatype
  per variant, the `TxData` sum of all kinds, and the per-variant accessors.
  The accessors are chain id, gas, gas price, tip cap, fee cap, value, nonce,
  destination, input data, raw signature values and the fake flag. The same
  file holds the well-known addresses and the calldata a ticket submission
  stands for.
- **Transaction objects** (`tx_objects.dfy`, module `MantleObjects`): the Go
  structs as classes.
  - Pointer fields become `AddressCell` objects, and byte slices become arrays.
  - `copy()` is a method that allocates a fresh object.
  - `data()` of the ticket submission is a method that grows the calldata
    append by append; it is proved equal to the value-level encoding.
- **The calldata decoder** (`retryable_calldata.dfy`, module
  `RetryableCalldata`):
  - the byte layout of the ticket-submission calldata;
  - a decoder for that layout in the Solidity ABI style;
  - the round trip, which makes the encoding injective on the call it stands
    for.
- **Header metadata** (`header_info.dfy`, module `HeaderInfoCodec`):
  - `HeaderInfo` is written into a header's `Extra` and `MixDigest`;
  - `UpdateHeaderWithInfo` mutates a `Header` object;
  - `DeserializeHeaderExtraInformation` reads the metadata back, with its
    early exits and its length error.
- **The legacy wrapper** (`legacy_tx.dfy`, module `MantleLegacy`):
  - the `MantleLegacyTxData` class, with its `copy()` and
    `EncodeOnlyLegacyInto`;
  - `NewMantleLegacyTx`, which wraps a transaction or rejects it.
- **The signer** (`mantle_signer.dfy`, module `MantleSigning`): the Mantle
  signer wraps a base signer. It dispatches `Sender`, `SignatureValues`,
  `Hash` and `Equal` on the transaction kind.
- **Chain parameters** (`mantle_config.dfy`, module `MantleConfig`):
  - `MantleChainParams` and the queries `IsMantle`, `IsMantleMantle` and
    `DebugMode`;
  - the compatibility check between a stored and a new configuration;
  - the eight parameter presets.

Shared vocabulary is in `common.dfy` (module `Common`):

- `Option` and `Result`, bytes, addresses and hashes;
- `*big.Int` as `BigInt = Option<nat>`;
- fixed-width big-endian encoding with its round trips;
- `common.CopyBytes` as a method with a loop.

Quantities outside the model are parameters:

- The base signer has a `Backend` with functions for sender recovery,
  signature values, signing hash and equality of a base signer.
- `EncodeOnlyLegacyInto` takes the RLP encoding of a legacy transaction as a
  function `rlp`.

## Model

| member | source | states |
|---|---|---|
| Common.OrZero | core/types/mt_types.go:68-80 | `new(big.Int)` followed by a nil-guarded `Set`: always a value, equal to the original when it is not nil, 0 when it is nil |
| Common.CopyBytes | core/types/mt_types.go:66 | `common.CopyBytes`: a fresh array with the same contents |
| Common.FromToBigEndian | core/types/mt_types.go:458-460 | decoding `len` big-endian bytes gives back every value below 2^(8 len), so `binary.BigEndian.Uint64` inverts `PutUint64` |
| Common.ToFromBigEndian | core/types/mt_types.go:436-438 | big-endian encoding at the same width gives back any byte string: `PutUint64` inverts `Uint64` |
| Common.ToBigEndianInjective | core/types/mt_types.go:314-319 | values below 2^(8 len) have distinct big-endian encodings, as in `math.U256Bytes` |
| Common.ToBigEndianSnoc | core/types/mt_types.go:436 | the last byte of a big-endian encoding is the low-order byte, and the bytes before it encode the quotient by 256 |
| Common.FromBigEndianAppend | core/types/mt_types.go:458 | appending a byte multiplies the value read by 256 and adds the byte |
| Common.Pow256Fixed | core/types/mt_types.go:458-460 | eight bytes span exactly the `uint64` range and 32 bytes the 256-bit range |
| Common.Pow256Add | core/types/mt_types.go:436-438 | the ranges of byte widths multiply |
| MantleTypes.WellKnownAddressesDistinct | core/types/mantle_signer.go:9-14 | the six well-known addresses (0xa4b05, 0x64, 0x6c, 0x6e, 0xc8, 0xc9) are pairwise distinct |
| MantleTypes.AddressOfLastByte | core/types/mantle_signer.go:9-14 | `HexToAddress` of a small number ends in the number's low byte |
| MantleTypes.ZeroSignatures | core/types/mt_types.go:96-98 | every Mantle variant's `rawSignatureValues` is (0, 0, 0); the same holds at lines 155-157, 226-228, 301-303, 379-381 and 415-417 |
| MantleTypes.FeeAccessors | core/types/mt_types.go:88-90 | the tip cap is always 0; the gas price equals the fee cap; for the unsigned, contract, retry and submission variants that is the `GasFeeCap` field (also lines 149-151, 220-222, 295-297); deposit and internal calls have gas 0, price 0 and fee cap 0 (lines 370-373, 406-409) |
| MantleTypes.FixedAccessors | core/types/mt_types.go:292-300 | the nonce is the `Nonce` field for unsigned and retry and 0 otherwise; the submission goes to `MtRetryableTxAddress` with value 0; the internal call goes to `MtosAddress` with value 0 (lines 410-412); a deposit always has its `To` and no data (lines 369, 376) |
| MantleTypes.FakeFlag | core/types/mt_types.go:39-41 | `isFake` holds exactly for the Mantle variants other than the unsigned call (lines 94, 159, 230, 305, 377, 413) |
| MantleTypes.MantleLegacyTypeTag | core/types/mantle_legacy_tx.go:50 | the wrapper's type tag is its own, different from every other kind and from the plain legacy tag |
| MantleTypes.UintWord | core/types/mt_types.go:314 | `math.U256Bytes` yields a 32-byte word |
| MantleTypes.AddressWord | core/types/mt_types.go:320-321 | 12 zero bytes and an address make a 32-byte word |
| MantleTypes.StaticWord | core/types/mt_types.go:313-325 | each of the ten static argument words is 32 bytes long |
| MantleTypes.StaticHead | core/types/mt_types.go:313-325 | the first k static words are 32 k bytes long |
| MantleObjects.AppendAddressWord | core/types/mt_types.go:320-321 | appending 12 zero bytes and then the address appends one address word |
| MantleObjects.CopyAddressCell | core/types/mt_types.go:74-77 | a nil pointer stays nil; otherwise the copy is a fresh cell holding the same address |
| MantleObjects.MantleUnsignedTx.Copy | core/types/mt_types.go:57-82 | fresh object, data array and destination cell; every field equal, with nil big integers normalised to 0 |
| MantleObjects.MantleContractTx.Copy | core/types/mt_types.go:118-143 | as for the unsigned call, for the contract call's fields |
| MantleObjects.MantleRetryTx.Copy | core/types/mt_types.go:179-213 | as for the unsigned call, for the retry's fields (five big integers normalised) |
| MantleObjects.MantleSubmitRetryableTx.Copy | core/types/mt_types.go:251-290 | fresh retry data and retry destination; six big integers normalised; everything else equal |
| MantleObjects.MantleDepositTx.Copy | core/types/mt_types.go:350-365 | fresh object; chain id and value normalised; request id, sender and destination equal |
| MantleObjects.MantleInternalTx.Copy | core/types/mt_types.go:396-401 | requires a non-nil chain id, because `Set` on nil panics; the copy equals the original with fresh data and no normalisation |
| MantleObjects.MantleUnsignedTx.SetSignatureValues | core/types/mt_types.go:100-102 | setting a signature changes nothing (likewise for the other five variants at lines 158, 229, 304, 383-385 and 419-421) |
| MantleObjects.MantleContractTx.SetSignatureValues | core/types/mt_types.go:158 | setting a signature changes nothing |
| MantleObjects.MantleRetryTx.SetSignatureValues | core/types/mt_types.go:229 | setting a signature changes nothing |
| MantleObjects.MantleSubmitRetryableTx.SetSignatureValues | core/types/mt_types.go:304 | setting a signature changes nothing |
| MantleObjects.MantleDepositTx.SetSignatureValues | core/types/mt_types.go:383-385 | setting a signature changes nothing |
| MantleObjects.MantleInternalTx.SetSignatureValues | core/types/mt_types.go:419-421 | setting a signature changes nothing |
| MantleObjects.MantleSubmitRetryableTx.ArgumentHead | core/types/mt_types.go:308-325 | the ten appends, with the nil retry destination read as the zero address, build exactly the static head of the call |
| MantleObjects.MantleSubmitRetryableTx.Data | core/types/mt_types.go:307-336 | the appends, the offset word, the length word, the data, the padding branch and the selector prefix build exactly the submission calldata |
| MantleObjects.MutateUnsignedCopy | core/types/mt_types.go:57-82 | writing scalar fields, data bytes and the destination through a copy leaves the original's value unchanged |
| MantleObjects.MutateSubmitRetryableCopy | core/types/mt_types.go:251-290 | writing through a submission's copy, including its retry data and retry destination, leaves the original unchanged |
| RetryableCalldata.StaticHeadWord | core/types/mt_types.go:313-325 | static word k occupies bytes 32k to 32k+32 of the head |
| RetryableCalldata.PaddingRoundsUp | core/types/mt_types.go:330-333 | the padding is below 32 and brings the data length up to the next multiple of 32 |
| RetryableCalldata.SubmitRetryableArgumentsLayout | core/types/mt_types.go:312-333 | after the selector, byte for byte: the ten static words in bytes 0-320, the offset word 352 in bytes 320-352, the data length in bytes 352-384, then the data, then zeros up to a 32-byte boundary |
| RetryableCalldata.SubmitRetryableArgumentWords | core/types/mt_types.go:313-325 | word k of the arguments is static word k, for k < 10 |
| RetryableCalldata.SubmitRetryableCalldataLayout | core/types/mt_types.go:334 | the calldata is the selector c9 f9 5d 32 followed by the arguments; its length is 388 plus the padded data length |
| RetryableCalldata.UintWordRoundTrip | core/types/mt_types.go:314-319 | a 256-bit word reads back as the value written |
| RetryableCalldata.HeadWordAt | core/types/mt_types.go:313-325 | any byte string that starts with the static head has static word k at word position k |
| RetryableCalldata.DecodeStaticUintWords | core/types/mt_types.go:313-319 | words 0-6 read back as the request id, the L1 base fee, the deposit value, the retry value, the fee cap, the gas and the maximum submission fee |
| RetryableCalldata.AddressWordTail | core/types/mt_types.go:320-321 | the address is the last 20 bytes of its word |
| RetryableCalldata.DecodeStaticAddressWords | core/types/mt_types.go:320-325 | words 7-9 end in the fee-refund address, the beneficiary and the retry destination, with the zero address for none |
| RetryableCalldata.SubmitRetryableArgumentsRoundTrip | core/types/mt_types.go:312-333 | decoding the arguments, with the offset and length read from the data, gives back the encoded call |
| RetryableCalldata.SubmitRetryableCalldataRoundTrip | core/types/mt_types.go:307-336 | decoding `data()` gives back the call it encodes |
| RetryableCalldata.SubmitRetryableCalldataInjective | core/types/mt_types.go:307-336 | two submissions with equal calldata encode the same call |
| HeaderInfoCodec.PutUint64 | core/types/mt_types.go:436 | `binary.BigEndian.PutUint64` writes the eight big-endian bytes in place and no other element |
| HeaderInfoCodec.ComputeMixDigest | core/types/mt_types.go:434-440 | three `PutUint64` calls into a zeroed 32-byte array give the digest value |
| HeaderInfoCodec.UpdateHeaderWithInfo | core/types/mt_types.go:442-445 | only the header's digest and extra field change; with a non-zero base fee the header then decodes back to the same metadata |
| HeaderInfoCodec.EightByteBlocks | core/types/mt_types.go:436-438 | the slices `[:8]`, `[8:16]`, `[16:24]` and `[24:32]` of four eight-byte blocks are those blocks |
| HeaderInfoCodec.MixDigestLayout | core/types/mt_types.go:434-440 | the digest holds the send count, the L1 block number and the format version big-endian in bytes 0-24, and zeros after |
| HeaderInfoCodec.HeaderInfoRoundTrip | core/types/mt_types.go:447-461 | decoding the encoded `extra` and `mixDigest` under a non-zero base fee gives back the metadata with no error |
| HeaderInfoCodec.DecodeEarlyExit | core/types/mt_types.go:448-452 | with no base fee, a zero base fee or an empty extra field, the result is the empty metadata and no error |
| HeaderInfoCodec.DecodeErrorIff | core/types/mt_types.go:448-455 | decoding fails exactly when the base fee is non-zero and the extra field is neither empty nor 32 bytes long |
| HeaderInfoCodec.DecodeThenEncode | core/types/mt_types.go:456-461 | re-encoding a successful decode gives back the extra field and the first 24 digest bytes |
| MantleLegacy.MantleLegacyTxData.Copy | core/types/mantle_legacy_tx.go:34-48 | fresh wrapper; the sender stays nil or becomes a fresh cell with the same address; all fields equal |
| MantleLegacy.MantleLegacyTxData.EncodeOnlyLegacyInto | core/types/mantle_legacy_tx.go:52-54 | appends to the buffer the RLP of the embedded legacy transaction and nothing else |
| MantleLegacy.ByteBuffer.Write | core/types/mantle_legacy_tx.go:53 | writing appends to the buffer's bytes |
| MantleLegacy.NewMantleLegacyTxRejectsNonLegacy | core/types/mantle_legacy_tx.go:19-22 | wrapping fails, with the stated message, exactly when the transaction is not a plain legacy one |
| MantleLegacy.NewMantleLegacyTxWraps | core/types/mantle_legacy_tx.go:23-31 | on success the result is a wrapper with its own type tag; it carries the override fields as given and unwraps to the original transaction |
| MantleLegacy.EncodingIgnoresOverrides | core/types/mantle_legacy_tx.go:52-54 | wrappers around the same legacy transaction encode identically, whatever their overrides |
| MantleLegacy.EncodeCopyAlike | core/types/mantle_legacy_tx.go:34-54 | a wrapper and a copy of it whose hash override and effective gas price are overwritten with different values write the same bytes, the RLP of the legacy transaction |
| MantleSigning.EmbeddedSenderRule | core/types/mantle_signer.go:23-35 | the unsigned, contract, deposit, retry and submission variants report their embedded sender, whatever the wrapped signer does |
| MantleSigning.InternalSenderRule | core/types/mantle_signer.go:30-31 | an internal call comes from `MtosAddress`, which is not the system address |
| MantleSigning.LegacyWrapperSenderRule | core/types/mantle_signer.go:36-42 | a wrapper reports its sender override when it has one; otherwise the wrapped signer recovers the sender of the plain legacy transaction |
| MantleSigning.BaseKindsDelegate | core/types/mantle_signer.go:43-44 | the base kinds are passed unchanged to the wrapped signer for sender, signature values and signing hash |
| MantleSigning.SignatureValuesRule | core/types/mantle_signer.go:53-73 | Mantle variants get (0, 0, 0) with no error, equal to their raw signature values; a wrapper gets the wrapped signer's result on the plain legacy transaction |
| MantleSigning.SigningHashRule | core/types/mantle_signer.go:78-84 | only the wrapper is rebuilt as a plain legacy transaction before hashing; every other kind is hashed by the wrapped signer as it is |
| MantleSigning.EqualRule | core/types/mantle_signer.go:48-51 | a Mantle signer equals exactly the Mantle signers whose wrapped signer considers itself equal to this one's wrapped signer |
| MantleSigning.EqualReflexive | core/types/mantle_signer.go:48-51 | when every base signer equals itself, every signer does, however deeply wrapped |
| MantleSigning.MantleNeverEqualsBase | core/types/mantle_signer.go:48-51 | when base signers only accept base signers, a Mantle signer and a base signer are unequal in either order |
| MantleSigning.OverridesNotSigned | core/types/mantle_signer.go:67-84 | a wrapper's hash override, gas price and L1 block number affect neither the signing hash nor the signature values |
| MantleSigning.WrapTransparent | core/types/mantle_legacy_tx.go:19-32 | a legacy transaction wrapped without a sender override has the sender and signing hash it had before wrapping |
| MantleConfig.CheckMantleCompatible | params/config_mantle.go:46-60 | an error, when there is one, is either `isMantle` or `genesisblocknum` |
| MantleConfig.IsMantleMantleIff | params/config_mantle.go:38-40 | Mantle holds at a block exactly when it is enabled and a block number at or after the Mantle genesis block is given |
| MantleConfig.IsMantleMantleMonotone | params/config_mantle.go:38-40 | once Mantle holds at a block, it holds at every later block |
| MantleConfig.CheckMantleCompatibleCases | params/config_mantle.go:47-59 | a flag mismatch gives `isMantle` at blocks 0/0; two non-Mantle configurations give no error; two Mantle configurations give `genesisblocknum` with both genesis blocks exactly when those differ |
| MantleConfig.CompatibleIff | params/config_mantle.go:46-60 | two configurations are compatible exactly when they agree on the flag and, if Mantle, on the genesis block |
| MantleConfig.CheckIgnoresHead | params/config_mantle.go:46 | the head block does not influence the check |
| MantleConfig.CheckSymmetric | params/config_mantle.go:46-60 | swapping the configurations gives the same kind of error, with the stored and new blocks exchanged |
| MantleConfig.CheckReflexive | params/config_mantle.go:46-60 | every configuration is compatible with itself |
| MantleConfig.PresetFacts | params/config_mantle.go:62-140 | only `DisableMantleParams` turns Mantle off; only the two development presets allow the debug precompiles; exactly Nova, DevTestDAS and AnytrustGoerli use a data availability committee; any two Mantle presets are compatible |
| MantleConfig.PresetVersions | params/config_mantle.go:62-140 | the initial MtOS versions are 6, 1, 2, 2, 3, 7, 7 and 0 |

## Left out

- RLP encoding and decoding, and the `Transaction` envelope beyond its inner value, belong to base go-ethereum files that are not part of this model. RLP is a function parameter. `NewTx` wraps a value, so it needs no copy.
- `LegacyTx.copy`: its code is not part of this model. The embedded legacy transaction is a value, and the wrapper's copy keeps it as it is. So the model does not capture that copy's own normalisation of nil fields, nor any aliasing of its fields.
- MantleLegacy.NewMantleLegacyTx stores the sender override as an address value. This is exact for the transaction it returns: `NewTx` stores a copy of the wrapper (core/types/mantle_legacy_tx.go:31), and the wrapper's copy allocates a fresh sender cell (core/types/mantle_legacy_tx.go:36-40), so the result never shares the caller's pointer.
- Signature recovery, signing hashes and base signer equality are cryptography and chain parameters. They are functions of a `Backend` parameter.
- MantleTypes.SubmitRetryableCalldata: a nil big-integer field makes `data()` panic, and a value of at least 2^256 is truncated by `math.U256Bytes`. The `CalldataEncodable` precondition excludes both rather than modelling them. Negative values are excluded by the `nat` type of `BigInt` instead (see the next line).
- Negative big integers are not modelled (`BigInt` holds a `nat`). This covers the `Sign()` test in `DeserializeHeaderExtraInformation`, where a negative base fee would count as non-zero.
- `*big.Int` is modelled as the value `Option<nat>`, so its pointer behaviour is invisible. In every `Copy`, "each big integer is a new `big.Int`" holds by construction rather than being proved. The model does not capture aliasing through accessor results: `gasTipCap` returning the shared `bigZero`, and `gasPrice` and `gasFeeCap` returning the field's own pointer. It also does not capture `math.U256Bytes` rewriting an out-of-range field in place.
- Nil and empty byte slices are not distinguished: a deposit's `data()` is nil and the model gives `[]`.
- The numeric values of the type tags come from a file that is not part of this model. The tags are an enumeration, distinct by construction.
- HeaderInfoCodec.DecodeHeaderInfo: the length error's message is the fixed prefix; the length the message formats is not included.
- `ConfigCompatError.RewindTo`, which `newCompatError` computes in a file that is not part of this model, is omitted. The error carries only its name and the two block numbers.
- The full `ChainConfig` literals and `MantleSupportedChainConfigs` (params/config_mantle.go lines 142-325) are static fork schedules. Only the Mantle parameters are kept, and `isForked` is modelled by its usual rule: an absent head means no fork.
- Header fields other than parent hash, number, gas limit, base fee, digest and extra are not modelled.
- `SetFallbackError`, `fallbackError` and `FallbackClient` are a global error setting and an RPC interface. The tracer hooks and the MtOS interface are outside the core.
- MantleSigning.SigningHash: every kind except the legacy wrapper is hashed by the wrapped signer on the transaction itself (core/types/mantle_signer.go:78-84); no kind gets a fixed zero hash.
- Each address word of the submission calldata is 12 zero bytes followed by the 20 address bytes (core/types/mt_types.go:320-325).
