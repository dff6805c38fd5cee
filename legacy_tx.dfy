/** The legacy wrapper: a plain legacy transaction together with a canonical
    hash supplied from outside, the effective gas price, the L1 block number
    and, for unsigned synthetic instances, the sender. */
module MantleLegacy {
  import opened Common
  import opened MantleTypes
  import opened MantleObjects

  /** `MantleLegacyTxData` as a heap object. The embedded `LegacyTx` is held
      as a value. */
  class MantleLegacyTxData {
    var Legacy: LegacyTx
    var HashOverride: Hash
    var EffectiveGasPrice: u64
    var L1BlockNumber: u64
    var Sender: AddressCell?

    constructor (legacy: LegacyTx, hashOverride: Hash, effectiveGasPrice: u64, l1BlockNumber: u64,
                 sender: AddressCell?)
      ensures Legacy == legacy && HashOverride == hashOverride
      ensures EffectiveGasPrice == effectiveGasPrice && L1BlockNumber == l1BlockNumber
      ensures Sender == sender
    {
      Legacy, HashOverride, EffectiveGasPrice := legacy, hashOverride, effectiveGasPrice;
      L1BlockNumber, Sender := l1BlockNumber, sender;
    }

    function Body(): MantleLegacyBody
      reads this, Sender
    {
      MantleLegacyBody(Legacy, HashOverride, EffectiveGasPrice, L1BlockNumber, Deref(Sender))
    }

    /** `copy()`: a fresh wrapper whose sender, when there is one, is a fresh
        cell holding the same address; nil stays nil. The override fields
        are carried unchanged. */
    method Copy() returns (cpy: MantleLegacyTxData)
      ensures fresh(cpy)
      ensures cpy.Sender == null <==> Sender == null
      ensures cpy.Sender != null ==> fresh(cpy.Sender)
      ensures cpy.Body() == Body()
    {
      var sender: AddressCell? := null;
      if Sender != null {
        sender := new AddressCell(Sender.addr);
      }
      cpy := new MantleLegacyTxData(Legacy, HashOverride, EffectiveGasPrice, L1BlockNumber, sender);
    }

    /** `EncodeOnlyLegacyInto`: appends the RLP encoding of the embedded
        legacy transaction, and nothing derived from the other fields. */
    method EncodeOnlyLegacyInto(w: ByteBuffer, rlp: LegacyTx -> seq<byte>)
      modifies w
      ensures w.Bytes == old(w.Bytes) + EncodeOnlyLegacy(Body(), rlp)
    {
      w.Write(rlp(Legacy));
    }
  }

  /** `bytes.Buffer`, seen through its contents. */
  class ByteBuffer {
    var Bytes: seq<byte>

    constructor ()
      ensures Bytes == []
    {
      Bytes := [];
    }

    method Write(p: seq<byte>)
      modifies this
      ensures Bytes == old(Bytes) + p
    {
      Bytes := Bytes + p;
    }
  }

  /** What `EncodeOnlyLegacyInto` appends. */
  function EncodeOnlyLegacy(b: MantleLegacyBody, rlp: LegacyTx -> seq<byte>): seq<byte>
  {
    rlp(b.legacy)
  }

  const NonLegacyError := "attempt to mantle-wrap non-legacy transaction"

  /** `NewMantleLegacyTx`: wraps a plain legacy transaction; anything else is
      refused. */
  function NewMantleLegacyTx(origTx: Transaction, hashOverride: Hash, effectiveGas: u64,
                             l1Block: u64, senderOverride: Option<Address>): (r: Result<Transaction>)
  {
    if TxType(origTx.inner) != LegacyTxType then Err(NonLegacyError)
    else
      Ok(NewTx(MantleLegacy(MantleLegacyBody(origTx.inner.legacy, hashOverride, effectiveGas, l1Block,
        senderOverride))))
  }

  /** The plain transaction the signer rebuilds from a wrapper. */
  function UnwrapLegacy(b: MantleLegacyBody): Transaction
  {
    NewTx(Legacy(b.legacy))
  }

  // ---------------------------------------------------------------------
  // Properties.

  /** Wrapping succeeds exactly for plain legacy transactions. */
  lemma NewMantleLegacyTxRejectsNonLegacy(origTx: Transaction, h: Hash, gas: u64, l1: u64,
                                          sender: Option<Address>)
    ensures NewMantleLegacyTx(origTx, h, gas, l1, sender).Err? <==> !origTx.inner.Legacy?
    ensures NewMantleLegacyTx(origTx, h, gas, l1, sender).Err? ==>
              NewMantleLegacyTx(origTx, h, gas, l1, sender).msg == NonLegacyError
  {
  }

  /** On success the wrapper has its own type tag, carries the override
      fields as given, and unwraps to the original transaction. */
  lemma NewMantleLegacyTxWraps(origTx: Transaction, h: Hash, gas: u64, l1: u64,
                               sender: Option<Address>)
    requires origTx.inner.Legacy?
    ensures var r := NewMantleLegacyTx(origTx, h, gas, l1, sender);
      && r.Ok? && r.value.inner.MantleLegacy?
      && TxType(r.value.inner) == MantleLegacyTxType
      && r.value.inner.wrapper.hashOverride == h
      && r.value.inner.wrapper.effectiveGasPrice == gas
      && r.value.inner.wrapper.l1BlockNumber == l1
      && r.value.inner.wrapper.sender == sender
      && UnwrapLegacy(r.value.inner.wrapper) == origTx
  {
  }

  /** Two wrappers around the same legacy transaction encode identically,
      whatever their override fields. */
  lemma EncodingIgnoresOverrides(a: MantleLegacyBody, b: MantleLegacyBody, rlp: LegacyTx -> seq<byte>)
    requires a.legacy == b.legacy
    ensures EncodeOnlyLegacy(a, rlp) == EncodeOnlyLegacy(b, rlp)
  {
  }

  /** A wrapper and a copy of it whose hash override and effective gas price
      are overwritten with different values encode to the same bytes. */
  method EncodeCopyAlike(tx: MantleLegacyTxData, rlp: LegacyTx -> seq<byte>, hashOverride: Hash, effectiveGasPrice: u64)
      returns (original: seq<byte>, copied: seq<byte>)
    requires hashOverride != tx.HashOverride && effectiveGasPrice != tx.EffectiveGasPrice
    ensures original == copied == rlp(tx.Legacy)
  {
    var cpy := tx.Copy();
    cpy.HashOverride := hashOverride;
    cpy.EffectiveGasPrice := effectiveGasPrice;
    var w1 := new ByteBuffer();
    tx.EncodeOnlyLegacyInto(w1, rlp);
    var w2 := new ByteBuffer();
    cpy.EncodeOnlyLegacyInto(w2, rlp);
    original, copied := w1.Bytes, w2.Bytes;
  }
}
