/** The Mantle signer: a wrapper around a base signer that answers for the
    Mantle variants itself and hands everything else, or the plain legacy
    transaction rebuilt from a wrapper, to the signer it wraps. */
module MantleSigning {
  import opened Common
  import opened MantleTypes
  import MantleLegacy

  /** The signers that can be compared and composed: a base chain signer,
      known by an identity, or a Mantle signer wrapping another signer. */
  datatype Signer =
    | BaseSigner(id: nat)
    | MantleSigner(wrapped: Signer)

  /** How many Mantle layers wrap the base signer, plus one. */
  function Depth(s: Signer): nat
  {
    match s
    case BaseSigner(_) => 1
    case MantleSigner(w) => 1 + Depth(w)
  }

  /** What a base signer computes: sender recovery, signature values and the
      signing hash use cryptography outside this model, and base signer
      equality compares chain parameters outside it; each is given as a
      function of the signer's identity. */
  datatype Backend = Backend(
    sender: (nat, Transaction) -> Result<Address>,
    signatureValues: (nat, Transaction, seq<byte>) -> Result<SignatureValues>,
    hash: (nat, Transaction) -> Hash,
    equal: (nat, Signer) -> bool)

  /** `NewMantleSigner`. */
  function NewMantleSigner(signer: Signer): Signer
  {
    MantleSigner(signer)
  }

  /** The sender a Mantle variant carries with it. */
  function EmbeddedSender(m: MantleTx): Address
  {
    match m
    case Unsigned(b) => b.from
    case Contract(b) => b.from
    case Deposit(b) => b.from
    case Internal(_) => MtosAddress
    case Retry(b) => b.from
    case SubmitRetryable(b) => b.from
  }

  /** `Sender`. */
  function Sender(be: Backend, s: Signer, tx: Transaction): Result<Address>
  {
    match s
    case BaseSigner(id) => be.sender(id, tx)
    case MantleSigner(w) =>
      match tx.inner
      case Mantle(m) => Ok(EmbeddedSender(m))
      case MantleLegacy(wrapper) =>
        if wrapper.sender.Some? then Ok(wrapper.sender.value)
        else Sender(be, w, MantleLegacy.UnwrapLegacy(wrapper))
      case _ => Sender(be, w, tx)
  }

  /** `Equal`: a Mantle signer equals another Mantle signer whose wrapped
      signer considers itself equal to this one's. */
  function Equal(be: Backend, s: Signer, s2: Signer): bool
    decreases Depth(s) + Depth(s2)
  {
    match s
    case BaseSigner(id) => be.equal(id, s2)
    case MantleSigner(w) => s2.MantleSigner? && Equal(be, s2.wrapped, w)
  }

  /** `SignatureValues`: `(V, R, S)`, or the wrapped signer's error. */
  function SignatureValuesOf(be: Backend, s: Signer, tx: Transaction, sig: seq<byte>): Result<SignatureValues>
  {
    match s
    case BaseSigner(id) => be.signatureValues(id, tx, sig)
    case MantleSigner(w) =>
      match tx.inner
      case Mantle(_) => Ok(ZeroSignature)
      case MantleLegacy(wrapper) => SignatureValuesOf(be, w, MantleLegacy.UnwrapLegacy(wrapper), sig)
      case _ => SignatureValuesOf(be, w, tx, sig)
  }

  /** `Hash`: the hash to be signed. Only the legacy wrapper is rebuilt as a
      plain transaction first. */
  function SigningHash(be: Backend, s: Signer, tx: Transaction): Hash
  {
    match s
    case BaseSigner(id) => be.hash(id, tx)
    case MantleSigner(w) =>
      if tx.inner.MantleLegacy? then SigningHash(be, w, MantleLegacy.UnwrapLegacy(tx.inner.wrapper))
      else SigningHash(be, w, tx)
  }

  // ---------------------------------------------------------------------
  // Dispatch rules.

  /** The unsigned call, contract call, deposit, retry and ticket submission
      report the sender they embed, whatever the wrapped signer does. */
  lemma EmbeddedSenderRule(be: Backend, w: Signer, m: MantleTx)
    requires !m.Internal?
    ensures Sender(be, MantleSigner(w), NewTx(Mantle(m))) == Ok(
      match m
      case Unsigned(b) => b.from
      case Contract(b) => b.from
      case Deposit(b) => b.from
      case Retry(b) => b.from
      case SubmitRetryable(b) => b.from)
  {
  }

  /** An internal call comes from the MtOS address, which is not the system
      address. */
  lemma InternalSenderRule(be: Backend, w: Signer, b: InternalBody)
    ensures Sender(be, MantleSigner(w), NewTx(Mantle(Internal(b)))) == Ok(MtosAddress)
    ensures MtosAddress != MtSysAddress
  {
    WellKnownAddressesDistinct();
  }

  /** A wrapper reports the sender it carries, if any; otherwise the wrapped
      signer recovers it from the plain legacy transaction. */
  lemma LegacyWrapperSenderRule(be: Backend, w: Signer, b: MantleLegacyBody)
    ensures b.sender.Some? ==> Sender(be, MantleSigner(w), NewTx(MantleLegacy(b))) == Ok(b.sender.value)
    ensures b.sender.None? ==>
      Sender(be, MantleSigner(w), NewTx(MantleLegacy(b))) == Sender(be, w, NewTx(Legacy(b.legacy)))
  {
  }

  /** The base kinds go to the wrapped signer unchanged, for every question. */
  lemma BaseKindsDelegate(be: Backend, w: Signer, tx: Transaction, sig: seq<byte>)
    requires tx.inner.Legacy? || tx.inner.AccessList? || tx.inner.DynamicFee?
    ensures Sender(be, MantleSigner(w), tx) == Sender(be, w, tx)
    ensures SignatureValuesOf(be, MantleSigner(w), tx, sig) == SignatureValuesOf(be, w, tx, sig)
    ensures SigningHash(be, MantleSigner(w), tx) == SigningHash(be, w, tx)
  {
  }

  /** The Mantle variants have the zero signature whatever is passed in; a
      wrapper's signature is that of its plain legacy transaction. */
  lemma SignatureValuesRule(be: Backend, w: Signer, tx: Transaction, sig: seq<byte>)
    ensures tx.inner.Mantle? ==> SignatureValuesOf(be, MantleSigner(w), tx, sig) == Ok(SignatureValues(0, 0, 0))
    ensures tx.inner.Mantle? ==> SignatureValuesOf(be, MantleSigner(w), tx, sig) == Ok(RawSignatureValues(tx.inner.mantle))
    ensures tx.inner.MantleLegacy? ==>
      SignatureValuesOf(be, MantleSigner(w), tx, sig) == SignatureValuesOf(be, w, NewTx(Legacy(tx.inner.wrapper.legacy)), sig)
  {
  }

  /** The signing hash of a Mantle variant is the wrapped signer's hash of the
      transaction itself; that of a wrapper is the hash of its plain legacy
      transaction. */
  lemma SigningHashRule(be: Backend, w: Signer, tx: Transaction)
    ensures tx.inner.Mantle? ==> SigningHash(be, MantleSigner(w), tx) == SigningHash(be, w, tx)
    ensures tx.inner.MantleLegacy? ==>
      SigningHash(be, MantleSigner(w), tx) == SigningHash(be, w, NewTx(Legacy(tx.inner.wrapper.legacy)))
  {
  }

  /** Equality with a Mantle signer holds exactly for Mantle signers whose
      wrapped signers compare equal. */
  lemma EqualRule(be: Backend, w: Signer, s2: Signer)
    ensures Equal(be, MantleSigner(w), s2) <==> s2.MantleSigner? && Equal(be, s2.wrapped, w)
    ensures !Equal(be, MantleSigner(w), BaseSigner(0))
  {
  }

  // ---------------------------------------------------------------------
  // Consequences.

  /** If every base signer equals itself, so does every signer, however
      deeply wrapped. */
  lemma {:induction false} EqualReflexive(be: Backend, s: Signer)
    requires forall id :: be.equal(id, BaseSigner(id))
    ensures Equal(be, s, s)
  {
    match s
    case BaseSigner(id) =>
    case MantleSigner(w) =>
      EqualReflexive(be, w);
  }

  /** A base signer never reports a Mantle signer equal, so neither does a
      wrapped one: a Mantle signer and a bare base signer never compare
      equal in either order. */
  lemma MantleNeverEqualsBase(be: Backend, w: Signer, id: nat)
    requires forall i, t :: be.equal(i, t) ==> t.BaseSigner?
    ensures !Equal(be, MantleSigner(w), BaseSigner(id))
    ensures !Equal(be, BaseSigner(id), MantleSigner(w))
  {
  }

  /** Nothing a wrapper adds to its legacy transaction (hash override,
      effective gas price, L1 block number) reaches the signing hash or the
      signature values. */
  lemma OverridesNotSigned(be: Backend, w: Signer, a: MantleLegacyBody, b: MantleLegacyBody, sig: seq<byte>)
    requires a.legacy == b.legacy
    ensures SigningHash(be, MantleSigner(w), NewTx(MantleLegacy(a)))
         == SigningHash(be, MantleSigner(w), NewTx(MantleLegacy(b)))
    ensures SignatureValuesOf(be, MantleSigner(w), NewTx(MantleLegacy(a)), sig)
         == SignatureValuesOf(be, MantleSigner(w), NewTx(MantleLegacy(b)), sig)
    ensures a.sender == b.sender ==>
      Sender(be, MantleSigner(w), NewTx(MantleLegacy(a))) == Sender(be, MantleSigner(w), NewTx(MantleLegacy(b)))
  {
  }

  /** Wrapping the legacy transaction and then asking for its sender recovers
      the sender of the original transaction when no override is given: the
      wrapper is transparent to the signer. */
  lemma WrapTransparent(be: Backend, w: Signer, origTx: Transaction, h: Hash, gas: u64, l1: u64)
    requires origTx.inner.Legacy?
    ensures var r := MantleLegacy.NewMantleLegacyTx(origTx, h, gas, l1, None);
      && r.Ok?
      && Sender(be, MantleSigner(w), r.value) == Sender(be, w, origTx)
      && SigningHash(be, MantleSigner(w), r.value) == SigningHash(be, w, origTx)
  {
    MantleLegacy.NewMantleLegacyTxWraps(origTx, h, gas, l1, None);
  }
}
