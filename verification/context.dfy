/** Derivation of the transaction context from an optional signed proposal:
    the decoding chain, the header-type check and the binding digest. */
module Context {

  import opened Wrappers
  import opened Bytes
  import opened Utf16
  import opened Exceptions

  /** `HeaderType` numbers accepted by the stub. */
  const CONFIG: int32 := 1
  const ENDORSER_TRANSACTION: int32 := 3

  /** A SHA-256 digest. */
  type Digest = d: Bytes | |d| == 32 witness seq(32, _ => 0 as byte)

  /** The protobuf messages, reduced to the fields the stub reads. Nested
      messages stay encoded as bytes until the stub decodes them. */
  datatype SignedProposal = SignedProposal(proposalBytes: Bytes, signature: Bytes)
  datatype Proposal = Proposal(header: Bytes, payload: Bytes)
  datatype Header = Header(channelHeader: Bytes, signatureHeader: Bytes)
  datatype Timestamp = Timestamp(seconds: int64, nanos: int32)
  datatype ChannelHeader = ChannelHeader(headerType: int32, epoch: int64, timestamp: Timestamp)
  datatype SignatureHeader = SignatureHeader(creator: Bytes, nonce: Bytes)
  datatype ChaincodeProposalPayload = ChaincodeProposalPayload(transientMap: map<String16, Bytes>)

  /** The `parseFrom` functions: each either yields a message or fails. */
  datatype Decoders = Decoders(
    proposal: Bytes -> Option<Proposal>,
    header: Bytes -> Option<Header>,
    channelHeader: Bytes -> Option<ChannelHeader>,
    signatureHeader: Bytes -> Option<SignatureHeader>,
    payload: Bytes -> Option<ChaincodeProposalPayload>)

  /** The immutable per-transaction context. `timestamp` is kept as the
      protobuf seconds/nanos pair the stub hands to `Instant.ofEpochSecond`. */
  datatype TxContext = TxContext(
    channelId: String16,
    txId: String16,
    timestamp: Option<Timestamp>,
    creator: Option<Bytes>,
    transient: map<String16, Bytes>,
    binding: Option<Digest>)

  /** The messages a well-formed proposal decodes to. */
  datatype Decoded = Decoded(channelHeader: ChannelHeader, signatureHeader: SignatureHeader, payload: ChaincodeProposalPayload)

  /** The header types a chaincode may be invoked under. */
  const AcceptedTypes: set<int32> := {ENDORSER_TRANSACTION, CONFIG}

  predicate SupportedType(t: int32) {
    t in AcceptedTypes
  }

  /** `validateProposalType`: the `switch` returns for its two cases and
      throws for every other type. */
  function ValidateProposalType(ch: ChannelHeader): (r: Option<Exception>)
    ensures r.None? <==> SupportedType(ch.headerType)
    ensures r.Some? ==> r.value == UnsupportedProposalType(ch.headerType)
  {
    match ch.headerType
    case 3 => None
    case 1 => None
    case _ => Some(UnsupportedProposalType(ch.headerType))
  }

  /** The first three decoding steps: proposal, header, channel header. */
  function ChannelHeaderOf(sp: SignedProposal, d: Decoders): Option<(Header, ChannelHeader)> {
    match d.proposal(sp.proposalBytes)
    case None => None
    case Some(p) =>
      match d.header(p.header)
      case None => None
      case Some(h) =>
        match d.channelHeader(h.channelHeader)
        case None => None
        case Some(ch) => Some((h, ch))
  }

  /** The decoding chain of the constructor, in the order it runs. The
      header type is checked on the channel header alone: whatever the
      signature-header and payload decoders would do, an unsupported type is
      reported as such. */
  function Decode(sp: SignedProposal, d: Decoders): (r: Result<Decoded, Exception>)
    ensures ChannelHeaderOf(sp, d).None? ==> r == Failure(MalformedProposal)
    ensures ChannelHeaderOf(sp, d).Some? ==>
      var t := ChannelHeaderOf(sp, d).value.1.headerType;
      !SupportedType(t) ==> r == Failure(UnsupportedProposalType(t))
    ensures ChannelHeaderOf(sp, d).Some? ==>
      var (h, ch) := ChannelHeaderOf(sp, d).value;
      SupportedType(ch.headerType) ==>
        && (r.Success? <==> d.signatureHeader(h.signatureHeader).Some? && d.payload(d.proposal(sp.proposalBytes).value.payload).Some?)
        && (r.Failure? ==> r.error == MalformedProposal)
    ensures r.Success? ==> SupportedType(r.value.channelHeader.headerType)
    ensures r.Success? ==> ChannelHeaderOf(sp, d).Some? && r.value.channelHeader == ChannelHeaderOf(sp, d).value.1
    ensures r.Success? ==> d.signatureHeader(ChannelHeaderOf(sp, d).value.0.signatureHeader) == Some(r.value.signatureHeader)
    ensures r.Success? ==> d.payload(d.proposal(sp.proposalBytes).value.payload) == Some(r.value.payload)
    ensures r.Failure? ==> r.error == MalformedProposal || r.error.UnsupportedProposalType?
  {
    match ChannelHeaderOf(sp, d)
    case None => Failure(MalformedProposal)
    case Some((h, ch)) =>
      match ValidateProposalType(ch)
      case Some(e) => Failure(e)
      case None =>
        match d.signatureHeader(h.signatureHeader)
        case None => Failure(MalformedProposal)
        case Some(sh) =>
          match d.payload(d.proposal(sp.proposalBytes).value.payload)
          case None => Failure(MalformedProposal)
          case Some(pl) => Success(Decoded(ch, sh, pl))
  }

  /** The bytes `computeBinding` feeds to the digest: the nonce, then the
      creator, then the epoch as eight little-endian bytes. */
  function BindingPreimage(nonce: Bytes, creator: Bytes, epoch: int64): (r: Bytes)
    ensures |r| == |nonce| + |creator| + 8
    ensures r[..|nonce|] == nonce
    ensures r[|nonce|..|nonce| + |creator|] == creator
    ensures r[|nonce| + |creator|..] == Le64(epoch)
    ensures forall i :: 0 <= i < 8 ==> r[|nonce| + |creator| + i] as int == (epoch as int / Pow256(i)) % 256
  {
    var r := nonce + creator + Le64(epoch);
    assert r[|nonce| + |creator|..] == Le64(epoch);
    r
  }

  /** The constructor's context derivation. Without a proposal every
      identity field is absent; with one, either construction fails or
      creator, timestamp and binding are all present and all come from the
      same decoded proposal. */
  function DeriveContext(channelId: String16, txId: String16, sp: Option<SignedProposal>,
                         d: Decoders, sha256: Bytes -> Digest): (r: Result<TxContext, Exception>)
    ensures sp.None? ==> r == Success(TxContext(channelId, txId, None, None, map[], None))
    ensures sp.Some? ==> (r.Failure? <==> Decode(sp.value, d).Failure?)
    ensures sp.Some? && r.Failure? ==> r.error == Decode(sp.value, d).error
    ensures r.Success? ==> r.value.channelId == channelId && r.value.txId == txId
    ensures sp.Some? && r.Success? ==>
      // `computeBinding`: SHA-256 over the preimage
      var m := Decode(sp.value, d).value;
      && r.value.timestamp == Some(m.channelHeader.timestamp)
      && r.value.creator == Some(m.signatureHeader.creator)
      && r.value.transient == m.payload.transientMap
      && r.value.binding == Some(sha256(BindingPreimage(m.signatureHeader.nonce, m.signatureHeader.creator, m.channelHeader.epoch)))
  {
    match sp
    case None => Success(TxContext(channelId, txId, None, None, map[], None))
    case Some(p) =>
      match Decode(p, d)
      case Failure(e) => Failure(e)
      case Success(m) =>
        var creator := m.signatureHeader.creator;
        Success(TxContext(channelId, txId, Some(m.channelHeader.timestamp), Some(creator),
                          m.payload.transientMap, Some(sha256(BindingPreimage(m.signatureHeader.nonce, creator, m.channelHeader.epoch)))))
  }

  // ---------------------------------------------------------------------
  // Lemmas

  /** The preimage layout is unambiguous once the nonce and creator lengths
      are fixed: equal preimages come from equal nonces, creators and
      epochs. */
  lemma PreimageInjective(n1: Bytes, c1: Bytes, e1: int64, n2: Bytes, c2: Bytes, e2: int64)
    requires |n1| == |n2| && |c1| == |c2|
    ensures BindingPreimage(n1, c1, e1) == BindingPreimage(n2, c2, e2) <==> n1 == n2 && c1 == c2 && e1 == e2
  {
    if BindingPreimage(n1, c1, e1) == BindingPreimage(n2, c2, e2) {
      Le64Injective(e1, e2);
    }
  }

  /** Without the lengths the layout is ambiguous: nothing separates the
      nonce from the creator, so a byte can move from one to the other
      without changing the digest input. */
  lemma PreimageAmbiguousAcrossLengths()
    ensures BindingPreimage([1], [], 0) == BindingPreimage([], [1], 0)
  {
  }

  /** Two proposals that differ only in their epoch are bound to different
      preimages: the binding cannot be replayed across epochs unless the
      digest collides. */
  lemma EpochSeparatesBindings(nonce: Bytes, creator: Bytes, e1: int64, e2: int64)
    requires e1 != e2
    ensures BindingPreimage(nonce, creator, e1) != BindingPreimage(nonce, creator, e2)
  {
    PreimageInjective(nonce, creator, e1, nonce, creator, e2);
  }

  /** Worked vector: nonce 0x01..0x10, creator "Org1MSP", epoch 7. */
  lemma GoldenPreimage()
    ensures BindingPreimage([0x01, 0x02, 0x03, 0x04, 0x05, 0x06, 0x07, 0x08, 0x09, 0x0A, 0x0B, 0x0C, 0x0D, 0x0E, 0x0F, 0x10], [0x4F, 0x72, 0x67, 0x31, 0x4D, 0x53, 0x50], 7)
         == [0x01, 0x02, 0x03, 0x04, 0x05, 0x06, 0x07, 0x08, 0x09, 0x0A, 0x0B, 0x0C, 0x0D, 0x0E, 0x0F, 0x10,
             0x4F, 0x72, 0x67, 0x31, 0x4D, 0x53, 0x50,
             0x07, 0x00, 0x00, 0x00, 0x00, 0x00, 0x00, 0x00]
  {
  }

  /** A negative epoch is encoded in two's complement. */
  lemma NegativeEpochEncoding()
    ensures Le64(-1) == [0xFF, 0xFF, 0xFF, 0xFF, 0xFF, 0xFF, 0xFF, 0xFF]
  {
  }
}
