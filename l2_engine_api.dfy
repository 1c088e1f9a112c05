/** The fault-proof program's Engine API front: the payload id it derives
    from the build attributes, the per-account pending-transaction index,
    the fork-attribute check, and the parameter guards `engine_newPayloadV1`
    and `engine_newPayloadV3` apply before handing a payload to the backend. */
module EngineApi {
  import opened Wrappers
  import opened ByteCodec
  import opened GoErrors

  /** `eth.PayloadAttributes`, the fields the payload id covers. */
  datatype PayloadAttributes = PayloadAttributes(
    timestamp: Uint64,
    prevRandao: Hash,
    suggestedFeeRecipient: Address,
    noTxPool: bool,
    transactions: seq<Bytes>,
    gasLimit: Uint64)

  /** Lengths Go can write as a uint64. */
  predicate Encodable(attrs: PayloadAttributes) {
    |attrs.transactions| <= MaxUint64 && forall i | 0 <= i < |attrs.transactions| :: |attrs.transactions[i]| <= MaxUint64
  }

  /** `binary.Write` of a bool: one byte, 1 or 0. */
  function BoolByte(b: bool): Bytes {
    if b then [1] else [0]
  }

  /** Each transaction with its length in front. */
  function EncodeTxs(txs: seq<Bytes>): Bytes
    requires forall i | 0 <= i < |txs| :: |txs[i]| <= MaxUint64
  {
    if txs == [] then [] else Be64(|txs[0]|) + txs[0] + EncodeTxs(txs[1..])
  }

  /** The bytes `computePayloadId` feeds the hasher. */
  function PayloadIdPreimage(headBlockHash: Hash, attrs: PayloadAttributes): Bytes
    requires Encodable(attrs)
  {
    headBlockHash + (Be64(attrs.timestamp) + (attrs.prevRandao + (attrs.suggestedFeeRecipient +
    (BoolByte(attrs.noTxPool) + (Be64(|attrs.transactions|) + (EncodeTxs(attrs.transactions) + Be64(attrs.gasLimit)))))))
  }

  /** Reads back `count` length-prefixed transactions, returning them and what follows. */
  function DecodeTxs(bytes: Bytes, count: nat): Option<(seq<Bytes>, Bytes)>
    decreases count
  {
    if count == 0 then Some(([], bytes))
    else if |bytes| < 8 then None
    else
      var len := FromBigEndian(bytes[..8]);
      if |bytes| - 8 < len then None
      else
        match DecodeTxs(bytes[8 + len..], count - 1)
        case None => None
        case Some((rest, tail)) => Some(([bytes[8..8 + len]] + rest, tail))
  }

  /** Reads a preimage back into the head hash and attributes, one field
      after another. */
  function ParsePayloadIdPreimage(bytes: Bytes): Option<(Hash, PayloadAttributes)> {
    if |bytes| < 32 + 8 + 32 + 20 + 1 + 8 then None
    else
      var head := bytes[..32];
      var afterHead := bytes[32..];
      var timestamp := FromBigEndian(afterHead[..8]);
      var afterTime := afterHead[8..];
      var prevRandao := afterTime[..32];
      var afterRandao := afterTime[32..];
      var feeRecipient := afterRandao[..20];
      var afterFee := afterRandao[20..];
      var noTxPool := afterFee[0] == 1;
      var afterFlag := afterFee[1..];
      var count := FromBigEndian(afterFlag[..8]);
      match DecodeTxs(afterFlag[8..], count)
      case None => None
      case Some((txs, tail)) =>
        if |tail| != 8 || afterFee[0] > 1 then None
        else
          var gasLimit := FromBigEndian(tail);
          if timestamp > MaxUint64 || gasLimit > MaxUint64 then None
          else Some((head, PayloadAttributes(timestamp, prevRandao, feeRecipient, noTxPool, txs, gasLimit)))
  }

  /** Reading the length-prefixed transactions back gives them and the bytes after them. */
  lemma {:induction false} DecodeEncodeTxs(txs: seq<Bytes>, tail: Bytes)
    requires forall i | 0 <= i < |txs| :: |txs[i]| <= MaxUint64
    ensures DecodeTxs(EncodeTxs(txs) + tail, |txs|) == Some((txs, tail))
  {
    if txs != [] {
      var len := |txs[0]|;
      var prefix := Be64(len);
      var after := EncodeTxs(txs[1..]) + tail;
      var bytes := EncodeTxs(txs) + tail;
      assert bytes == prefix + (txs[0] + after);
      FrameParts(prefix, txs[0], after);
      Be64RoundTrip(len);
      assert FromBigEndian(bytes[..8]) == len;
      assert forall i | 0 <= i < |txs[1..]| :: txs[1..][i] == txs[i + 1];
      DecodeEncodeTxs(txs[1..], tail);
      assert DecodeTxs(bytes[8 + len..], |txs| - 1) == Some((txs[1..], tail));
      assert [txs[0]] + txs[1..] == txs;
      assert bytes[8..8 + len] == txs[0];
    } else {
      assert EncodeTxs(txs) + tail == tail;
    }
  }

  /** Slicing a length-prefixed frame. */
  lemma FrameParts(prefix: Bytes, body: Bytes, after: Bytes)
    requires |prefix| == 8
    ensures (prefix + (body + after))[..8] == prefix
    ensures (prefix + (body + after))[8..8 + |body|] == body
    ensures (prefix + (body + after))[8 + |body|..] == after
  {
  }

  /** A concatenation splits back into its two parts. */
  lemma Split(a: Bytes, b: Bytes)
    ensures (a + b)[..|a|] == a && (a + b)[|a|..] == b
  {
  }

  /** Where each field sits in the preimage, read the way the parser reads it. */
  lemma PreimageLayout(headBlockHash: Hash, attrs: PayloadAttributes)
    requires Encodable(attrs)
    ensures var p := PayloadIdPreimage(headBlockHash, attrs);
      |p| >= 32 + 8 + 32 + 20 + 1 + 8 &&
      p[..32] == headBlockHash &&
      FromBigEndian(p[32..][..8]) == attrs.timestamp &&
      p[32..][8..][..32] == attrs.prevRandao &&
      p[32..][8..][32..][..20] == attrs.suggestedFeeRecipient &&
      p[32..][8..][32..][20..][0] == BoolByte(attrs.noTxPool)[0] &&
      FromBigEndian(p[32..][8..][32..][20..][1..][..8]) == |attrs.transactions| &&
      p[32..][8..][32..][20..][1..][8..] == EncodeTxs(attrs.transactions) + Be64(attrs.gasLimit)
  {
    var txs := attrs.transactions;
    var afterFlag := Be64(|txs|) + (EncodeTxs(txs) + Be64(attrs.gasLimit));
    var afterFee := BoolByte(attrs.noTxPool) + afterFlag;
    var afterRandao := attrs.suggestedFeeRecipient + afterFee;
    var afterTime := attrs.prevRandao + afterRandao;
    var afterHead := Be64(attrs.timestamp) + afterTime;
    assert PayloadIdPreimage(headBlockHash, attrs) == headBlockHash + afterHead;
    Split(headBlockHash, afterHead);
    Split(Be64(attrs.timestamp), afterTime);
    Split(attrs.prevRandao, afterRandao);
    Split(attrs.suggestedFeeRecipient, afterFee);
    Split(BoolByte(attrs.noTxPool), afterFlag);
    Split(Be64(|txs|), EncodeTxs(txs) + Be64(attrs.gasLimit));
    Be64RoundTrip(attrs.timestamp);
    Be64RoundTrip(|txs|);
  }

  /** The preimage reads back into the head hash and attributes it was built from. */
  lemma PreimageRoundTrip(headBlockHash: Hash, attrs: PayloadAttributes)
    requires Encodable(attrs)
    ensures ParsePayloadIdPreimage(PayloadIdPreimage(headBlockHash, attrs)) == Some((headBlockHash, attrs))
  {
    PreimageLayout(headBlockHash, attrs);
    Be64RoundTrip(attrs.gasLimit);
    DecodeEncodeTxs(attrs.transactions, Be64(attrs.gasLimit));
  }

  /** Length-prefixing makes the preimage injective: different heads or
      attributes (transaction lists included) give different preimages. */
  lemma PreimageInjective(h1: Hash, a1: PayloadAttributes, h2: Hash, a2: PayloadAttributes)
    requires Encodable(a1) && Encodable(a2)
    requires PayloadIdPreimage(h1, a1) == PayloadIdPreimage(h2, a2)
    ensures h1 == h2 && a1 == a2
  {
    PreimageRoundTrip(h1, a1);
    PreimageRoundTrip(h2, a2);
  }

  type PayloadId = s: Bytes | |s| == 8 witness Zeros(8)

  lemma Assoc(a: Bytes, b: Bytes, c: Bytes)
    ensures (a + b) + c == a + (b + c)
  {
  }

  /** The fixed-width fields written one after another, followed by the rest,
      are the preimage's nesting. */
  lemma FixedFieldsThen(headBlockHash: Hash, attrs: PayloadAttributes, rest: Bytes)
    requires Encodable(attrs)
    ensures headBlockHash + Be64(attrs.timestamp) + attrs.prevRandao + attrs.suggestedFeeRecipient +
            BoolByte(attrs.noTxPool) + Be64(|attrs.transactions|) + rest ==
            headBlockHash + (Be64(attrs.timestamp) + (attrs.prevRandao + (attrs.suggestedFeeRecipient +
            (BoolByte(attrs.noTxPool) + (Be64(|attrs.transactions|) + rest)))))
  {
    var h, t, r, f, b, n := headBlockHash, Be64(attrs.timestamp), attrs.prevRandao, attrs.suggestedFeeRecipient,
                            BoolByte(attrs.noTxPool), Be64(|attrs.transactions|);
    Assoc(h + t + r + f + b, n, rest);
    Assoc(h + t + r + f, b, n + rest);
    Assoc(h + t + r, f, b + (n + rest));
    Assoc(h + t, r, f + (b + (n + rest)));
    Assoc(h, t, r + (f + (b + (n + rest))));
  }

  /** `computePayloadId`: streams the fields into SHA-256 (`sha256`) and
      keeps the first eight bytes of the digest. */
  method ComputePayloadId(sha256: Bytes -> Hash, headBlockHash: Hash, attrs: PayloadAttributes) returns (id: PayloadId)
    requires Encodable(attrs)
    ensures id == sha256(PayloadIdPreimage(headBlockHash, attrs))[..8]
  {
    var txs := attrs.transactions;
    var gas := Be64(attrs.gasLimit);
    var written := headBlockHash + Be64(attrs.timestamp) + attrs.prevRandao + attrs.suggestedFeeRecipient +
                   BoolByte(attrs.noTxPool) + Be64(|txs|);
    ghost var preimage := PayloadIdPreimage(headBlockHash, attrs);
    FixedFieldsThen(headBlockHash, attrs, EncodeTxs(txs) + gas);
    var i := 0;
    while i < |txs|
      invariant 0 <= i <= |txs|
      invariant written + (EncodeTxs(txs[i..]) + gas) == preimage
    {
      assert txs[i..][1..] == txs[i + 1..];
      var prefix := Be64(|txs[i]|);
      ghost var later := EncodeTxs(txs[i + 1..]) + gas;
      assert EncodeTxs(txs[i..]) + gas == (prefix + txs[i]) + later by {
        Assoc(prefix + txs[i], EncodeTxs(txs[i + 1..]), gas);
      }
      Assoc(written, prefix + txs[i], later);
      Assoc(written, prefix, txs[i]);
      written := written + prefix + txs[i];
      i := i + 1;
    }
    assert txs[i..] == [];
    assert EncodeTxs(txs[i..]) + gas == gas;
    written := written + gas;
    id := sha256(written)[..8];
  }

  class L2EngineApi {
    /** Per account, how many pool transactions the block being built already includes. */
    var pendingIndices: map<Address, Uint64>
    var l2ForceEmpty: bool

    /** `NewL2EngineAPI`: the index map is left nil, so every lookup is 0. */
    constructor ()
      ensures pendingIndices == map[] && !l2ForceEmpty
      ensures forall from :: PendingIndices(from) == 0
      ensures !ForcedEmpty()
    {
      pendingIndices := map[];
      l2ForceEmpty := false;
    }

    /** `PendingIndices`: the recorded index, or 0 for an account without one. */
    function PendingIndices(from: Address): (r: Uint64)
      reads this
      ensures from in pendingIndices ==> r == pendingIndices[from]
      ensures from !in pendingIndices ==> r == 0
    {
      if from in pendingIndices then pendingIndices[from] else 0
    }

    function ForcedEmpty(): (r: bool)
      reads this
      ensures r == l2ForceEmpty
    {
      l2ForceEmpty
    }
  }

  const ForkActiveMissing: Error := Message("fork active, missing expected attribute")
  const ForkInactiveUnexpected: Error := Message("fork inactive, unexpected attribute set")

  /** `checkAttribute`: an attribute must be present exactly when its fork is active. */
  function CheckAttribute(active: (int, Uint64) -> bool, present: bool, block: int, time: Uint64): (r: Option<Error>)
    ensures r.None? <==> (active(block, time) <==> present)
    ensures active(block, time) && !present ==> r == Some(ForkActiveMissing)
    ensures !active(block, time) && present ==> r == Some(ForkInactiveUnexpected)
  {
    if active(block, time) && !present then Some(ForkActiveMissing)
    else if !active(block, time) && present then Some(ForkInactiveUnexpected)
    else None
  }

  /** `eth.ExecutionInvalid` and the other payload statuses. */
  datatype ExecutionStatus = Valid | Invalid | Syncing | Accepted
  datatype PayloadStatus = PayloadStatus(status: ExecutionStatus)

  /** The error an engine API call returns: an `*engine.EngineAPIError`
      with its JSON-RPC code, its message and the cause `With` attached to
      it (the error does not unwrap to that cause), or an error passed on
      from the backend. */
  datatype RpcError =
    | EngineApiError(code: int, message: string, cause: string)
    | BackendError(err: Error)

  /** `engine.InvalidParams`, JSON-RPC code -32602. */
  const InvalidParamsCode: int := -32602
  function InvalidParams(cause: string): RpcError {
    EngineApiError(InvalidParamsCode, "Invalid parameters", cause)
  }

  /** The payload fields the guards look at; `withdrawals` is nil or a list. */
  datatype ExecutionPayload = ExecutionPayload(
    blockHash: Hash,
    withdrawals: Option<seq<Bytes>>,
    excessBlobGas: Option<Uint64>,
    blobGasUsed: Option<Uint64>)

  /** What a `NewPayload` call returns: a status and an error, either of which may be nil. */
  datatype NewPayloadResult = NewPayloadResult(status: Option<PayloadStatus>, err: Option<RpcError>)

  function Rejected(cause: string): NewPayloadResult {
    NewPayloadResult(Some(PayloadStatus(Invalid)), Some(InvalidParams(cause)))
  }

  /** `NewPayloadV1`: a payload that carries withdrawals, even an empty
      list, is invalid; anything else goes to the backend. */
  function NewPayloadV1(backend: ExecutionPayload -> NewPayloadResult, payload: ExecutionPayload): (r: NewPayloadResult)
    ensures payload.withdrawals.Some? ==>
              r.status == Some(PayloadStatus(Invalid)) && r.err.Some? && r.err.value.EngineApiError? &&
              r.err.value.code == InvalidParamsCode
    ensures payload.withdrawals.Some? ==> r == Rejected("withdrawals not supported in V1")
    ensures payload.withdrawals.None? ==> r == backend(payload)
  {
    if payload.withdrawals.Some? then Rejected("withdrawals not supported in V1")
    else backend(payload)
  }

  /** The `NewPayloadV3` guards in order, each with the message it gives. */
  function V3Guards(params: ExecutionPayload, versionedHashes: Option<seq<Hash>>, beaconRoot: Option<Hash>): (gs: seq<Option<string>>)
    ensures |gs| == 4
  {
    [ if params.excessBlobGas.None? then Some("nil excessBlobGas post-cancun") else None,
      if params.blobGasUsed.None? then Some("nil params.BlobGasUsed post-cancun") else None,
      if versionedHashes.None? then Some("nil versionedHashes post-cancun") else None,
      if beaconRoot.None? then Some("nil parentBeaconBlockRoot post-cancun") else None ]
  }

  /** `NewPayloadV3`: the Cancun fields must all be present, checked in order. */
  function NewPayloadV3(backend: ExecutionPayload -> NewPayloadResult, params: ExecutionPayload,
                        versionedHashes: Option<seq<Hash>>, beaconRoot: Option<Hash>): NewPayloadResult
  {
    if params.excessBlobGas.None? then Rejected("nil excessBlobGas post-cancun")
    else if params.blobGasUsed.None? then Rejected("nil params.BlobGasUsed post-cancun")
    else if versionedHashes.None? then Rejected("nil versionedHashes post-cancun")
    else if beaconRoot.None? then Rejected("nil parentBeaconBlockRoot post-cancun")
    else backend(params)
  }

  /** The first missing field decides the rejection; only a payload with
      all four reaches the backend. */
  lemma NewPayloadV3FirstMissing(backend: ExecutionPayload -> NewPayloadResult, params: ExecutionPayload,
                                 versionedHashes: Option<seq<Hash>>, beaconRoot: Option<Hash>, k: nat)
    requires k < 4
    requires V3Guards(params, versionedHashes, beaconRoot)[k].Some?
    requires forall j | 0 <= j < k :: V3Guards(params, versionedHashes, beaconRoot)[j].None?
    ensures NewPayloadV3(backend, params, versionedHashes, beaconRoot) ==
              Rejected(V3Guards(params, versionedHashes, beaconRoot)[k].value)
  {
    var gs := V3Guards(params, versionedHashes, beaconRoot);
    if k > 0 { assert gs[0].None?; }
    if k > 1 { assert gs[1].None?; }
    if k > 2 { assert gs[2].None?; }
  }

  lemma NewPayloadV3ReachesBackend(backend: ExecutionPayload -> NewPayloadResult, params: ExecutionPayload,
                                   versionedHashes: Option<seq<Hash>>, beaconRoot: Option<Hash>)
    ensures (params.excessBlobGas.Some? && params.blobGasUsed.Some? && versionedHashes.Some? && beaconRoot.Some?) ==>
              NewPayloadV3(backend, params, versionedHashes, beaconRoot) == backend(params)
    ensures (params.excessBlobGas.None? || params.blobGasUsed.None? || versionedHashes.None? || beaconRoot.None?) ==>
              NewPayloadV3(backend, params, versionedHashes, beaconRoot).status == Some(PayloadStatus(Invalid)) &&
              NewPayloadV3(backend, params, versionedHashes, beaconRoot).err.Some? &&
              NewPayloadV3(backend, params, versionedHashes, beaconRoot).err.value == EngineApiError(InvalidParamsCode,
                "Invalid parameters", NewPayloadV3(backend, params, versionedHashes, beaconRoot).err.value.cause)
  {
  }
}
