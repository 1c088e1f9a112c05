/** The challenger's shared data model: challenge status, commitment
    arguments, challenge records, resolve payloads and action tags. */
module DaTypes {
  import opened Wrappers
  import opened ByteCodec

  /** Status of a DA challenge; its uint64 encoding is the declaration ordinal. */
  datatype ChallengeStatus = Uninitialized | Active | Resolved | Expired

  /** `ChallengeStatus.ToUint64`. */
  function ToUint64(s: ChallengeStatus): (r: Uint64)
    ensures r <= 3
  {
    match s
    case Uninitialized => 0
    case Active => 1
    case Resolved => 2
    case Expired => 3
  }

  /** Reading a status back from its uint64 word; values past the last
      ordinal name no status. */
  function FromUint64(v: Uint64): (r: Option<ChallengeStatus>)
    ensures r.Some? <==> v <= 3
  {
    if v == 0 then Some(Uninitialized)
    else if v == 1 then Some(Active)
    else if v == 2 then Some(Resolved)
    else if v == 3 then Some(Expired)
    else None
  }

  /** Encoding then decoding a status gives it back. */
  lemma StatusRoundTrip(s: ChallengeStatus)
    ensures FromUint64(ToUint64(s)) == Some(s)
  {
  }

  /** Decoding then encoding a named value gives it back. */
  lemma StatusDecodeEncode(v: Uint64)
    requires FromUint64(v).Some?
    ensures ToUint64(FromUint64(v).value) == v
  {
  }

  /** The ordinals are pairwise distinct. */
  lemma ToUint64Injective(a: ChallengeStatus, b: ChallengeStatus)
    requires ToUint64(a) == ToUint64(b)
    ensures a == b
  {
    StatusRoundTrip(a);
    StatusRoundTrip(b);
  }

  /** Commitment types: keccak256 is 0 and the generic type (as the plasma
      package numbers it) is 1. */
  type CommitmentType = nat
  const Keccak256CommitmentType: CommitmentType := 0
  const GenericCommitmentType: CommitmentType := 1

  /** A keccak256 commitment on the wire: the type byte, then the 32-byte hash. */
  function EncodeKeccak256(h: Hash): (r: Bytes)
    ensures |r| == 33 && r[0] == Keccak256CommitmentType && r[1..] == h
  {
    [Keccak256CommitmentType as Byte] + h
  }

  function DecodeKeccak256(b: Bytes): Option<Hash> {
    if |b| == 33 && b[0] == Keccak256CommitmentType then Some(b[1..]) else None
  }

  /** Decoding inverts encoding. */
  lemma KeccakDecodeEncode(h: Hash)
    ensures DecodeKeccak256(EncodeKeccak256(h)) == Some(h)
  {
  }

  /** Whatever decodes re-encodes to the same bytes, so the encoding is onto
      its valid inputs and injective. */
  lemma KeccakEncodeDecode(b: Bytes)
    requires DecodeKeccak256(b).Some?
    ensures EncodeKeccak256(DecodeKeccak256(b).value) == b
  {
    assert b == [b[0]] + b[1..];
  }

  /** Identifies a disputed commitment: the L1 block it was posted at and its
      type-prefixed bytes. */
  datatype CommitmentArg = CommitmentArg(challengedBlockNumber: nat, challengedCommitment: Bytes)

  /** An on-chain challenge record: the commitment it disputes plus its own fields. */
  datatype Challenge = Challenge(
    arg: CommitmentArg,
    challenger: Address,
    lockedBond: nat,
    startBlock: nat,
    resolvedBlock: nat)

  /** The data needed to resolve a challenge: the commitment plus the retrieved blob. */
  datatype ResolveData = ResolveData(arg: CommitmentArg, blob: Bytes)

  /** A commitment with the status observed for it. */
  datatype Status = Status(arg: CommitmentArg, status: ChallengeStatus)

  /** `ActionType` is a string type whose two constants are "challenge" and "resolve". */
  type ActionType = string
  const ActionChallenge: ActionType := "challenge"
  const ActionResolve: ActionType := "resolve"

  /** `ActionType.String`: the underlying string. */
  function ActionString(a: ActionType): (r: string)
    ensures |r| == |a| && forall i | 0 <= i < |a| :: r[i] == a[i]
  {
    a
  }

  /** The `Action` record: a tag plus the challenge and resolve payloads. */
  datatype Action = Action(typ: ActionType, challenge: Challenge, resolveData: ResolveData)

  /** A transaction candidate as the contract bindings build it for the sender. */
  datatype TxCandidate = TxCandidate(txData: Bytes, to: Option<Address>, gasLimit: nat)
}
