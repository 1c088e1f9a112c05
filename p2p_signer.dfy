/** Block gossip signing: the hash a block signature covers (domain, chain id
    and payload hash, 96 bytes, hashed with Keccak-256), a local signer that
    stops signing once closed, and a remote signer that checks the HTTP
    signing service's reply. Keccak-256, ECDSA signing and the HTTP exchange
    are oracles. */
module P2pSigner {
  import opened Wrappers
  import opened ByteCodec
  import opened GoErrors

  type Signature = s: Bytes | |s| == 65 witness Zeros(65)

  /** `SigningDomainBlocksV1`: all zero. */
  const SigningDomainBlocksV1: Hash := Zeros(32)
  const ErrChainIdTooLarge: Error := Message("chain_id is too large")

  /** `big.Int.BitLen`: the bit length of the absolute value. */
  function BitLen(n: nat): (r: nat)
    ensures n == 0 <==> r == 0
  {
    if n == 0 then 0 else 1 + BitLen(n / 2)
  }

  function Pow2(k: nat): (r: nat)
    ensures r >= 1
  {
    if k == 0 then 1 else 2 * Pow2(k - 1)
  }

  function Abs(x: int): nat {
    if x < 0 then -x else x
  }

  /** A value fits in `k` bits exactly when it is below 2^k. */
  lemma {:induction false} BitLenBound(n: nat, k: nat)
    ensures BitLen(n) <= k <==> n < Pow2(k)
  {
    if n != 0 && k != 0 {
      BitLenBound(n / 2, k - 1);
    }
  }

  /** 2^(8k) is 256^k. */
  lemma {:induction false} Pow2Pow256(k: nat)
    ensures Pow2(8 * k) == Pow256(k)
  {
    if k > 0 {
      Pow2Pow256(k - 1);
      assert Pow2(8 * k) == 256 * Pow2(8 * (k - 1)) by {
        var m := 8 * (k - 1);
        assert Pow2(m + 8) == 2 * Pow2(m + 7) == 4 * Pow2(m + 6) == 8 * Pow2(m + 5) == 16 * Pow2(m + 4);
        assert Pow2(m + 4) == 2 * Pow2(m + 3) == 4 * Pow2(m + 2) == 8 * Pow2(m + 1) == 16 * Pow2(m);
      }
    }
  }

  /** The 96 bytes that are hashed: domain, the chain id as a 32-byte
      big-endian number (of its absolute value, as `FillBytes` writes) and
      the Keccak-256 hash of the payload. */
  function SigningPreimage(keccak: Bytes -> Hash, domain: Hash, chainId: int, payload: Bytes): (m: Bytes)
    ensures |m| == 96
  {
    domain + BigEndian(Abs(chainId), 32) + keccak(payload)
  }

  /** `SigningHash`. */
  function SigningHash(keccak: Bytes -> Hash, domain: Hash, chainId: int, payload: Bytes): (r: Result<Hash, Error>)
    ensures r.Failure? <==> BitLen(Abs(chainId)) > 256
    ensures r.Failure? ==> r.error == ErrChainIdTooLarge
    ensures r.Success? ==> r.value == keccak(SigningPreimage(keccak, domain, chainId, payload))
  {
    if BitLen(Abs(chainId)) > 256 then Failure(ErrChainIdTooLarge)
    else Success(keccak(SigningPreimage(keccak, domain, chainId, payload)))
  }

  /** A chain id is signable exactly when its absolute value fits in 32 bytes. */
  lemma SignableChainIds(chainId: int)
    ensures BitLen(Abs(chainId)) <= 256 <==> Abs(chainId) < Pow256(32)
  {
    BitLenBound(Abs(chainId), 256);
    Pow2Pow256(32);
  }

  /** The preimage splits back into domain, chain id and payload hash. */
  lemma SigningPreimageParts(keccak: Bytes -> Hash, domain: Hash, chainId: int, payload: Bytes)
    requires BitLen(Abs(chainId)) <= 256
    ensures SigningPreimage(keccak, domain, chainId, payload)[..32] == domain
    ensures FromBigEndian(SigningPreimage(keccak, domain, chainId, payload)[32..64]) == Abs(chainId)
    ensures SigningPreimage(keccak, domain, chainId, payload)[64..] == keccak(payload)
  {
    var m := SigningPreimage(keccak, domain, chainId, payload);
    assert m[32..64] == BigEndian(Abs(chainId), 32);
    SignableChainIds(chainId);
    BigEndianRoundTrip(Abs(chainId), 32);
  }

  /** `BlockSigningHash`: the all-zero domain and the L2 chain id. */
  function BlockSigningHash(keccak: Bytes -> Hash, l2ChainId: int, payload: Bytes): (r: Result<Hash, Error>)
    ensures r.Failure? <==> BitLen(Abs(l2ChainId)) > 256
    ensures r.Success? ==> r.value == keccak(Zeros(32) + BigEndian(Abs(l2ChainId), 32) + keccak(payload))
  {
    SigningHash(keccak, SigningDomainBlocksV1, l2ChainId, payload)
  }

  /** A signing-hash function, as the signers hold one. */
  type Hasher = (Hash, int, Bytes) -> Result<Hash, Error>

  const ErrSignerClosed: Error := Message("signer is closed")

  class LocalSigner {
    /** The private key; none once closed. */
    var priv: Option<nat>
    const hasher: Hasher
    /** `crypto.Sign`. */
    const ecdsaSign: (Hash, nat) -> Result<Signature, Error>

    /** `NewLocalSigner`: signs over `SigningHash`. */
    constructor (priv: nat, keccak: Bytes -> Hash, ecdsaSign: (Hash, nat) -> Result<Signature, Error>)
      ensures this.priv == Some(priv) && this.ecdsaSign == ecdsaSign
      ensures forall d, c, p :: hasher(d, c, p) == SigningHash(keccak, d, c, p)
    {
      this.priv := Some(priv);
      this.hasher := (d, c, p) => SigningHash(keccak, d, c, p);
      this.ecdsaSign := ecdsaSign;
    }

    /** `Sign`: refuses once closed; otherwise signs the signing hash, and
        a hashing error is returned as it is. */
    function Sign(domain: Hash, chainId: int, encodedMsg: Bytes): (r: Result<Signature, Error>)
      reads this
      ensures priv.None? ==> r == Failure(ErrSignerClosed)
      ensures priv.Some? && hasher(domain, chainId, encodedMsg).Failure? ==>
                r == Failure(hasher(domain, chainId, encodedMsg).error)
      ensures priv.Some? && hasher(domain, chainId, encodedMsg).Success? ==>
                r == ecdsaSign(hasher(domain, chainId, encodedMsg).value, priv.value)
    {
      if priv.None? then Failure(ErrSignerClosed)
      else
        match hasher(domain, chainId, encodedMsg)
        case Failure(e) => Failure(e)
        case Success(h) => ecdsaSign(h, priv.value)
    }

    /** `Close`: forgets the key; always nil. */
    method Close() returns (err: Option<Error>)
      modifies this`priv
      ensures priv.None? && err.None?
      ensures forall d, c, m :: Sign(d, c, m) == Failure(ErrSignerClosed)
    {
      priv := None;
      err := None;
    }
  }

  /** A hexadecimal digit, lower case. */
  function HexDigit(d: nat): char
    requires d < 16
  {
    if d < 10 then '0' + d as char else 'a' + (d - 10) as char
  }

  function HexBytes(bs: Bytes): (s: string)
    ensures |s| == 2 * |bs|
  {
    if bs == [] then "" else [HexDigit(bs[0] / 16), HexDigit(bs[0] % 16)] + HexBytes(bs[1..])
  }

  /** The request body: `{"signing_hash":"0x…"}` with the hash in lower-case hex. */
  function RequestBody(signingHash: Hash): string {
    "{\"signing_hash\":\"0x" + HexBytes(signingHash) + "\"}"
  }

  datatype HttpResponse = HttpResponse(statusCode: nat, body: Bytes)

  /** The HTTP side of the remote signer: building the request, sending it,
      decoding the JSON reply's signature field, and hex-decoding it. */
  datatype Transport = Transport(
    newRequest: (string, string) -> Option<Error>,
    send: (string, string) -> Result<HttpResponse, Error>,
    decodeReply: Bytes -> Result<string, Error>,
    decodeHex: string -> Result<Bytes, Error>)

  const StatusOK: nat := 200

  /** The signature bytes the service answered with, when the request was
      built and sent, the status was 200 and both the JSON reply and its hex
      field decoded. */
  function Answered(t: Transport, endpoint: string, signingHash: Hash): Option<Bytes> {
    var body := RequestBody(signingHash);
    if t.newRequest(endpoint, body).Some? then None
    else match t.send(endpoint, body)
      case Failure(_) => None
      case Success(resp) =>
        if resp.statusCode != StatusOK then None
        else match t.decodeReply(resp.body)
          case Failure(_) => None
          case Success(sigHex) =>
            match t.decodeHex(sigHex)
            case Failure(_) => None
            case Success(sig) => Some(sig)
  }

  const CreateRequestFailed: string := "failed to create request"
  const SendRequestFailed: string := "failed to send request"
  const UnexpectedStatus: string := "unexpected status code: "
  const DecodeResponseFailed: string := "failed to decode response"
  const DecodeSignatureFailed: string := "failed to decode signature"
  const InvalidLength: string := "invalid signature length: got "
  const WantLength: string := ", want 65"
  const SigningHashFailed: string := "failed to compute signing hash"

  /** The HTTP half of the remote `Sign`: every failure is wrapped with the
      step it came from, and only a 200 reply whose signature decodes to
      exactly 65 bytes is accepted. */
  function Exchange(t: Transport, endpoint: string, signingHash: Hash): (r: Result<Signature, Error>)
    ensures var answer := Answered(t, endpoint, signingHash);
            (r.Success? <==> answer.Some? && |answer.value| == 65) &&
            (r.Success? ==> r.value == answer.value) &&
            (answer.Some? && |answer.value| != 65 ==>
               r == Failure(Message(InvalidLength + Decimal(|answer.value|) + WantLength)))
    ensures var body := RequestBody(signingHash);
            t.newRequest(endpoint, body).None? && t.send(endpoint, body).Success? &&
            t.send(endpoint, body).value.statusCode != StatusOK ==>
              r == Failure(Message(UnexpectedStatus + Decimal(t.send(endpoint, body).value.statusCode)))
  {
    var body := RequestBody(signingHash);
    match t.newRequest(endpoint, body)
    case Some(e) => Failure(Wrapped(CreateRequestFailed, e))
    case None =>
      match t.send(endpoint, body)
      case Failure(e) => Failure(Wrapped(SendRequestFailed, e))
      case Success(resp) =>
        if resp.statusCode != StatusOK then
          Failure(Message(UnexpectedStatus + Decimal(resp.statusCode)))
        else
          match t.decodeReply(resp.body)
          case Failure(e) => Failure(Wrapped(DecodeResponseFailed, e))
          case Success(sigHex) =>
            match t.decodeHex(sigHex)
            case Failure(e) => Failure(Wrapped(DecodeSignatureFailed, e))
            case Success(sig) =>
              if |sig| != 65 then
                Failure(Message(InvalidLength + Decimal(|sig|) + WantLength))
              else Success(sig)
  }

  class RemoteSigner {
    const endpoint: string
    const hasher: Hasher
    const transport: Transport

    /** `NewRemoteSigner`: signs over `SigningHash`. */
    constructor (endpoint: string, keccak: Bytes -> Hash, transport: Transport)
      ensures this.endpoint == endpoint && this.transport == transport
      ensures forall d, c, p :: hasher(d, c, p) == SigningHash(keccak, d, c, p)
    {
      this.endpoint := endpoint;
      this.hasher := (d, c, p) => SigningHash(keccak, d, c, p);
      this.transport := transport;
    }

    /** `Sign`: a hashing error is wrapped; otherwise the signing hash is
        sent to the service and its answer checked. */
    function Sign(domain: Hash, chainId: int, encodedMsg: Bytes): (r: Result<Signature, Error>)
      ensures hasher(domain, chainId, encodedMsg).Failure? ==>
                r == Failure(Wrapped(SigningHashFailed, hasher(domain, chainId, encodedMsg).error))
      ensures hasher(domain, chainId, encodedMsg).Success? ==>
                var answer := Answered(transport, endpoint, hasher(domain, chainId, encodedMsg).value);
                (r.Success? <==> answer.Some? && |answer.value| == 65) &&
                (r.Success? ==> r.value == answer.value)
    {
      match hasher(domain, chainId, encodedMsg)
      case Failure(e) => Failure(Wrapped(SigningHashFailed, e))
      case Success(signingHash) => Exchange(transport, endpoint, signingHash)
    }

    /** `Close`: nothing to release; always nil. */
    method Close() returns (err: Option<Error>)
      ensures err.None?
    {
      err := None;
    }
  }
}
