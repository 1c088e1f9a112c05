/** The EigenDA client's command-line configuration: its `Check` guard
    chain and the checked narrowing of a uint64 flag to uint32. */
module EigendaCli {
  import opened Wrappers
  import opened ByteCodec
  import opened GoErrors

  /** `CLIConfig`; durations are signed nanosecond counts (`time.Duration`). */
  datatype CLIConfig = CLIConfig(
    rpc: string,
    primaryQuorumId: Uint32,
    primaryAdversaryThreshold: Uint32,
    primaryQuorumThreshold: Uint32,
    statusQueryRetryInterval: int,
    statusQueryTimeout: int)

  /** `SafeConvertUInt64ToUInt32`: the value itself and true when it fits in
      32 bits, otherwise zero and false. */
  function SafeConvertUInt64ToUInt32(val: Uint64): (r: (Uint32, bool))
    ensures r.1 <==> val <= MaxUint32
    ensures r.1 ==> r.0 == val
    ensures !r.1 ==> r.0 == 0
  {
    if val <= MaxUint32 then (val, true) else (0, false)
  }

  /** A flag read that either yields a value or panics with a message. */
  datatype FlagRead = Value(v: Uint32) | Panic(msg: string)

  /** `Uint32`: read a uint64 flag (the flag lookup is the `flags` function)
      and narrow it, panicking when it does not fit. */
  function Uint32(flags: string -> Uint64, flagName: string): (r: FlagRead)
    ensures r.Panic? <==> flags(flagName) > MaxUint32
    ensures r.Panic? ==> r.msg == flagName + " must be in the uint32 range"
    ensures r.Value? ==> r.v == flags(flagName)
  {
    var (v, ok) := SafeConvertUInt64ToUInt32(flags(flagName));
    if !ok then Panic(flagName + " must be in the uint32 range") else Value(v)
  }

  const ErrMissingRpc: Error := Message("must provide a DA RPC url")
  const ErrAdversaryThreshold: Error := Message("must provide a valid primary DA adversary threshold between (0 and 100)")
  const ErrQuorumThreshold: Error := Message("must provide a valid primary DA quorum threshold between (0 and 100)")
  const ErrStatusQueryTimeout: Error := Message("DA status query timeout must be greater than 0")
  const ErrStatusQueryRetryInterval: Error := Message("DA status query retry interval must be greater than 0")

  /** Everything `Check` demands: an RPC URL, both thresholds in 1..99 and
      non-zero query durations. */
  predicate Acceptable(c: CLIConfig) {
    c.rpc != "" &&
    1 <= c.primaryAdversaryThreshold <= 99 &&
    1 <= c.primaryQuorumThreshold <= 99 &&
    c.statusQueryTimeout != 0 && c.statusQueryRetryInterval != 0
  }

  /** The guards of `Check` in source order. */
  function Guards(c: CLIConfig): (gs: seq<Option<Error>>)
    ensures |gs| == 5
  {
    [ if c.rpc == "" then Some(ErrMissingRpc) else None,
      if c.primaryAdversaryThreshold == 0 || c.primaryAdversaryThreshold >= 100 then Some(ErrAdversaryThreshold) else None,
      if c.primaryQuorumThreshold == 0 || c.primaryQuorumThreshold >= 100 then Some(ErrQuorumThreshold) else None,
      if c.statusQueryTimeout == 0 then Some(ErrStatusQueryTimeout) else None,
      if c.statusQueryRetryInterval == 0 then Some(ErrStatusQueryRetryInterval) else None ]
  }

  /** `CLIConfig.Check`. */
  function Check(c: CLIConfig): Option<Error> {
    if c.rpc == "" then Some(ErrMissingRpc)
    else if c.primaryAdversaryThreshold == 0 || c.primaryAdversaryThreshold >= 100 then Some(ErrAdversaryThreshold)
    else if c.primaryQuorumThreshold == 0 || c.primaryQuorumThreshold >= 100 then Some(ErrQuorumThreshold)
    else if c.statusQueryTimeout == 0 then Some(ErrStatusQueryTimeout)
    else if c.statusQueryRetryInterval == 0 then Some(ErrStatusQueryRetryInterval)
    else None
  }

  /** `Check` reports its first failing guard, and nil exactly for an acceptable configuration. */
  lemma CheckIsFirstFailure(c: CLIConfig)
    ensures Check(c) == FirstError(Guards(c))
    ensures Check(c).None? <==> Acceptable(c)
  {
    var gs := Guards(c);
    // the branch `Check` returns from is the first failing guard
    if c.rpc == "" {
      FirstErrorIsFirst(gs, 0);
    } else if c.primaryAdversaryThreshold == 0 || c.primaryAdversaryThreshold >= 100 {
      FirstErrorIsFirst(gs, 1);
    } else if c.primaryQuorumThreshold == 0 || c.primaryQuorumThreshold >= 100 {
      FirstErrorIsFirst(gs, 2);
    } else if c.statusQueryTimeout == 0 {
      FirstErrorIsFirst(gs, 3);
    } else if c.statusQueryRetryInterval == 0 {
      FirstErrorIsFirst(gs, 4);
    }
    FirstErrorNoneIff(gs);
  }
}
