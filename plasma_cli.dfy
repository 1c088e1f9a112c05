/** The plasma DA command-line configuration: its `Check` guard chain, the
    backend switch of `NewDAClient`, and the checked uint64 to uint32
    narrowing of its flags. */
module PlasmaCli {
  import opened Wrappers
  import opened ByteCodec
  import opened GoErrors
  import EigendaCli

  /** `CLIConfig`; durations are signed nanosecond counts (`time.Duration`). */
  datatype CLIConfig = CLIConfig(
    enabled: bool,
    daServerUrl: string,
    daBackend: string,
    verifyOnRead: bool,
    primaryQuorumId: Uint32,
    primaryAdversaryThreshold: Uint32,
    primaryQuorumThreshold: Uint32,
    statusQueryRetryInterval: int,
    statusQueryTimeout: int)

  /** `url.Parse` as a function of the string: nil or the parse error. */
  type UrlParser = string -> Option<Error>

  const ErrNotEnabled: Error := Message("DA must be enabled; this version requires plasma eigenda")
  const ErrMissingServerUrl: Error := Message("DA server URL is required when plasma da is enabled")
  const InvalidServerUrl := "DA server URL is invalid"
  const ErrUnsupportedBackend: Error := Message("DA backend unsupported; this version requires plasma eigenda")
  const ErrAdversaryThreshold: Error := Message("must provide a valid primary DA adversary threshold between (0 and 100)")
  const ErrQuorumThreshold: Error := Message("must provide a valid primary DA quorum threshold between (0 and 100)")
  const ErrStatusQueryTimeout: Error := Message("DA status query timeout must be greater than 0")
  const ErrStatusQueryRetryInterval: Error := Message("DA status query retry interval must be greater than 0")

  /** Everything `Check` demands: plasma enabled, a URL that parses, the
      "eigenda" backend, thresholds in 1..99 and non-zero query durations. */
  predicate Acceptable(c: CLIConfig, parse: UrlParser) {
    c.enabled && c.daServerUrl != "" && parse(c.daServerUrl).None? &&
    c.daBackend == "eigenda" &&
    1 <= c.primaryAdversaryThreshold <= 99 &&
    1 <= c.primaryQuorumThreshold <= 99 &&
    c.statusQueryTimeout != 0 && c.statusQueryRetryInterval != 0
  }

  /** The guards of `Check` in source order. */
  function Guards(c: CLIConfig, parse: UrlParser): (gs: seq<Option<Error>>)
    ensures |gs| == 8
  {
    [ if !c.enabled then Some(ErrNotEnabled) else None,
      if c.daServerUrl == "" then Some(ErrMissingServerUrl) else None,
      if parse(c.daServerUrl).Some? then Some(Wrapped(InvalidServerUrl, parse(c.daServerUrl).value)) else None,
      if c.daBackend != "eigenda" then Some(ErrUnsupportedBackend) else None,
      if c.primaryAdversaryThreshold == 0 || c.primaryAdversaryThreshold >= 100 then Some(ErrAdversaryThreshold) else None,
      if c.primaryQuorumThreshold == 0 || c.primaryQuorumThreshold >= 100 then Some(ErrQuorumThreshold) else None,
      if c.statusQueryTimeout == 0 then Some(ErrStatusQueryTimeout) else None,
      if c.statusQueryRetryInterval == 0 then Some(ErrStatusQueryRetryInterval) else None ]
  }

  /** `CLIConfig.Check`. */
  function Check(c: CLIConfig, parse: UrlParser): Option<Error> {
    if !c.enabled then Some(ErrNotEnabled)
    else if c.daServerUrl == "" then Some(ErrMissingServerUrl)
    else if parse(c.daServerUrl).Some? then Some(Wrapped(InvalidServerUrl, parse(c.daServerUrl).value))
    else if c.daBackend != "eigenda" then Some(ErrUnsupportedBackend)
    else if c.primaryAdversaryThreshold == 0 || c.primaryAdversaryThreshold >= 100 then Some(ErrAdversaryThreshold)
    else if c.primaryQuorumThreshold == 0 || c.primaryQuorumThreshold >= 100 then Some(ErrQuorumThreshold)
    else if c.statusQueryTimeout == 0 then Some(ErrStatusQueryTimeout)
    else if c.statusQueryRetryInterval == 0 then Some(ErrStatusQueryRetryInterval)
    else None
  }

  /** `Check` reports its first failing guard, and nil exactly for an acceptable configuration. */
  lemma CheckIsFirstFailure(c: CLIConfig, parse: UrlParser)
    ensures Check(c, parse) == FirstError(Guards(c, parse))
    ensures Check(c, parse).None? <==> Acceptable(c, parse)
  {
    var gs := Guards(c, parse);
    // the branch `Check` returns from is the first failing guard
    if !c.enabled {
      FirstErrorIsFirst(gs, 0);
    } else if c.daServerUrl == "" {
      FirstErrorIsFirst(gs, 1);
    } else if parse(c.daServerUrl).Some? {
      FirstErrorIsFirst(gs, 2);
    } else if c.daBackend != "eigenda" {
      FirstErrorIsFirst(gs, 3);
    } else if c.primaryAdversaryThreshold == 0 || c.primaryAdversaryThreshold >= 100 {
      FirstErrorIsFirst(gs, 4);
    } else if c.primaryQuorumThreshold == 0 || c.primaryQuorumThreshold >= 100 {
      FirstErrorIsFirst(gs, 5);
    } else if c.statusQueryTimeout == 0 {
      FirstErrorIsFirst(gs, 6);
    } else if c.statusQueryRetryInterval == 0 {
      FirstErrorIsFirst(gs, 7);
    }
    FirstErrorNoneIff(gs);
  }

  /** The storage clients `NewDAClient` can return. */
  datatype DAStorage =
    | DAClient(url: string, verify: bool)
    | EigenDAClient(config: EigendaCli.CLIConfig)

  /** The EigenDA configuration the plasma configuration hands on. */
  function EigendaConfig(c: CLIConfig): (e: EigendaCli.CLIConfig)
    ensures e.rpc == c.daServerUrl && e.primaryQuorumId == c.primaryQuorumId
    ensures e.primaryAdversaryThreshold == c.primaryAdversaryThreshold
    ensures e.primaryQuorumThreshold == c.primaryQuorumThreshold
    ensures e.statusQueryRetryInterval == c.statusQueryRetryInterval
    ensures e.statusQueryTimeout == c.statusQueryTimeout
  {
    EigendaCli.CLIConfig(c.daServerUrl, c.primaryQuorumId, c.primaryAdversaryThreshold,
                         c.primaryQuorumThreshold, c.statusQueryRetryInterval, c.statusQueryTimeout)
  }

  /** `NewDAClient`: "default" gives the plain HTTP client, "eigenda" the
      EigenDA client, and any other backend a nil client. */
  function NewDAClient(c: CLIConfig): (r: Option<DAStorage>)
    ensures r.None? <==> c.daBackend != "default" && c.daBackend != "eigenda"
    ensures c.daBackend == "default" ==> r == Some(DAClient(c.daServerUrl, c.verifyOnRead))
    ensures c.daBackend == "eigenda" ==> r == Some(EigenDAClient(EigendaConfig(c)))
  {
    if c.daBackend == "default" then Some(DAClient(c.daServerUrl, c.verifyOnRead))
    else if c.daBackend == "eigenda" then Some(EigenDAClient(EigendaConfig(c)))
    else None
  }

  /** A plasma configuration that passes its check always yields an EigenDA
      client, and the configuration handed to it passes the EigenDA check. */
  lemma CheckedConfigGivesValidEigenDAClient(c: CLIConfig, parse: UrlParser)
    requires Check(c, parse).None?
    ensures NewDAClient(c).Some? && NewDAClient(c).value.EigenDAClient?
    ensures EigendaCli.Check(NewDAClient(c).value.config).None?
  {
    CheckIsFirstFailure(c, parse);
    EigendaCli.CheckIsFirstFailure(EigendaConfig(c));
  }

  /** `SafeConvertUInt64ToUInt32` of this package. */
  function SafeConvertUInt64ToUInt32(val: Uint64): (r: (Uint32, bool))
    ensures r.1 <==> val <= MaxUint32
    ensures r.1 ==> r.0 == val
    ensures !r.1 ==> r.0 == 0
  {
    if val <= MaxUint32 then (val, true) else (0, false)
  }

  /** `Uint32` of this package: narrow a uint64 flag or panic. */
  function Uint32(flags: string -> Uint64, flagName: string): (r: EigendaCli.FlagRead)
    ensures r.Panic? <==> flags(flagName) > MaxUint32
    ensures r.Panic? ==> r.msg == flagName + " must be in the uint32 range"
    ensures r.Value? ==> r.v == flags(flagName)
  {
    var (v, ok) := SafeConvertUInt64ToUInt32(flags(flagName));
    if !ok then EigendaCli.Panic(flagName + " must be in the uint32 range") else EigendaCli.Value(v)
  }
}
