/** The DA challenger's configuration record, its constructor with defaults,
    and `Config.Check`, a chain of early-return guards. */
module ChallengerConfig {
  import opened Wrappers
  import opened ByteCodec
  import opened GoErrors
  import opened DaTypes

  const ErrMaxConcurrencyZero: Error := Sentinel("ErrMaxConcurrencyZero")
  const ErrMissingL1EthRPC: Error := Sentinel("ErrMissingL1EthRPC")
  const ErrMissingL1Beacon: Error := Sentinel("ErrMissingL1Beacon")
  const ErrMissingPlasmaServerRPC: Error := Sentinel("ErrMissingPlasmaServerRPC")
  const ErrMissingBatchInboxAddress: Error := Sentinel("ErrMissingBatchInboxAddress")
  const ErrMissingDAChallengeAddress: Error := Sentinel("ErrMissingDAChallengeAddress")
  const ErrInvalidDACommitmentType: Error := Sentinel("ErrInvalidDACommitmentType")
  const ErrMissingDACommitmentKind: Error := Sentinel("ErrMissingDACommitmentKind")
  /** Sentinels the check returns that are declared outside config.go. */
  const ErrMissingL1ClientConfig: Error := Sentinel("ErrMissingL1ClientConfig")
  const ErrMissingPlasmaConfig: Error := Sentinel("ErrMissingPlasmaConfig")
  const ErrMissingPlasmaCLIConfig: Error := Sentinel("ErrMissingPlasmaCLIConfig")
  const ErrMissingRollupConfig: Error := Sentinel("ErrMissingRollupConfig")
  const ErrMissingBlobSourceConfig: Error := Sentinel("ErrMissingBlobSourceConfig")

  /** Durations are nanosecond counts, as `time.Duration` is. */
  const Second: nat := 1_000_000_000
  const DefaultPollInterval: nat := 12 * Second
  const DefaultMaxPendingTx: nat := 10

  /** `CommitmentKind`: Undefined is 0 and EigenDA is 1. */
  type CommitmentKind = nat
  const Undefined: CommitmentKind := 0
  const EigenDA: CommitmentKind := 1

  /** The configuration. Nested configurations held by reference are represented only
      by whether they are set; the three nested CLI configurations by the
      outcome of their own `Check`, which is not part of this model. */
  datatype Config = Config(
    l1EthRpc: string,
    l1Beacon: string,
    plasmaServerRpc: string,
    batchInboxAddress: Address,
    daChallengeAddress: Address,
    batcherAddresses: seq<Address>,
    maxConcurrency: nat,
    pollInterval: nat,
    hasL1ClientConfig: bool,
    l1EpochPollInterval: nat,
    maxPendingTx: Uint64,
    txMgrCheck: Option<Error>,
    metricsCheck: Option<Error>,
    pprofCheck: Option<Error>,
    commitmentType: CommitmentType,
    commitmentKind: CommitmentKind,
    hasPlasmaCLIConfig: bool,
    hasPlasmaConfig: bool,
    hasRollupConfig: bool,
    hasBlobSourceConfig: bool)

  /** `NewConfig`: copies its arguments and fills in the defaults; the
      concurrency is the machine's CPU count, passed in as `numCPU`, and the
      nested CLI configurations are the defaults whose checks are given. */
  function NewConfig(
    batchInboxAddress: Address,
    daChallengeAddress: Address,
    l1EthRpc: string,
    l1BeaconApi: string,
    plasmaRpc: string,
    batcherAddrs: seq<Address>,
    commitmentType: CommitmentType,
    commitmentKind: CommitmentKind,
    hasL1ClientConfig: bool,
    l1EpochPollInterval: nat,
    hasPlasmaCLIConfig: bool,
    hasPlasmaConfig: bool,
    hasRollupConfig: bool,
    hasBlobSourceConfig: bool,
    numCPU: nat,
    defaultChecks: (Option<Error>, Option<Error>, Option<Error>)): (c: Config)
    ensures c.pollInterval == DefaultPollInterval && c.maxPendingTx == DefaultMaxPendingTx
    ensures c.maxConcurrency == numCPU
    ensures c.l1EthRpc == l1EthRpc && c.l1Beacon == l1BeaconApi && c.plasmaServerRpc == plasmaRpc
    ensures c.batchInboxAddress == batchInboxAddress && c.daChallengeAddress == daChallengeAddress
    ensures c.batcherAddresses == batcherAddrs
    ensures c.commitmentType == commitmentType && c.commitmentKind == commitmentKind
  {
    Config(l1EthRpc, l1BeaconApi, plasmaRpc, batchInboxAddress, daChallengeAddress, batcherAddrs,
           numCPU, DefaultPollInterval, hasL1ClientConfig, l1EpochPollInterval, DefaultMaxPendingTx,
           defaultChecks.0, defaultChecks.1, defaultChecks.2, commitmentType, commitmentKind,
           hasPlasmaCLIConfig, hasPlasmaConfig, hasRollupConfig, hasBlobSourceConfig)
  }

  /** Everything `Check` demands of a configuration. */
  predicate Acceptable(c: Config) {
    c.l1EthRpc != "" && c.l1Beacon != "" && c.plasmaServerRpc != "" &&
    c.batchInboxAddress != Zeros(20) && c.daChallengeAddress != Zeros(20) &&
    c.commitmentType <= 1 &&
    (c.commitmentType == GenericCommitmentType ==> c.commitmentKind != Undefined) &&
    c.hasL1ClientConfig && c.hasPlasmaConfig && c.hasPlasmaCLIConfig &&
    c.hasRollupConfig && c.hasBlobSourceConfig &&
    c.maxConcurrency != 0 &&
    c.txMgrCheck.None? && c.metricsCheck.None? && c.pprofCheck.None?
  }

  /** Guard `k` of `Check`, in source order, with the error it returns. */
  function Guard(c: Config, k: nat): Option<Error>
    requires k < 16
  {
    match k
    case 0 => if c.l1EthRpc == "" then Some(ErrMissingL1EthRPC) else None
    case 1 => if c.l1Beacon == "" then Some(ErrMissingL1Beacon) else None
    case 2 => if c.plasmaServerRpc == "" then Some(ErrMissingPlasmaServerRPC) else None
    case 3 => if c.batchInboxAddress == Zeros(20) then Some(ErrMissingBatchInboxAddress) else None
    case 4 => if c.daChallengeAddress == Zeros(20) then Some(ErrMissingDAChallengeAddress) else None
    case 5 => if c.commitmentType > 1 then Some(ErrInvalidDACommitmentType) else None
    case 6 =>
      if c.commitmentType == GenericCommitmentType && c.commitmentKind == Undefined
      then Some(ErrMissingDACommitmentKind) else None
    case 7 => if !c.hasL1ClientConfig then Some(ErrMissingL1ClientConfig) else None
    case 8 => if !c.hasPlasmaConfig then Some(ErrMissingPlasmaConfig) else None
    case 9 => if !c.hasPlasmaCLIConfig then Some(ErrMissingPlasmaCLIConfig) else None
    case 10 => if !c.hasRollupConfig then Some(ErrMissingRollupConfig) else None
    case 11 => if !c.hasBlobSourceConfig then Some(ErrMissingBlobSourceConfig) else None
    case 12 => if c.maxConcurrency == 0 then Some(ErrMaxConcurrencyZero) else None
    case 13 => c.txMgrCheck
    case 14 => c.metricsCheck
    case _ => c.pprofCheck
  }

  /** The guards of `Check`, in source order. */
  function Guards(c: Config): (gs: seq<Option<Error>>)
    ensures |gs| == 16 && forall k | 0 <= k < 16 :: gs[k] == Guard(c, k)
  {
    seq(16, k requires 0 <= k < 16 => Guard(c, k))
  }

  /** `Config.Check`. The receiver is a copy, so the defaulting of the epoch
      poll interval inside it is invisible to the caller; the function
      returns only the error. */
  function Check(c: Config): Option<Error> {
    if c.l1EthRpc == "" then Some(ErrMissingL1EthRPC)
    else if c.l1Beacon == "" then Some(ErrMissingL1Beacon)
    else if c.plasmaServerRpc == "" then Some(ErrMissingPlasmaServerRPC)
    else if c.batchInboxAddress == Zeros(20) then Some(ErrMissingBatchInboxAddress)
    else if c.daChallengeAddress == Zeros(20) then Some(ErrMissingDAChallengeAddress)
    else if c.commitmentType > 1 then Some(ErrInvalidDACommitmentType)
    else if c.commitmentType == GenericCommitmentType && c.commitmentKind == Undefined
    then Some(ErrMissingDACommitmentKind)
    else if !c.hasL1ClientConfig then Some(ErrMissingL1ClientConfig)
    else if !c.hasPlasmaConfig then Some(ErrMissingPlasmaConfig)
    else if !c.hasPlasmaCLIConfig then Some(ErrMissingPlasmaCLIConfig)
    else if !c.hasRollupConfig then Some(ErrMissingRollupConfig)
    else if !c.hasBlobSourceConfig then Some(ErrMissingBlobSourceConfig)
    else if c.maxConcurrency == 0 then Some(ErrMaxConcurrencyZero)
    else if c.txMgrCheck.Some? then c.txMgrCheck
    else if c.metricsCheck.Some? then c.metricsCheck
    else if c.pprofCheck.Some? then c.pprofCheck
    else None
  }

  /** `Check` returns the error of its first failing guard in source order,
      and nil exactly for an acceptable configuration. */
  lemma CheckIsFirstFailure(c: Config)
    ensures Check(c) == FirstError(Guards(c))
    ensures Check(c).None? <==> Acceptable(c)
  {
    var gs := Guards(c);
    // the branch `Check` returns from is the first failing guard
    if c.l1EthRpc == "" {
      FirstErrorIsFirst(gs, 0);
    } else if c.l1Beacon == "" {
      FirstErrorIsFirst(gs, 1);
    } else if c.plasmaServerRpc == "" {
      FirstErrorIsFirst(gs, 2);
    } else if c.batchInboxAddress == Zeros(20) {
      FirstErrorIsFirst(gs, 3);
    } else if c.daChallengeAddress == Zeros(20) {
      FirstErrorIsFirst(gs, 4);
    } else if c.commitmentType > 1 {
      FirstErrorIsFirst(gs, 5);
    } else if c.commitmentType == GenericCommitmentType && c.commitmentKind == Undefined {
      FirstErrorIsFirst(gs, 6);
    } else if !c.hasL1ClientConfig {
      FirstErrorIsFirst(gs, 7);
    } else if !c.hasPlasmaConfig {
      FirstErrorIsFirst(gs, 8);
    } else if !c.hasPlasmaCLIConfig {
      FirstErrorIsFirst(gs, 9);
    } else if !c.hasRollupConfig {
      FirstErrorIsFirst(gs, 10);
    } else if !c.hasBlobSourceConfig {
      FirstErrorIsFirst(gs, 11);
    } else if c.maxConcurrency == 0 {
      FirstErrorIsFirst(gs, 12);
    } else if c.txMgrCheck.Some? {
      FirstErrorIsFirst(gs, 13);
    } else if c.metricsCheck.Some? {
      FirstErrorIsFirst(gs, 14);
    } else if c.pprofCheck.Some? {
      FirstErrorIsFirst(gs, 15);
    }
    FirstErrorNoneIff(gs);
  }
}
