/** Contract-creator selection by (commitment type, commitment kind), and
    the registry of creator tables keyed the same way. */
module ContractRegistry {
  import opened Wrappers
  import opened ByteCodec
  import opened GoErrors
  import opened DaTypes
  import opened Executors
  import ChallengerConfig

  type CommitmentKind = ChallengerConfig.CommitmentKind

  /** The creator implementations; only the keccak256 one exists. */
  datatype ContractCreation = Keccak256ContractCreator

  /** `NewContractCreator`: keccak256 commitments get the keccak256 creator;
      generic commitments fail with a kind-specific message (the EigenDA kind
      is recognised but unsupported); any other type is unrecognised. */
  function NewContractCreator(daType: CommitmentType, daKind: CommitmentKind): (r: Result<ContractCreation, Error>)
    ensures r.Success? <==> daType == Keccak256CommitmentType
    ensures r.Success? ==> r.value == Keccak256ContractCreator
    ensures daType == GenericCommitmentType && daKind == ChallengerConfig.Undefined ==>
              r == Failure(Message("daKind is undefined"))
    ensures daType == GenericCommitmentType && daKind == ChallengerConfig.EigenDA ==>
              r == Failure(Message("daKind EigenDA is currently unsupported"))
    ensures daType == GenericCommitmentType && daKind > 1 ==>
              r == Failure(Message("unrecongized daKind: " + Decimal(daKind)))
    ensures daType > 1 ==> r == Failure(Message("unrecongized daType: " + Decimal(daType)))
  {
    if daType == Keccak256CommitmentType then Success(Keccak256ContractCreator)
    else if daType == GenericCommitmentType then
      if daKind == ChallengerConfig.Undefined then Failure(Message("daKind is undefined"))
      else if daKind == ChallengerConfig.EigenDA then Failure(Message("daKind EigenDA is currently unsupported"))
      else Failure(Message("unrecongized daKind: " + Decimal(daKind)))
    else Failure(Message("unrecongized daType: " + Decimal(daType)))
  }

  /** A configuration that passed `Config.Check` never reaches the
      "undefined" or "unrecognised" outcomes: it gets a creator unless it
      asks for a generic kind other than undefined, which is reported as an
      error and never silently replaced. */
  lemma CheckedConfigSelectsCreator(c: ChallengerConfig.Config)
    requires ChallengerConfig.Check(c).None?
    ensures var r := NewContractCreator(c.commitmentType, c.commitmentKind);
            r.Success? || (c.commitmentType == GenericCommitmentType && c.commitmentKind >= ChallengerConfig.EigenDA)
    ensures c.commitmentType == Keccak256CommitmentType ==>
              NewContractCreator(c.commitmentType, c.commitmentKind) == Success(Keccak256ContractCreator)
  {
    ChallengerConfig.CheckIsFirstFailure(c);
  }

  /** A creator builds a contract binding for a contract address, or fails. */
  type ChallengeContractCreator = Address -> Result<ArgContract, Error>
  type ResolveContractCreator = Address -> Result<(CommitmentArg, Bytes) -> Result<TxCandidate, Error>, Error>
  type UnlockContractCreator = Address -> Result<ArgContract, Error>
  type WithdrawContractCreator = Address -> Result<Result<TxCandidate, Error>, Error>

  /** A two-level table keyed by commitment type, then commitment kind. */
  type Table<C> = map<CommitmentType, map<CommitmentKind, C>>

  /** `table[daType][daKind] = creator`, keeping every other entry. */
  function Put<C>(table: Table<C>, daType: CommitmentType, daKind: CommitmentKind, creator: C): Table<C> {
    var inner := if daType in table then table[daType] else map[];
    table[daType := inner[daKind := creator]]
  }

  /** `table[daType][daKind]`, absent when either level is missing. */
  function Lookup<C>(table: Table<C>, daType: CommitmentType, daKind: CommitmentKind): Option<C> {
    if daType in table && daKind in table[daType] then Some(table[daType][daKind]) else None
  }

  /** A registered creator is found under its own key, and every other key
      finds what it found before. */
  lemma PutThenLookup<C>(table: Table<C>, daType: CommitmentType, daKind: CommitmentKind, creator: C,
                         t: CommitmentType, k: CommitmentKind)
    ensures Lookup(Put(table, daType, daKind, creator), daType, daKind) == Some(creator)
    ensures (t, k) != (daType, daKind) ==>
              Lookup(Put(table, daType, daKind, creator), t, k) == Lookup(table, t, k)
  {
  }

  /** `Registry`: four creator tables, one per contract capability. */
  class Registry {
    var createChallengeContract: Table<ChallengeContractCreator>
    var createUnlockContract: Table<UnlockContractCreator>
    var createWithdrawContract: Table<WithdrawContractCreator>
    var createResolveContract: Table<ResolveContractCreator>

    constructor ()
      ensures createChallengeContract == map[] && createUnlockContract == map[]
      ensures createWithdrawContract == map[] && createResolveContract == map[]
    {
      createChallengeContract := map[];
      createUnlockContract := map[];
      createWithdrawContract := map[];
      createResolveContract := map[];
    }

    method RegisterBondWithdrawContract(daType: CommitmentType, daKind: CommitmentKind, creator: WithdrawContractCreator)
      modifies this`createWithdrawContract
      ensures createWithdrawContract == Put(old(createWithdrawContract), daType, daKind, creator)
      ensures Lookup(createWithdrawContract, daType, daKind) == Some(creator)
    {
      createWithdrawContract := Put(createWithdrawContract, daType, daKind, creator);
      PutThenLookup(old(createWithdrawContract), daType, daKind, creator, daType, daKind);
    }

    method RegisterCommitmentChallengeContract(daType: CommitmentType, daKind: CommitmentKind, creator: ChallengeContractCreator)
      modifies this`createChallengeContract
      ensures createChallengeContract == Put(old(createChallengeContract), daType, daKind, creator)
      ensures Lookup(createChallengeContract, daType, daKind) == Some(creator)
    {
      createChallengeContract := Put(createChallengeContract, daType, daKind, creator);
      PutThenLookup(old(createChallengeContract), daType, daKind, creator, daType, daKind);
    }

    method RegisterBondUnlockContract(daType: CommitmentType, daKind: CommitmentKind, creator: UnlockContractCreator)
      modifies this`createUnlockContract
      ensures createUnlockContract == Put(old(createUnlockContract), daType, daKind, creator)
      ensures Lookup(createUnlockContract, daType, daKind) == Some(creator)
    {
      createUnlockContract := Put(createUnlockContract, daType, daKind, creator);
      PutThenLookup(old(createUnlockContract), daType, daKind, creator, daType, daKind);
    }

    method RegisterChallengeResolverContract(daType: CommitmentType, daKind: CommitmentKind, creator: ResolveContractCreator)
      modifies this`createResolveContract
      ensures createResolveContract == Put(old(createResolveContract), daType, daKind, creator)
      ensures Lookup(createResolveContract, daType, daKind) == Some(creator)
    {
      createResolveContract := Put(createResolveContract, daType, daKind, creator);
      PutThenLookup(old(createResolveContract), daType, daKind, creator, daType, daKind);
    }
  }
}
