# DA challenger, derivation and fault-proof client core in Dafny

This project models the core of the Polymer fork of the Optimism monorepo. It covers four parts.

- **The data-availability challenger.** This is `op-dachallenger`:
  - it walks finalized L1 blocks;
  - it decodes each batcher-inbox commitment;
  - it challenges a commitment whose data is missing, and resolves a challenged commitment whose data it can fetch.

  The work goes to four one-slot schedulers (challenge, resolve, unlock, withdraw). Each hands its message to an executor that builds a contract call and sends it. Errors are joined as `errors.Join` does.
- **Configuration validation:**
  - the challenger's `Config.Check`;
  - the contract-creator registry keyed by commitment type and kind;
  - the plasma and EigenDA CLI checks, which pick a DA client.
- **Derivation and block signing:**
  - the calldata source, which pulls batcher data (and EigenDA blob references) out of L1 transactions;
  - the key-value log listener;
  - the gossip block signers, local and remote, with the 96-byte signing preimage.
- **The op-program L2 client:**
  - the oracle-backed key-value store;
  - the oracle-backed chain, with its block-number cache that `SetCanonical` rewinds and re-extends;
  - the engine API's payload-id preimage and the `NewPayload` guards.

**How the model is built:**
- Go structs whose fields change in place are Dafny classes: the schedulers, the actor, the registry, the data source, the listener, the store, the chain, the engine API and the signers.
- Pure Go functions are Dafny functions, and Go loops are methods with loop invariants. Each method is proved equal to a recursive specification function, and the lemmas state the properties of that function.
- Go errors are values of `GoErrors.Error`. There `Is` follows `%w` wrapping and `errors.Join` lists.
- Hashing, signing, contract calls, the L1 fetcher, the plasma DA client and the HTTP client are passed in as functions (oracles).

## Model

| member | source | states |
|---|---|---|
| DaTypes.FromUint64 | op-dachallenger/challenge/types/types.go:10-21 | a challenge-status word names a status exactly when it is 0..3 |
| DaTypes.StatusRoundTrip | op-dachallenger/challenge/keccak256/contracts/dachallenge_test.go:205-210 | decoding the uint64 encoding of a status gives the status back |
| DaTypes.StatusDecodeEncode | op-dachallenger/challenge/types/types.go:19-21 | every word that names a status re-encodes to that same word |
| DaTypes.ToUint64Injective | op-dachallenger/challenge/types/types.go:19-21 | distinct statuses never share an encoding |
| DaTypes.KeccakDecodeEncode | op-dachallenger/challenge/types/types.go:24-27 | decoding an encoded keccak commitment gives the hash back; the commitment is the `Keccak256` type byte 0 followed by the hash, as plasma's keccak commitment lays it out |
| DaTypes.KeccakEncodeDecode | op-dachallenger/challenge/types/types.go:24-27 | every decodable keccak commitment re-encodes to the same bytes, so the encoding is injective |
| Executors.ItemErrors | op-dachallenger/challenge/scheduler/challenger.go:33-38 | the per-item errors of a batch, one per item, in order |
| Executors.SentAllSnoc | op-dachallenger/challenge/scheduler/challenger.go:33-38 | processing one more item appends exactly that item's transactions |
| Executors.AccumulateIsJoinAll | op-dachallenger/challenge/scheduler/challenger.go:33-38 | the loop's accumulated error is `errors.Join` of all item errors, and the sent transactions are all items' transactions in order |
| Executors.AccumulateNilIff | op-dachallenger/challenge/scheduler/resolver.go:38-43 | a batch returns nil exactly when every item succeeded |
| Executors.AccumulateIs | op-dachallenger/challenge/scheduler/unlocker.go:40-45 | `errors.Is` holds for the batch error exactly when it holds for some item's error |
| Executors.SentOnePerItem | op-dachallenger/challenge/scheduler/challenger.go:33-38 | when every item sends one transaction, the batch sends them one per item, in item order |
| Executors.BuildAndSend | op-dachallenger/challenge/scheduler/challenger.go:40-54 | a contract call succeeds iff it was built and sent; a build failure and a send failure are wrapped with their own messages |
| Executors.BuildAndSendIs | op-dachallenger/challenge/scheduler/challenger.go:40-54 | `errors.Is` sees through the wrapping to the builder's or sender's error |
| Executors.Challenger.ChallengeCommitment | op-dachallenger/challenge/scheduler/challenger.go:40-54 | challenging one commitment sends one challenge tx, or fails with "failed to create candidate challenge tx" or the send error |
| Executors.Challenger.ChallengeCommitments | op-dachallenger/challenge/scheduler/challenger.go:33-38 | tries every commitment; nil iff all succeeded; sends exactly the successful items' transactions |
| Executors.ChallengeEveryCommitment | op-dachallenger/challenge/scheduler/challenger.go:33-38 | when every call builds, one challenge tx is sent per commitment, in order |
| Executors.Resolver.ResolveChallenge | op-dachallenger/challenge/scheduler/resolver.go:45-59 | resolving one challenge sends one resolve tx with its blob, or fails with the wrapped build or send error |
| Executors.Resolver.ResolveChallenges | op-dachallenger/challenge/scheduler/resolver.go:38-43 | tries every challenge; nil iff all succeeded; joins the errors |
| Executors.Unlocker.UnlockBond | op-dachallenger/challenge/scheduler/unlocker.go:47-65 | a simulation failure means still locked and is neither an error nor a tx; any other build error is wrapped; otherwise the unlock tx is sent |
| Executors.Unlocker.UnlockBonds | op-dachallenger/challenge/scheduler/unlocker.go:40-45 | tries every challenge; nil iff all succeeded |
| Executors.UnlockAllStillLocked | op-dachallenger/challenge/scheduler/unlocker.go:40-65 | when every simulation fails, the batch is a silent no-op |
| Executors.Withdrawer.WithdrawBonds | op-dachallenger/challenge/scheduler/withdrawer.go:33-46 | sends one withdraw tx or fails with the wrapped build or send error |
| Executors.WithdrawHeightIrrelevant | op-dachallenger/challenge/scheduler/withdrawer.go:33-36 | the block height does not affect the withdrawal |
| Challenges.ChallengeScheduler.constructor | op-dachallenger/challenge/scheduler/challenges.go:34-41 | a new scheduler has an empty mailbox and zero counters |
| Challenges.ChallengeScheduler.Start | op-dachallenger/challenge/scheduler/challenges.go:43-48 | starts the loop and keeps the mailbox and counters |
| Challenges.ChallengeScheduler.Close | op-dachallenger/challenge/scheduler/challenges.go:50-54 | cancels and returns nil |
| Challenges.ChallengeScheduler.Schedule | op-dachallenger/challenge/scheduler/challenges.go:73-78 | posts the commitment into the empty mailbox and returns nil |
| Challenges.ChallengeScheduler.Step | op-dachallenger/challenge/scheduler/challenges.go:56-71 | after cancel or with no message, nothing happens; otherwise the message is taken, challenged, and exactly one of the success and failure counters goes up |
| Resolves.ResolveScheduler.constructor | op-dachallenger/challenge/scheduler/resolves.go:34-41 | a new scheduler has an empty mailbox and zero counters |
| Resolves.ResolveScheduler.Start | op-dachallenger/challenge/scheduler/resolves.go:43-48 | starts the loop and keeps the mailbox and counters |
| Resolves.ResolveScheduler.Close | op-dachallenger/challenge/scheduler/resolves.go:50-54 | cancels and returns nil |
| Resolves.ResolveScheduler.Schedule | op-dachallenger/challenge/scheduler/resolves.go:73-78 | posts the resolve data into the empty mailbox and returns nil |
| Resolves.ResolveScheduler.Step | op-dachallenger/challenge/scheduler/resolves.go:56-71 | takes the message and resolves all its challenges; exactly one counter goes up, depending on the joined error |
| Unlocks.BondUnlockScheduler.constructor | op-dachallenger/challenge/scheduler/unlocks.go:34-41 | a new scheduler has an empty mailbox and no failures |
| Unlocks.BondUnlockScheduler.Start | op-dachallenger/challenge/scheduler/unlocks.go:43-48 | starts the loop and keeps the mailbox and counter |
| Unlocks.BondUnlockScheduler.Close | op-dachallenger/challenge/scheduler/unlocks.go:50-54 | cancels and returns nil |
| Unlocks.BondUnlockScheduler.Schedule | op-dachallenger/challenge/scheduler/unlocks.go:71-78 | posts into an empty mailbox; a busy mailbox drops the message; always nil |
| Unlocks.BondUnlockScheduler.Step | op-dachallenger/challenge/scheduler/unlocks.go:56-69 | takes the message and unlocks it; a failure is counted |
| Withdraws.WithdrawScheduler.constructor | op-dachallenger/challenge/scheduler/withdraws.go:31-38 | a new scheduler has an empty mailbox and no failures |
| Withdraws.WithdrawScheduler.Start | op-dachallenger/challenge/scheduler/withdraws.go:40-45 | starts the loop and keeps the mailbox and counter |
| Withdraws.WithdrawScheduler.Close | op-dachallenger/challenge/scheduler/withdraws.go:47-51 | cancels and returns nil |
| Withdraws.WithdrawScheduler.Schedule | op-dachallenger/challenge/scheduler/withdraws.go:68-75 | posts into an empty mailbox; a busy mailbox drops the message; always nil |
| Withdraws.WithdrawScheduler.Step | op-dachallenger/challenge/scheduler/withdraws.go:53-66 | takes the message and withdraws; the failure counter rises by one exactly on an error |
| ChallengerConfig.NewConfig | op-dachallenger/config/config.go:74-116 | copies the endpoints, addresses and commitment settings, and sets the default poll interval, pending-tx limit and concurrency |
| ChallengerConfig.CheckIsFirstFailure | op-dachallenger/config/config.go:118-173 | `Check` returns the first failing guard in source order, and nil exactly when the config is acceptable |
| ContractRegistry.NewContractCreator | op-dachallenger/challenge/register.go:29-45 | only the keccak256 type gets a creator; generic kinds and unknown types give their own error messages |
| ContractRegistry.CheckedConfigSelectsCreator | op-dachallenger/challenge/register.go:29-45 | a config that passes `Check` selects the keccak creator when its type is keccak256 |
| ContractRegistry.PutThenLookup | op-dachallenger/challenge/register.go:71-89 | a registered creator is found under its key, and other keys are unchanged |
| ContractRegistry.Registry.constructor | op-dachallenger/challenge/register.go:60-69 | all four creator tables start empty |
| ContractRegistry.Registry.RegisterBondWithdrawContract | op-dachallenger/challenge/register.go:71-74 | stores the withdraw creator under (type, kind), and only that table changes |
| ContractRegistry.Registry.RegisterCommitmentChallengeContract | op-dachallenger/challenge/register.go:76-79 | stores the challenge creator under (type, kind) |
| ContractRegistry.Registry.RegisterBondUnlockContract | op-dachallenger/challenge/register.go:81-84 | stores the unlock creator under (type, kind) |
| ContractRegistry.Registry.RegisterChallengeResolverContract | op-dachallenger/challenge/register.go:86-89 | stores the resolve creator under (type, kind) |
| EigendaCli.SafeConvertUInt64ToUInt32 | eigenda/cli.go:51-56 | converts exactly the values up to 2^32-1 and reports failure with 0 otherwise |
| EigendaCli.Uint32 | eigenda/cli.go:42-49 | reads the flag, or panics with "<flag> must be in the uint32 range" |
| EigendaCli.CheckIsFirstFailure | eigenda/cli.go:107-124 | `Check` returns the first failing guard, and nil exactly when the config is acceptable |
| PlasmaCli.CheckIsFirstFailure | op-plasma/cli.go:96-124 | `Check` returns the first failing guard, and nil exactly when the config is acceptable |
| PlasmaCli.EigendaConfig | op-plasma/cli.go:132-139 | the EigenDA client config copies the server URL and the quorum and retry settings |
| PlasmaCli.NewDAClient | op-plasma/cli.go:126-142 | "default" gives the plain client, "eigenda" the EigenDA client, and anything else no client |
| PlasmaCli.CheckedConfigGivesValidEigenDAClient | op-plasma/cli.go:96-142 | a config that passes `Check` builds an EigenDA client whose own config passes the EigenDA `Check` |
| PlasmaCli.SafeConvertUInt64ToUInt32 | op-plasma/cli.go:168-173 | converts exactly the values up to 2^32-1 and reports failure with 0 otherwise |
| PlasmaCli.Uint32 | op-plasma/cli.go:159-166 | reads the flag, or panics with "<flag> must be in the uint32 range" |
| DaActor.ItemStep | op-dachallenger/challenge/actor.go:122-203 | one data item as written: EOF ends the block; another error or empty data exits; a non-version-1 or undecodable item is skipped. For a decoded item, the full routing both ways: an active-challenge input error skips; a pending-challenge error schedules a challenge exactly when a challenger exists; any other input error skips; fetched data with an active status schedules a resolve, or panics without a resolver; any other status skips |
| DaActor.GuardedItemStep | op-dachallenger/challenge/actor.go:180-199 | the same step with the resolve branch guarded as the challenge branch is; it never panics and agrees with the written step whenever a resolver exists |
| DaActor.WalkAtMostOnePerItem | op-dachallenger/challenge/actor.go:122-203 | walking a block schedules at most one action per item |
| DaActor.WalkActionsAtRef | op-dachallenger/challenge/actor.go:163-199 | every scheduled action names the walked block's number |
| DaActor.WalkActionsFromItems | op-dachallenger/challenge/actor.go:122-203 | every scheduled action is the step of some item of the block |
| DaActor.WalkIsItemActionsUpToStop | op-dachallenger/challenge/actor.go:122-203 | when item k is the first that does not continue, the walk schedules exactly the actions of items before k, in order, and exits iff item k exits |
| DaActor.ItemActionsInclude | op-dachallenger/challenge/actor.go:163-199 | the action an item's step schedules is among the actions of any list containing that item |
| DaActor.PendingChallengeIsScheduled | op-dachallenger/challenge/actor.go:163-179 | a decoded commitment before the stop whose input is pending a challenge gets a challenge scheduled, when a challenger exists |
| DaActor.ActiveChallengeIsResolved | op-dachallenger/challenge/actor.go:180-199 | a decoded commitment before the stop with fetched data and an active challenge gets a resolve scheduled, when a resolver exists |
| DaActor.NoChallengerNoChallenge | op-dachallenger/challenge/actor.go:163-179 | without a challenger only resolves are scheduled |
| DaActor.EofEndsBlock | op-dachallenger/challenge/actor.go:124-127 | items after an EOF are never looked at, and the walk does not exit |
| DaActor.ContinuingItemsDoNotExit | op-dachallenger/challenge/actor.go:122-203 | a block whose items all continue is walked without leaving the loop |
| DaActor.HandleBlockSpec | op-dachallenger/challenge/actor.go:104-121 | a blob block without a beacon client exits; a failed origin advance other than a reorg exits; otherwise the block's items are walked |
| DaActor.ExitStopsRun | op-dachallenger/challenge/actor.go:94-133 | once a block makes the loop return, later finalized blocks are not handled |
| DaActor.Actor.constructor | op-dachallenger/challenge/actor.go:54-65 | holds the given schedulers and starts idle with nothing acted on |
| DaActor.Actor.StartAsWritten | op-dachallenger/challenge/actor.go:86-92 | as written: starts the resolver unconditionally, so it needs one |
| DaActor.Actor.Start | op-dachallenger/challenge/actor.go:86-92 | starts the loop, and the resolver when there is one |
| DaActor.Actor.Close | op-dachallenger/challenge/actor.go:208-212 | cancels and returns nil |
| DaActor.Actor.HandleItems | op-dachallenger/challenge/actor.go:122-203 | the item loop yields the specified walk, and records the block once per action |
| DaActor.Actor.HandleBlock | op-dachallenger/challenge/actor.go:100-203 | handling one finalized block yields its specified walk |
| DaActor.Actor.Run | op-dachallenger/challenge/actor.go:94-205 | the run loop handles the blocks in order until one exits, and after cancel does nothing. It records one acted ref per action, the block that action was scheduled at, and the last acted block is the block of the last action |
| DaActor.RunSpecStep | op-dachallenger/challenge/actor.go:94-205 | handling the blocks from one position on is that block's walk, followed by the rest unless that block made the loop return |
| DaActor.NewActor | op-dachallenger/challenge/actor.go:43-66 | fails exactly when neither scheduler is given; otherwise a fresh idle actor holding them |
| DaActor.NilResolverPanics | op-dachallenger/challenge/actor.go:180-199 | with only a challenger, an active challenge on fetched data reaches the nil resolver |
| DaActor.GuardedStepNeverPanics | op-dachallenger/challenge/actor.go:180-199 | the guarded walk never panics, and equals the written one whenever a resolver exists |
| CalldataSource.TxContribution | op-node/rollup/derive/calldata_source.go:120-180 | a transaction is ignored iff it is not to the inbox from the batcher; an unmarshal or blob failure aborts; otherwise it appends its frame data followed by the raw calldata |
| CalldataSource.RequestFor | op-node/rollup/derive/calldata_source.go:149-154 | an EigenDA blob request uses the frame's first quorum and its batch header hash |
| CalldataSource.ThenAssociates | op-node/rollup/derive/calldata_source.go:117-184 | prefixing output in two steps is the same as prefixing it at once |
| CalldataSource.IgnoredTxIrrelevant | op-node/rollup/derive/calldata_source.go:120-131 | removing a transaction that is not accepted changes nothing |
| CalldataSource.NothingAcceptedNothingOut | op-node/rollup/derive/calldata_source.go:117-131 | when nothing is accepted the data is empty |
| CalldataSource.AbortDiscardsEarlier | op-node/rollup/derive/calldata_source.go:133-170 | an aborting transaction discards everything collected before it |
| CalldataSource.ExtractConcat | op-node/rollup/derive/calldata_source.go:117-184 | extracting a concatenation is extracting the halves in sequence |
| CalldataSource.DataFromEVMTransactions | op-node/rollup/derive/calldata_source.go:117-184 | the loop computes the specified extraction |
| CalldataSource.DataSource.Next | op-node/rollup/derive/calldata_source.go:94-112 | an open source hands out its data one item at a time and then EOF; a closed one retries the fetch and opens on success |
| CalldataSource.NewDataSource | op-node/rollup/derive/calldata_source.go:70-89 | a fetch failure gives a closed source; a success gives an open source holding the extracted data; a panic gives none |
| HeadListener.NormaliseHeadsMod | op-dachallenger/challenge/keccak256/listener/listener.go:53-55 | a non-positive heads modulus becomes 1, and a positive one is kept |
| HeadListener.Translate | op-dachallenger/challenge/keccak256/listener/listener.go:88-109 | inbox, challenge and status logs become events of their type; a head is forwarded iff its number is a multiple of the modulus |
| HeadListener.ModOneForwardsEveryHead | op-dachallenger/challenge/keccak256/listener/listener.go:103-109 | with modulus 1 every head becomes a new-head event |
| HeadListener.QuitEndsListening | op-dachallenger/challenge/keccak256/listener/listener.go:84-87 | nothing received after quit is forwarded |
| HeadListener.Listener.Listen | op-dachallenger/challenge/keccak256/listener/listener.go:83-111 | the loop appends exactly the translated events to the output |
| HeadListener.NewListener | op-dachallenger/challenge/keccak256/listener/listener.go:52-81 | fails with the first subscription error; otherwise a listener with the normalised modulus |
| OracleKvStore.OracleKey | op-program/client/l2/tmdb.go:44-53 | a 32-byte key, or a 33-byte key with the node prefix, maps to its hash; other lengths and prefixes give their errors |
| OracleKvStore.LegacyKeyRoundTrip | op-program/client/l2/tmdb.go:44-53 | both key forms of a hash map back to that hash |
| OracleKvStore.OracleKeyInjective | op-program/client/l2/tmdb.go:44-53 | two keys of one length that map to the same hash are equal |
| OracleKvStore.Store.constructor | op-program/client/l2/tmdb.go:27-33 | starts with an empty in-memory database |
| OracleKvStore.Store.Get | op-program/client/l2/tmdb.go:36-54 | an empty key fails; a stored key gives its value; any other key falls back to the oracle |
| OracleKvStore.Store.Has | op-program/client/l2/tmdb.go:57-59 | fails only on the empty key, and otherwise says whether the key is stored |
| OracleKvStore.Store.Set | op-program/client/l2/tmdb.go:85-90 | stores the pair so that `Get` returns it, and reports it to the listener when there is one |
| OracleKvStore.Store.Delete | op-program/client/l2/tmdb.go:101-103 | removes the key from memory, after which `Get` falls back to the oracle |
| EngineBackend.FirstRejected | op-program/client/l2/poly_engine_backend.go:183-188 | finds the first transaction the processor rejects, or none when all are accepted |
| EngineBackend.InsertAcceptsOnlyVerifiedBlocks | op-program/client/l2/poly_engine_backend.go:178-202 | insertion succeeds iff every tx is accepted, assembly succeeds, the root matches and the commit succeeds |
| EngineBackend.Chain.AncestorAt | op-program/client/l2/poly_engine_backend.go:93-98 | walking parents from a known header reaches the known header at any lower height |
| EngineBackend.Chain.constructor | op-program/client/l2/poly_engine_backend.go:60-78 | head, safe and finalized start at the oracle's head, which is the only indexed height |
| EngineBackend.Chain.GetHeaderByNumber | op-program/client/l2/poly_engine_backend.go:85-101 | nil above the head; otherwise the head's ancestor at that height, indexing the walked heights |
| EngineBackend.Chain.GetBlock | op-program/client/l2/poly_engine_backend.go:130-146 | a block is returned only when its number matches the requested one |
| EngineBackend.Chain.GetCanonicalHash | op-program/client/l2/poly_engine_backend.go:158-164 | the hash of the head's ancestor at that height, or zero above the head |
| EngineBackend.Chain.InsertBlockWithoutSetHead | op-program/client/l2/poly_engine_backend.go:178-202 | stores the block exactly when it is verified, and leaves the store unchanged otherwise; an inserted block is then what a lookup by its hash returns, and no lookup by another hash changes |
| EngineBackend.Chain.SetCanonical | op-program/client/l2/poly_engine_backend.go:204-228 | after the rewind and re-index, every cached height holds the new head's ancestor, and heights above the new head are gone |
| EngineBackend.Chain.DropAbove | op-program/client/l2/poly_engine_backend.go:208-211 | removes exactly the heights in the dropped range |
| EngineBackend.Chain.IndexBack | op-program/client/l2/poly_engine_backend.go:216-226 | re-indexes from the head down to the first height already agreeing with it |
| EngineBackend.Chain.SetSafe | op-program/client/l2/poly_engine_backend.go:234-236 | the safe header becomes the given one |
| EngineBackend.Chain.SetFinalized | op-program/client/l2/poly_engine_backend.go:230-232 | the finalized header becomes the given one |
| EngineBackend.CanonicalExtend | op-program/client/l2/poly_engine_backend.go:224 | adding the head's ancestor at a height keeps the cache canonical |
| EngineBackend.AncestorStep | op-program/client/l2/poly_engine_backend.go:96 | the ancestor one height lower is the parent of the ancestor |
| EngineBackend.AncestorTransitive | op-program/client/l2/poly_engine_backend.go:93-98 | an ancestor of an ancestor is an ancestor |
| EngineBackend.ChainsAgreeBelow | op-program/client/l2/poly_engine_backend.go:218-223 | two chains that agree at one height agree at every lower height, which justifies the early stop |
| EngineBackend.CacheAgreesBelow | op-program/client/l2/poly_engine_backend.go:213-226 | the stopped re-index leaves a cache that is canonical for the new head |
| EngineBackend.NewChain | op-program/client/l2/poly_engine_backend.go:47-79 | a non-V0 output root fails; otherwise the chain starts at the output's block, and it is valid when the oracle's blocks link up |
| EngineApi.DecodeEncodeTxs | op-program/client/l2/poly_engineapi/l2_engine_api.go:54-57 | the length-prefixed transactions read back to the same transactions and the bytes after them |
| EngineApi.FrameParts | op-program/client/l2/poly_engineapi/l2_engine_api.go:54-57 | one length-prefixed frame splits into its length, body and rest |
| EngineApi.PreimageRoundTrip | op-program/client/l2/poly_engineapi/l2_engine_api.go:46-62 | the payload-id preimage parses back to the head hash and attributes |
| EngineApi.PreimageLayout | op-program/client/l2/poly_engineapi/l2_engine_api.go:46-62 | the preimage starts with the head hash, the big-endian timestamp, the randao, the fee recipient, the no-tx-pool byte and the transaction count, at fixed offsets |
| EngineApi.PreimageInjective | op-program/client/l2/poly_engineapi/l2_engine_api.go:46-62 | distinct (head, attributes) pairs have distinct preimages |
| EngineApi.ComputePayloadId | op-program/client/l2/poly_engineapi/l2_engine_api.go:46-63 | the id is the first 8 bytes of the SHA-256 of the preimage |
| EngineApi.L2EngineApi.constructor | op-program/client/l2/poly_engineapi/l2_engine_api.go:35-43 | no pending indices, so every account's pending index reads 0, and no forced-empty blocks |
| EngineApi.CheckAttribute | op-program/client/l2/poly_engineapi/l2_engine_api.go:113-121 | nil exactly when the attribute is present iff its fork is active, with a distinct error in each direction |
| EngineApi.NewPayloadV1 | op-program/client/l2/poly_engineapi/l2_engine_api.go:123-129 | a payload with withdrawals, even an empty list, is invalid with a code -32602 invalid-params error; anything else reaches the backend |
| EngineApi.NewPayloadV3FirstMissing | op-program/client/l2/poly_engineapi/l2_engine_api.go:136-150 | the first missing Cancun field decides the rejection message |
| EngineApi.NewPayloadV3ReachesBackend | op-program/client/l2/poly_engineapi/l2_engine_api.go:136-151 | only a payload with all four Cancun fields reaches the backend; any other is invalid with a code -32602 invalid-params error |
| P2pSigner.BitLenBound | op-node/p2p/signer.go:33-35 | a number fits in k bits exactly when it is below 2^k |
| P2pSigner.SigningPreimage | op-node/p2p/signer.go:29-38 | the hashed message is 96 bytes |
| P2pSigner.SigningHash | op-node/p2p/signer.go:28-41 | fails with "chain_id is too large" exactly when the chain id needs more than 256 bits; otherwise the Keccak-256 of domain, chain id and payload hash |
| P2pSigner.SignableChainIds | op-node/p2p/signer.go:33-36 | a chain id is signable exactly when its absolute value fits in 32 bytes |
| P2pSigner.SigningPreimageParts | op-node/p2p/signer.go:29-40 | the preimage splits back into domain, big-endian chain id and payload hash |
| P2pSigner.BlockSigningHash | op-node/p2p/signer.go:43-45 | block signing uses the all-zero domain and the L2 chain id |
| P2pSigner.LocalSigner.constructor | op-node/p2p/signer.go:53-55 | holds the key and signs over `SigningHash` |
| P2pSigner.LocalSigner.Sign | op-node/p2p/signer.go:57-70 | a closed signer refuses; a hashing error is returned unwrapped; otherwise the ECDSA signature of the signing hash |
| P2pSigner.LocalSigner.Close | op-node/p2p/signer.go:72-75 | forgets the key, returns nil, and every later `Sign` fails as closed |
| P2pSigner.RemoteSigner.constructor | op-node/p2p/signer.go:82-84 | holds the endpoint and signs over `SigningHash` |
| P2pSigner.Exchange | op-node/p2p/signer.go:92-136 | only a 200 reply whose signature hex-decodes to exactly 65 bytes succeeds, with those bytes; a wrong length gives "invalid signature length: got n, want 65" and a non-200 status "unexpected status code: n" |
| P2pSigner.RemoteSigner.Sign | op-node/p2p/signer.go:86-137 | a hashing error is wrapped as "failed to compute signing hash"; otherwise it succeeds exactly when the service answers 200 with 65 signature bytes, and returns those bytes |
| P2pSigner.RemoteSigner.Close | op-node/p2p/signer.go:139-141 | returns nil |

## Left out

- Concurrency is not modelled: goroutines, `select`, channels, contexts and `WaitGroup`. Each scheduler loop is modelled as one `Step` per received message. The actor's and listener's loops run over a given sequence of finalized blocks or received logs.
- Metrics and logging are not modelled. Scheduler metrics become plain counters, and the actor records the acted-on blocks.
- Repeated `Start` or `Close` is not modelled. `Close` requires a started scheduler or actor.
- Calls into code outside this model are oracles passed in as functions:
  - contract-call builders, the transaction sender, `AdvanceL1Origin`, `GetInput`, `GetChallengeStatus`;
  - commitment decoding, `proto.Unmarshal`, `RetrieveBlob`, `url.Parse`;
  - Keccak-256, SHA-256, ECDSA signing, header hashing;
  - the block processor;
  - the HTTP client and JSON decoding.
- Challenges.ChallengeScheduler.Schedule and Resolves.ResolveScheduler.Schedule require an empty mailbox. The Go send blocks until the loop takes the message, and a blocked send is not modelled.
- The schedulers and executors differ in signature. The challenge and unlock schedulers pass one commitment where the executors take a list, and the actor passes one resolve datum. The model passes one-element lists.
- ContractRegistry.Registry: the Go registry writes into maps that are nil until initialised. The model starts with empty tables, so the nil-map panic is not modelled.
- Sub-configuration checks are given as outcomes rather than re-modelled: the transaction manager, metrics, pprof and RPC configs.
- Two error values the source uses without declaring them in the shown files are messages here: config.go's `ErrMissing…` sentinels and tmdb's `ErrInvalidKeyLength`.
- ReadCLIConfig and the flag definitions are not modelled (eigenda/cli.go:126-136, op-plasma/cli.go:144-156). They only wire flags into the config struct.
- OracleKvStore.Store: the in-memory database's behaviour on empty keys is an assumption taken from cometbft-db, which is not part of this model. So are nil values.
- OracleKvStore.Store: the iterators, batches, `Print`, `Stats` and the `Sync` variants are not modelled.
- EngineBackend.Chain.InsertBlockWithoutSetHead does not claim to preserve `Valid`, because the processor oracle may insert unlinked blocks.
- EngineBackend.Chain.SetCanonical requires the new head to descend from the oracle's starting head. This is the assumption the source states at poly_engine_backend.go:213-215: the starting head acts as the finalized block. Heads below it are not modelled.
- EngineBackend: the "block root mismatch" error keeps its text but not the two hex hashes.
- `GetTd`, `GetHeader`, `HasBlockAndState`, `StateAt`, `Config`, `Engine` and the current-header getters are not modelled. These thin accessors have no logic of their own.
- Uint64 overflow of `head.NumberU64()+1` in SetCanonical is not modelled; heights are unbounded.
- EngineApi: the `GetPayload`, `ForkchoiceUpdated` and `NewPayloadV2` wrappers are not modelled. They forward to the go-ethereum engine API, which is not part of this model.
- `RemainingBlockGas` and `IncludeTx` are not modelled, and neither is the nil `GasLimit` dereference in `computePayloadId`.
- CalldataSource.NewDataSource: on a successful open the Go constructor leaves the source's id and batcher address at their zero values, while the model stores the given ones. Neither field is read again once the source is open.
- CalldataSource: slicing a blob beyond its capacity is modelled as a panic that yields no source.
- HeadListener: the aliasing of the head's `big.Int` is not modelled.
- P2pSigner.RemoteSigner.Sign: the "failed to marshal request body" branch is not modelled. `json.Marshal` of a struct with one string field cannot fail.
- P2pSigner.LocalSigner.Sign: the ECDSA signer is an oracle that returns 65 bytes.

## Findings

| source | as written | input that shows it | evidently intended | confidence | as-written member | corrected member |
|---|---|---|---|---|---|---|
| op-dachallenger/challenge/actor.go:46-48, 89, 187 | `NewActor` accepts a nil resolver when a challenger is given, but `Start` and the resolve branch call the resolver unconditionally | an actor with a challenger and no resolver, walking a version-1 item that decodes, whose data is fetched, and whose challenge status is active | nil-check the resolver, as the challenge branch does for the challenger | not executed | DaActor.NilResolverPanics | DaActor.GuardedStepNeverPanics |
