/** The DA challenge actor: for every finalized L1 block it picks a data
    source, advances the plasma DA origin, walks the source's items, keeps
    the plasma commitments and routes each one to "schedule a challenge",
    "schedule a resolve" or nothing. The plasma DA manager and the data
    sources are oracles bundled in `PlasmaEnv`; scheduling is recorded as
    the list of `Schedule` calls made. */
module DaActor {
  import opened Wrappers
  import opened ByteCodec
  import opened GoErrors
  import opened DaTypes
  import Challenges
  import Resolves

  /** An L1 block reference, reduced to the fields the actor reads. */
  datatype L1BlockRef = L1BlockRef(hash: Hash, number: Uint64, time: Uint64)

  /** Which data source a block is read through. */
  datatype SourceKind = BlobSource | CalldataSource

  /** A decoded plasma commitment, kept abstract; `PlasmaEnv.encode` gives its bytes. */
  datatype Commitment = Commitment(body: Bytes)

  /** The challenge status the plasma DA manager reports. */
  datatype PlasmaStatus = ChallengeUninitialized | ChallengeActive | ChallengeResolved | ChallengeExpired

  /** `io.EOF` and the plasma package's sentinels. */
  const EOF: Error := Sentinel("io.EOF")
  const ErrReorgRequired: Error := Sentinel("plasma.ErrReorgRequired")
  const ErrActiveChallenge: Error := Sentinel("plasma.ErrActiveChallenge")
  const ErrPendingChallenge: Error := Sentinel("plasma.ErrPendingChallenge")
  /** The version byte of batcher transactions that carry a plasma commitment. */
  const TxDataVersion1: Byte := 1

  /** The oracles: `AdvanceL1Origin`; the successive results of the data
      iterator's `Next` for a block and source kind (running out means
      `io.EOF`); `DecodeCommitmentData`; `Encode`; `GetInput`;
      `GetChallengeStatus`. */
  datatype PlasmaEnv = PlasmaEnv(
    advance: L1BlockRef -> Option<Error>,
    items: (L1BlockRef, SourceKind) -> seq<Result<Bytes, Error>>,
    decode: Bytes -> Result<Commitment, Error>,
    encode: Commitment -> Bytes,
    getInput: (Commitment, L1BlockRef) -> Result<Bytes, Error>,
    status: (Commitment, Uint64) -> PlasmaStatus)

  /** A `Schedule` call the actor makes. */
  datatype Action =
    | ScheduleChallenge(blockNumber: Uint64, arg: CommitmentArg)
    | ScheduleResolve(blockNumber: Uint64, data: ResolveData)

  /** What handling one iterator result leads to. */
  datatype Step = Skip | Act(action: Action) | EndOfBlock | Exit | Panic

  /** Which schedulers the actor holds (the non-nil ones). */
  datatype Roles = Roles(hasChallenger: bool, hasResolver: bool)

  /** The commitment argument for a commitment seen at `ref`. */
  function ArgAt(env: PlasmaEnv, ref: L1BlockRef, comm: Commitment): (arg: CommitmentArg)
    ensures arg.challengedBlockNumber == ref.number && arg.challengedCommitment == env.encode(comm)
  {
    CommitmentArg(ref.number, env.encode(comm))
  }

  /** The body of the item loop for one `Next` result, as written: the
      resolve branch dereferences the resolver without a nil check, which
      panics when the actor was built without one. */
  function ItemStep(env: PlasmaEnv, ref: L1BlockRef, roles: Roles, next: Result<Bytes, Error>): (s: Step)
    // io.EOF, compared by equality, ends the block; any other error ends the run loop
    ensures next == Failure(EOF) ==> s == EndOfBlock
    ensures next.Failure? && next.error != EOF ==> s == Exit
    // an empty item ends the run loop
    ensures next == Success([]) ==> s == Exit
    // non-plasma items and undecodable commitments are skipped
    ensures next.Success? && |next.value| > 0 && next.value[0] != TxDataVersion1 ==> s == Skip
    ensures next.Success? && |next.value| > 0 && next.value[0] == TxDataVersion1 && env.decode(next.value[1..]).Failure? ==> s == Skip
    // only a decoded commitment can lead to an action or a panic
    ensures s.Act? || s.Panic? ==>
              next.Success? && |next.value| > 0 && next.value[0] == TxDataVersion1 && env.decode(next.value[1..]).Success?
    // a decoded commitment is routed on the outcome of fetching its data
    ensures next.Success? && |next.value| > 0 && next.value[0] == TxDataVersion1 && env.decode(next.value[1..]).Success? ==>
              var comm := env.decode(next.value[1..]).value;
              var input := env.getInput(comm, ref);
              // an active challenge already covers missing data
              (input.Failure? && Is(input.error, ErrActiveChallenge) ==> s == Skip) &&
              // missing data without a challenge is challenged, when a challenger is present
              (input.Failure? && !Is(input.error, ErrActiveChallenge) && Is(input.error, ErrPendingChallenge) ==>
                 s == if roles.hasChallenger then Act(ScheduleChallenge(ref.number, ArgAt(env, ref, comm))) else Skip) &&
              // any other fetch error needs nothing
              (input.Failure? && !Is(input.error, ErrActiveChallenge) && !Is(input.error, ErrPendingChallenge) ==> s == Skip) &&
              // fetched data under an active challenge resolves it with that data; without a resolver this panics
              (input.Success? && env.status(comm, ref.number) == ChallengeActive ==>
                 s == if roles.hasResolver then Act(ScheduleResolve(ref.number, ResolveData(ArgAt(env, ref, comm), input.value)))
                      else Panic) &&
              (input.Success? && env.status(comm, ref.number) != ChallengeActive ==> s == Skip)
    ensures s.Panic? ==> !roles.hasResolver
  {
    match next
    case Failure(e) => if e == EOF then EndOfBlock else Exit
    case Success(data) =>
      if |data| == 0 then Exit
      else if data[0] != TxDataVersion1 then Skip
      else match env.decode(data[1..])
        case Failure(_) => Skip
        case Success(comm) =>
          var input := env.getInput(comm, ref);
          if input.Failure? && Is(input.error, ErrActiveChallenge) then Skip
          else if input.Failure? && Is(input.error, ErrPendingChallenge) then
            if roles.hasChallenger then Act(ScheduleChallenge(ref.number, ArgAt(env, ref, comm))) else Skip
          else if input.Success? then
            if env.status(comm, ref.number) == ChallengeActive then
              if roles.hasResolver then Act(ScheduleResolve(ref.number, ResolveData(ArgAt(env, ref, comm), input.value)))
              else Panic
            else Skip
          else Skip
  }

  /** The item step with the resolve branch guarded like the challenge
      branch: without a resolver, nothing is scheduled. It agrees with the
      code as written whenever the code does not panic. */
  function GuardedItemStep(env: PlasmaEnv, ref: L1BlockRef, roles: Roles, next: Result<Bytes, Error>): (s: Step)
    ensures !s.Panic?
    ensures !ItemStep(env, ref, roles, next).Panic? ==> s == ItemStep(env, ref, roles, next)
    ensures roles.hasResolver ==> s == ItemStep(env, ref, roles, next)
  {
    var s := ItemStep(env, ref, roles, next);
    if s.Panic? then Skip else s
  }

  /** The outcome of walking one block's items. */
  datatype Walked = Walked(actions: seq<Action>, exit: bool)

  /** The item loop of one block, specified: items are handled in order
      until the end of the block or an exit. */
  function Walk(env: PlasmaEnv, ref: L1BlockRef, roles: Roles, items: seq<Result<Bytes, Error>>): Walked {
    if items == [] then Walked([], false)
    else
      match GuardedItemStep(env, ref, roles, items[0])
      case EndOfBlock => Walked([], false)
      case Exit => Walked([], true)
      case Panic => Walked([], true)
      case Skip => Walk(env, ref, roles, items[1..])
      case Act(a) =>
        var w := Walk(env, ref, roles, items[1..]);
        Walked([a] + w.actions, w.exit)
  }

  /** One item of the walk: its step, then the walk of the items after it. */
  lemma WalkStep(env: PlasmaEnv, ref: L1BlockRef, roles: Roles, items: seq<Result<Bytes, Error>>, i: nat)
    requires i < |items|
    ensures var rest := Walk(env, ref, roles, items[i + 1..]);
            Walk(env, ref, roles, items[i..]) ==
              match GuardedItemStep(env, ref, roles, items[i])
              case EndOfBlock => Walked([], false)
              case Exit => Walked([], true)
              case Panic => Walked([], true)
              case Skip => rest
              case Act(a) => Walked([a] + rest.actions, rest.exit)
  {
    assert items[i..][0] == items[i];
    assert items[i..][1..] == items[i + 1..];
  }

  /** An item that neither ends the block nor the loop. */
  predicate Continues(env: PlasmaEnv, ref: L1BlockRef, roles: Roles, next: Result<Bytes, Error>) {
    var s := GuardedItemStep(env, ref, roles, next);
    s.Skip? || s.Act?
  }

  /** At most one action per item. */
  lemma {:induction false} WalkAtMostOnePerItem(env: PlasmaEnv, ref: L1BlockRef, roles: Roles, items: seq<Result<Bytes, Error>>)
    ensures |Walk(env, ref, roles, items).actions| <= |items|
  {
    if items != [] {
      WalkAtMostOnePerItem(env, ref, roles, items[1..]);
    }
  }

  /** Every action of a block is scheduled at that block's number, for a
      commitment argument carrying that number. */
  lemma {:induction false} WalkActionsAtRef(env: PlasmaEnv, ref: L1BlockRef, roles: Roles, items: seq<Result<Bytes, Error>>)
    ensures forall a | a in Walk(env, ref, roles, items).actions ::
              a.blockNumber == ref.number &&
              (a.ScheduleChallenge? ==> a.arg.challengedBlockNumber == ref.number) &&
              (a.ScheduleResolve? ==> a.data.arg.challengedBlockNumber == ref.number)
  {
    if items != [] {
      WalkActionsAtRef(env, ref, roles, items[1..]);
    }
  }

  /** Every action comes from one item's step. */
  lemma {:induction false} WalkActionsFromItems(env: PlasmaEnv, ref: L1BlockRef, roles: Roles, items: seq<Result<Bytes, Error>>)
    ensures forall k | 0 <= k < |Walk(env, ref, roles, items).actions| ::
              exists i | 0 <= i < |items| :: GuardedItemStep(env, ref, roles, items[i]) == Act(Walk(env, ref, roles, items).actions[k])
  {
    if items != [] {
      var rest := items[1..];
      WalkActionsFromItems(env, ref, roles, rest);
      var w := Walk(env, ref, roles, items);
      var wr := Walk(env, ref, roles, rest);
      var s := GuardedItemStep(env, ref, roles, items[0]);
      if s.Act? {
        assert w.actions == [s.action] + wr.actions;
      } else if s.Skip? {
        assert w == wr;
      } else {
        assert w.actions == [];
      }
      forall k | 0 <= k < |w.actions|
        ensures exists i | 0 <= i < |items| :: GuardedItemStep(env, ref, roles, items[i]) == Act(w.actions[k])
      {
        if s.Act? && k == 0 {
          assert GuardedItemStep(env, ref, roles, items[0]) == Act(w.actions[k]);
        } else {
          var j := if s.Act? then k - 1 else k;
          assert w.actions[k] == wr.actions[j];
          var i :| 0 <= i < |rest| && GuardedItemStep(env, ref, roles, rest[i]) == Act(wr.actions[j]);
          assert rest[i] == items[i + 1];
          assert GuardedItemStep(env, ref, roles, items[i + 1]) == Act(w.actions[k]);
        }
      }
      assert forall k | 0 <= k < |w.actions| ::
               exists i | 0 <= i < |items| :: GuardedItemStep(env, ref, roles, items[i]) == Act(w.actions[k]);
    } else {
      assert Walk(env, ref, roles, items).actions == [];
    }
  }

  /** The actions the items ask for, one for each item whose step acts, in
      item order, wherever the walk would stop. */
  function ItemActions(env: PlasmaEnv, ref: L1BlockRef, roles: Roles, items: seq<Result<Bytes, Error>>): (r: seq<Action>)
    ensures |r| <= |items|
  {
    if items == [] then []
    else
      var first := match GuardedItemStep(env, ref, roles, items[0]) case Act(a) => [a] case _ => [];
      first + ItemActions(env, ref, roles, items[1..])
  }

  /** The walk of a block stops at the first item that does not continue,
      and schedules exactly the actions of the items before it, in item
      order; it ends the run loop only when that item is an exit. */
  lemma {:induction false} WalkIsItemActionsUpToStop(env: PlasmaEnv, ref: L1BlockRef, roles: Roles,
                                                      items: seq<Result<Bytes, Error>>, k: nat)
    requires k <= |items|
    requires forall i | 0 <= i < k :: Continues(env, ref, roles, items[i])
    requires k < |items| ==> !Continues(env, ref, roles, items[k])
    ensures Walk(env, ref, roles, items).actions == ItemActions(env, ref, roles, items[..k])
    ensures Walk(env, ref, roles, items).exit <==> k < |items| && GuardedItemStep(env, ref, roles, items[k]) == Exit
  {
    if k == 0 {
      assert items[..0] == [];
    } else {
      assert Continues(env, ref, roles, items[0]);
      assert forall i | 0 <= i < k - 1 :: items[1..][i] == items[i + 1];
      WalkIsItemActionsUpToStop(env, ref, roles, items[1..], k - 1);
      assert items[..k][0] == items[0];
      assert items[..k][1..] == items[1..][..k - 1];
    }
  }

  /** Every action an item asks for is among the items' actions. */
  lemma {:induction false} ItemActionsInclude(env: PlasmaEnv, ref: L1BlockRef, roles: Roles,
                                              items: seq<Result<Bytes, Error>>, j: nat)
    requires j < |items| && GuardedItemStep(env, ref, roles, items[j]).Act?
    ensures GuardedItemStep(env, ref, roles, items[j]).action in ItemActions(env, ref, roles, items)
  {
    if j > 0 {
      assert items[1..][j - 1] == items[j];
      ItemActionsInclude(env, ref, roles, items[1..], j - 1);
    }
  }

  /** A plasma commitment whose data is missing without a challenge, met
      before the block's walk stops, is challenged when the actor has a
      challenger. */
  lemma PendingChallengeIsScheduled(env: PlasmaEnv, ref: L1BlockRef, roles: Roles,
                                    items: seq<Result<Bytes, Error>>, k: nat, j: nat, data: Bytes)
    requires k <= |items|
    requires forall i | 0 <= i < k :: Continues(env, ref, roles, items[i])
    requires k < |items| ==> !Continues(env, ref, roles, items[k])
    requires j < k && items[j] == Success(data) && |data| > 0 && data[0] == TxDataVersion1
    requires env.decode(data[1..]).Success?
    requires var input := env.getInput(env.decode(data[1..]).value, ref);
             input.Failure? && !Is(input.error, ErrActiveChallenge) && Is(input.error, ErrPendingChallenge)
    requires roles.hasChallenger
    ensures ScheduleChallenge(ref.number, ArgAt(env, ref, env.decode(data[1..]).value)) in Walk(env, ref, roles, items).actions
  {
    WalkIsItemActionsUpToStop(env, ref, roles, items, k);
    assert items[..k][j] == items[j];
    ItemActionsInclude(env, ref, roles, items[..k], j);
  }

  /** A plasma commitment whose data was fetched while its challenge is
      active, met before the block's walk stops, is resolved with that data
      when the actor has a resolver. */
  lemma ActiveChallengeIsResolved(env: PlasmaEnv, ref: L1BlockRef, roles: Roles,
                                  items: seq<Result<Bytes, Error>>, k: nat, j: nat, data: Bytes)
    requires k <= |items|
    requires forall i | 0 <= i < k :: Continues(env, ref, roles, items[i])
    requires k < |items| ==> !Continues(env, ref, roles, items[k])
    requires j < k && items[j] == Success(data) && |data| > 0 && data[0] == TxDataVersion1
    requires env.decode(data[1..]).Success?
    requires env.getInput(env.decode(data[1..]).value, ref).Success?
    requires env.status(env.decode(data[1..]).value, ref.number) == ChallengeActive
    requires roles.hasResolver
    ensures var comm := env.decode(data[1..]).value;
            ScheduleResolve(ref.number, ResolveData(ArgAt(env, ref, comm), env.getInput(comm, ref).value))
              in Walk(env, ref, roles, items).actions
  {
    WalkIsItemActionsUpToStop(env, ref, roles, items, k);
    assert items[..k][j] == items[j];
    ItemActionsInclude(env, ref, roles, items[..k], j);
  }

  /** Without a challenger no challenge is ever scheduled. */
  lemma {:induction false} NoChallengerNoChallenge(env: PlasmaEnv, ref: L1BlockRef, roles: Roles, items: seq<Result<Bytes, Error>>)
    requires !roles.hasChallenger
    ensures forall a | a in Walk(env, ref, roles, items).actions :: a.ScheduleResolve?
  {
    if items != [] {
      NoChallengerNoChallenge(env, ref, roles, items[1..]);
    }
  }

  /** `io.EOF` ends only the current block: what follows it is never
      looked at, and the run loop goes on. */
  lemma {:induction false} EofEndsBlock(env: PlasmaEnv, ref: L1BlockRef, roles: Roles, items: seq<Result<Bytes, Error>>, k: nat)
    requires k < |items| && items[k] == Failure(EOF)
    requires forall i | 0 <= i < k :: Continues(env, ref, roles, items[i])
    ensures Walk(env, ref, roles, items) == Walk(env, ref, roles, items[..k])
    ensures !Walk(env, ref, roles, items).exit
  {
    if k > 0 {
      assert items[1..][..k - 1] == items[..k][1..];
      assert forall i | 0 <= i < k - 1 :: items[1..][i] == items[i + 1];
      EofEndsBlock(env, ref, roles, items[1..], k - 1);
      assert items[..k][0] == items[0];
    } else {
      assert items[..0] == [];
    }
  }

  /** A block whose items all continue is walked to its end and does not
      end the run loop. */
  lemma {:induction false} ContinuingItemsDoNotExit(env: PlasmaEnv, ref: L1BlockRef, roles: Roles, items: seq<Result<Bytes, Error>>)
    requires forall i | 0 <= i < |items| :: Continues(env, ref, roles, items[i])
    ensures !Walk(env, ref, roles, items).exit
  {
    if items != [] {
      assert forall i | 0 <= i < |items[1..]| :: items[1..][i] == items[i + 1];
      ContinuingItemsDoNotExit(env, ref, roles, items[1..]);
    }
  }

  /** The actor's static configuration, as `NewActor` stores it. */
  datatype Setup = Setup(hasBlobsFetcher: bool, ecotoneTime: Option<Uint64>)

  /** The blob source is used exactly when Ecotone is scheduled and active at the block's time. */
  function SourceFor(setup: Setup, ref: L1BlockRef): (k: SourceKind)
    ensures k == BlobSource <==> setup.ecotoneTime.Some? && ref.time >= setup.ecotoneTime.value
  {
    if setup.ecotoneTime.Some? && ref.time >= setup.ecotoneTime.value then BlobSource else CalldataSource
  }

  /** One block of the run loop, specified: without a beacon client a blob
      block ends the loop; a failed origin advance ends it unless a reorg is
      required; otherwise the block's items are walked. */
  function HandleBlockSpec(setup: Setup, env: PlasmaEnv, roles: Roles, ref: L1BlockRef): (w: Walked)
    ensures SourceFor(setup, ref) == BlobSource && !setup.hasBlobsFetcher ==> w == Walked([], true)
    ensures env.advance(ref).Some? && !Is(env.advance(ref).value, ErrReorgRequired) ==> w.actions == [] && w.exit
    ensures (SourceFor(setup, ref) == CalldataSource || setup.hasBlobsFetcher) &&
            (env.advance(ref).None? || Is(env.advance(ref).value, ErrReorgRequired)) ==>
              w == Walk(env, ref, roles, env.items(ref, SourceFor(setup, ref)))
  {
    var kind := SourceFor(setup, ref);
    if kind == BlobSource && !setup.hasBlobsFetcher then Walked([], true)
    else
      var advanced := env.advance(ref);
      if advanced.Some? && !Is(advanced.value, ErrReorgRequired) then Walked([], true)
      else Walk(env, ref, roles, env.items(ref, kind))
  }

  /** The run loop over a sequence of finalized blocks, specified: blocks
      are handled in order until one ends the loop. */
  function RunSpec(setup: Setup, env: PlasmaEnv, roles: Roles, refs: seq<L1BlockRef>): Walked {
    if refs == [] then Walked([], false)
    else
      var w := HandleBlockSpec(setup, env, roles, refs[0]);
      if w.exit then w
      else
        var rest := RunSpec(setup, env, roles, refs[1..]);
        Walked(w.actions + rest.actions, rest.exit)
  }

  /** One turn of the run loop: the block at `i`, then the blocks after it. */
  lemma RunSpecStep(setup: Setup, env: PlasmaEnv, roles: Roles, refs: seq<L1BlockRef>, i: nat)
    requires i < |refs|
    ensures var w := HandleBlockSpec(setup, env, roles, refs[i]);
            var rest := RunSpec(setup, env, roles, refs[i + 1..]);
            RunSpec(setup, env, roles, refs[i..]) ==
              if w.exit then w else Walked(w.actions + rest.actions, rest.exit)
  {
    assert refs[i..][0] == refs[i];
    assert refs[i..][1..] == refs[i + 1..];
  }

  /** Once a block ends the loop, no later block produces an action. */
  lemma {:induction false} ExitStopsRun(setup: Setup, env: PlasmaEnv, roles: Roles, refs: seq<L1BlockRef>, k: nat)
    requires k < |refs| && HandleBlockSpec(setup, env, roles, refs[k]).exit
    ensures RunSpec(setup, env, roles, refs) == RunSpec(setup, env, roles, refs[..k + 1])
    ensures RunSpec(setup, env, roles, refs).exit
  {
    if k > 0 {
      var w := HandleBlockSpec(setup, env, roles, refs[0]);
      assert refs[1..][..k] == refs[..k + 1][1..];
      ExitStopsRun(setup, env, roles, refs[1..], k - 1);
      assert refs[..k + 1][0] == refs[0];
    } else {
      assert refs[..1] == [refs[0]];
      assert refs[..1][1..] == [];
    }
  }

  const ErrNoRole: Error := Message("actor needs to be configured with a challenger or a resolver, or both")

  /** `Actor`. */
  class Actor {
    const resolver: Resolves.ResolveScheduler?
    const challenger: Challenges.ChallengeScheduler?
    const setup: Setup
    var started: bool
    var cancelled: bool
    /** `RecordLastActedL1Block` and `RecordActedL1Ref`. */
    var lastActedL1Block: Option<Uint64>
    var actedRefs: seq<L1BlockRef>

    /** The fields `NewActor` fills in, for a configuration that has passed its check. */
    constructor (r: Resolves.ResolveScheduler?, c: Challenges.ChallengeScheduler?, setup: Setup)
      requires r != null || c != null
      ensures resolver == r && challenger == c && this.setup == setup
      ensures !started && !cancelled && lastActedL1Block == None && actedRefs == []
    {
      resolver := r;
      challenger := c;
      this.setup := setup;
      started := false;
      cancelled := false;
      lastActedL1Block := None;
      actedRefs := [];
    }

    function RolesHeld(): (roles: Roles)
      ensures roles.hasChallenger <==> challenger != null
      ensures roles.hasResolver <==> resolver != null
    {
      Roles(challenger != null, resolver != null)
    }

    /** `Start` as written: it starts the resolver scheduler (and only
        that one), which a nil resolver cannot do. */
    method StartAsWritten()
      requires resolver != null
      modifies this, resolver
      ensures started && !cancelled && resolver.started && !resolver.cancelled
      ensures lastActedL1Block == old(lastActedL1Block) && actedRefs == old(actedRefs)
    {
      started := true;
      cancelled := false;
      resolver.Start();
    }

    /** `Start` with the nil check the challenge branch already has: it
        starts the resolver scheduler when there is one. */
    method Start()
      modifies this, resolver
      ensures started && !cancelled
      ensures resolver != null ==> resolver.started && !resolver.cancelled
      ensures lastActedL1Block == old(lastActedL1Block) && actedRefs == old(actedRefs)
    {
      started := true;
      cancelled := false;
      if resolver != null {
        resolver.Start();
      }
    }

    /** Cancel the run loop and wait for it; always nil. The resolver
        scheduler keeps running. Before `Start` the cancel function is nil. */
    method Close() returns (err: Option<Error>)
      requires started
      modifies this`cancelled
      ensures err == None && cancelled
    {
      cancelled := true;
      err := None;
    }

    /** The item loop of one block. */
    method HandleItems(env: PlasmaEnv, ref: L1BlockRef, items: seq<Result<Bytes, Error>>) returns (actions: seq<Action>, exit: bool)
      modifies this`lastActedL1Block, this`actedRefs
      ensures Walked(actions, exit) == Walk(env, ref, RolesHeld(), items)
      ensures actedRefs == old(actedRefs) + seq(|actions|, _ => ref)
      ensures lastActedL1Block == if actions == [] then old(lastActedL1Block) else Some(ref.number)
    {
      var roles := RolesHeld();
      actions, exit := [], false;
      var i := 0;
      while i < |items|
        invariant 0 <= i <= |items|
        invariant Walk(env, ref, roles, items) ==
                    Walked(actions + Walk(env, ref, roles, items[i..]).actions, Walk(env, ref, roles, items[i..]).exit)
        invariant actedRefs == old(actedRefs) + seq(|actions|, _ => ref)
        invariant lastActedL1Block == if actions == [] then old(lastActedL1Block) else Some(ref.number)
        invariant !exit
      {
        WalkStep(env, ref, roles, items, i);
        var s := GuardedItemStep(env, ref, roles, items[i]);
        match s {
          case EndOfBlock =>
            assert actions + [] == actions;
            return;
          case Exit =>
            assert actions + [] == actions;
            exit := true;
            return;
          case Panic =>
            assert false;
          case Skip =>
          case Act(a) =>
            assert (actions + [a]) + Walk(env, ref, roles, items[i + 1..]).actions
                == actions + ([a] + Walk(env, ref, roles, items[i + 1..]).actions);
            actions := actions + [a];
            actedRefs := actedRefs + [ref];
            lastActedL1Block := Some(ref.number);
        }
        i := i + 1;
      }
      assert items[i..] == [];
      assert actions + [] == actions;
    }

    /** One iteration of the run loop: choose the source, advance the
        origin, then walk the block's items. */
    method HandleBlock(env: PlasmaEnv, ref: L1BlockRef) returns (actions: seq<Action>, exit: bool)
      modifies this`lastActedL1Block, this`actedRefs
      ensures Walked(actions, exit) == HandleBlockSpec(setup, env, RolesHeld(), ref)
      ensures actedRefs == old(actedRefs) + seq(|actions|, _ => ref)
      ensures lastActedL1Block == if actions == [] then old(lastActedL1Block) else Some(ref.number)
    {
      var kind := SourceFor(setup, ref);
      if kind == BlobSource && !setup.hasBlobsFetcher {
        return [], true;
      }
      var advanced := env.advance(ref);
      if advanced.Some? && !Is(advanced.value, ErrReorgRequired) {
        return [], true;
      }
      actions, exit := HandleItems(env, ref, env.items(ref, kind));
    }

    /** The run loop fed with a sequence of finalized blocks; a cancelled
        actor takes none. */
    method Run(env: PlasmaEnv, refs: seq<L1BlockRef>) returns (actions: seq<Action>, exit: bool)
      requires started
      modifies this`lastActedL1Block, this`actedRefs
      ensures cancelled ==> actions == [] && !exit
      ensures !cancelled ==> Walked(actions, exit) == RunSpec(setup, env, RolesHeld(), refs)
      // one acted ref is recorded per action, the block it was scheduled at
      ensures RecordedFor(refs, old(actedRefs), actedRefs, actions)
      ensures lastActedL1Block == LastActed(old(lastActedL1Block), actions)
    {
      actions, exit := [], false;
      assert RecordedFor(refs, actedRefs, actedRefs, []) by {
        assert actedRefs[..|actedRefs|] == actedRefs;
      }
      if cancelled {
        return;
      }
      ghost var roles := RolesHeld();
      ghost var spec := RunSpec(setup, env, roles, refs);
      ghost var remaining := spec;
      assert refs[0..] == refs;
      var i := 0;
      while i < |refs|
        invariant 0 <= i <= |refs|
        invariant RolesHeld() == roles
        invariant remaining == RunSpec(setup, env, roles, refs[i..])
        invariant spec == Walked(actions + remaining.actions, remaining.exit)
        invariant !exit
        invariant RecordedFor(refs, old(actedRefs), actedRefs, actions)
        invariant lastActedL1Block == LastActed(old(lastActedL1Block), actions)
      {
        ghost var rest := RunSpec(setup, env, roles, refs[i + 1..]);
        RunSpecStep(setup, env, roles, refs, i);
        ghost var before, lastBefore := actedRefs, lastActedL1Block;
        var blockActions, blockExit := HandleBlock(env, refs[i]);
        BlockActionsAtRef(setup, env, roles, refs[i]);
        RecordBlock(refs, i, old(actedRefs), before, actedRefs, old(lastActedL1Block), lastBefore, lastActedL1Block,
                    actions, blockActions);
        if blockExit {
          actions := actions + blockActions;
          exit := true;
          return;
        }
        ActionsAssoc(actions, blockActions, rest.actions);
        actions := actions + blockActions;
        remaining := rest;
        i := i + 1;
      }
      assert refs[i..] == [];
      assert actions + [] == actions;
    }
  }

  /** `acted` is `base` followed by one ref per action, a ref from `refs` at the action's block. */
  ghost predicate RecordedFor(refs: seq<L1BlockRef>, base: seq<L1BlockRef>, acted: seq<L1BlockRef>, actions: seq<Action>) {
    |acted| == |base| + |actions| && acted[..|base|] == base &&
    forall k | |base| <= k < |acted| :: acted[k] in refs && acted[k].number == actions[k - |base|].blockNumber
  }

  /** `RecordLastActedL1Block` after a series of actions: the block of the
      last one, or the earlier value when there were none. */
  function LastActed(prev: Option<Uint64>, actions: seq<Action>): Option<Uint64> {
    if actions == [] then prev else Some(actions[|actions| - 1].blockNumber)
  }

  /** Every action of one block is scheduled at that block's number. */
  lemma BlockActionsAtRef(setup: Setup, env: PlasmaEnv, roles: Roles, ref: L1BlockRef)
    ensures forall a | a in HandleBlockSpec(setup, env, roles, ref).actions :: a.blockNumber == ref.number
  {
    WalkActionsAtRef(env, ref, roles, env.items(ref, SourceFor(setup, ref)));
  }

  /** Recording one block's acted refs and last acted block after the
      earlier ones keeps one ref per action, each at its action's block, and
      the last action's block. */
  lemma RecordBlock(refs: seq<L1BlockRef>, i: nat, base: seq<L1BlockRef>, before: seq<L1BlockRef>, after: seq<L1BlockRef>,
                    prev: Option<Uint64>, lastBefore: Option<Uint64>, lastAfter: Option<Uint64>,
                    actions: seq<Action>, blockActions: seq<Action>)
    requires i < |refs| && RecordedFor(refs, base, before, actions) && lastBefore == LastActed(prev, actions)
    requires after == before + seq(|blockActions|, _ => refs[i])
    requires lastAfter == if blockActions == [] then lastBefore else Some(refs[i].number)
    requires forall a | a in blockActions :: a.blockNumber == refs[i].number
    ensures RecordedFor(refs, base, after, actions + blockActions)
    ensures lastAfter == LastActed(prev, actions + blockActions)
  {
    var all := actions + blockActions;
    if blockActions != [] {
      assert all[|all| - 1] == blockActions[|blockActions| - 1] && all[|all| - 1] in blockActions;
    } else {
      assert all == actions;
    }
    assert after[..|base|] == before[..|base|] == base;
    forall k | |base| <= k < |after|
      ensures after[k] in refs && after[k].number == all[k - |base|].blockNumber
    {
      if k < |before| {
        assert after[k] == before[k] && all[k - |base|] == actions[k - |base|];
      } else {
        assert after[k] == refs[i] && refs[i] in refs;
        assert all[k - |base|] == blockActions[k - |before|] && all[k - |base|] in blockActions;
      }
    }
  }

  lemma ActionsAssoc(a: seq<Action>, b: seq<Action>, c: seq<Action>)
    ensures (a + b) + c == a + (b + c)
  {
  }

  /** `NewActor` as written: it refuses only an actor with neither a
      resolver nor a challenger. */
  method NewActor(r: Resolves.ResolveScheduler?, c: Challenges.ChallengeScheduler?, setup: Setup)
    returns (a: Actor?, err: Option<Error>)
    ensures err.Some? <==> r == null && c == null
    ensures err.Some? ==> a == null && err == Some(ErrNoRole)
    ensures err.None? ==> a != null && fresh(a) && a.resolver == r && a.challenger == c && a.setup == setup
    ensures err.None? ==> !a.started && a.actedRefs == [] && a.lastActedL1Block == None
  {
    if r == null && c == null {
      return null, Some(ErrNoRole);
    }
    a := new Actor(r, c, setup);
    err := None;
  }

  /** The gap between `NewActor` and the resolve branch: an actor built with
      a challenger and no resolver passes `NewActor`, yet a block holding a
      plasma commitment whose data was fetched and whose challenge is active
      makes the resolve branch dereference the nil resolver. */
  lemma NilResolverPanics(env: PlasmaEnv, ref: L1BlockRef, data: Bytes)
    requires |data| > 0 && data[0] == TxDataVersion1
    requires env.decode(data[1..]).Success?
    requires env.getInput(env.decode(data[1..]).value, ref).Success?
    requires env.status(env.decode(data[1..]).value, ref.number) == ChallengeActive
    ensures ItemStep(env, ref, Roles(true, false), Success(data)) == Panic
  {
  }

  /** With the guard, no item of any actor `NewActor` accepts panics, and an
      actor that has a resolver behaves exactly as the code is written. */
  lemma GuardedStepNeverPanics(env: PlasmaEnv, ref: L1BlockRef, roles: Roles, items: seq<Result<Bytes, Error>>)
    ensures forall i | 0 <= i < |items| :: !GuardedItemStep(env, ref, roles, items[i]).Panic?
    ensures roles.hasResolver ==>
              forall i | 0 <= i < |items| :: GuardedItemStep(env, ref, roles, items[i]) == ItemStep(env, ref, roles, items[i])
  {
  }
}
