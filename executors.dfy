/** The four executors of the DA challenger: each builds a transaction
    candidate through a contract binding and hands it to the transaction
    sender. The contract bindings and the sender are oracles (function-typed
    fields); the observable effect of an executor is the list of transactions
    it sent and the error it returned. */
module Executors {
  import opened Wrappers
  import opened ByteCodec
  import opened GoErrors
  import opened DaTypes

  /** One `SendAndWaitSimple(purpose, candidate)` call. */
  datatype Sent = Sent(purpose: string, candidate: TxCandidate)

  /** What executing one item, or a list of items, did. */
  datatype Attempt = Attempt(err: Option<Error>, sent: seq<Sent>)

  /** Binding call that builds a transaction for a commitment. */
  type ArgContract = CommitmentArg -> Result<TxCandidate, Error>
  /** `TxSender.SendAndWaitSimple` with a single candidate: nil on success. */
  type TxSender = (string, TxCandidate) -> Option<Error>

  /** `contracts.ErrSimulationFailed`, returned by a binding whose call simulation reverted. */
  const ErrSimulationFailed: Error := Sentinel("ErrSimulationFailed")

  const ChallengePurpose := "challenge da commitment"
  const ResolvePurpose := "resolve da challenge"
  const UnlockPurpose := "unlock bond"
  const WithdrawPurpose := "withdraw bonds"

  /** The loop `for _, x := range xs { err = errors.Join(err, step(x)) }`
      as a left fold; every item is attempted whatever the earlier ones did. */
  function Accumulate<T>(step: T -> Attempt, xs: seq<T>): Attempt {
    if xs == [] then Attempt(None, [])
    else
      var prev := Accumulate(step, xs[..|xs| - 1]);
      var last := step(xs[|xs| - 1]);
      Attempt(Join(prev.err, last.err), prev.sent + last.sent)
  }

  /** The per-item errors, in order. */
  function ItemErrors<T>(step: T -> Attempt, xs: seq<T>): (r: seq<Option<Error>>)
    ensures |r| == |xs| && forall i | 0 <= i < |xs| :: r[i] == step(xs[i]).err
  {
    seq(|xs|, i requires 0 <= i < |xs| => step(xs[i]).err)
  }

  /** The per-item transactions concatenated front to back. */
  function SentAll<T>(step: T -> Attempt, xs: seq<T>): seq<Sent> {
    if xs == [] then [] else step(xs[0]).sent + SentAll(step, xs[1..])
  }

  lemma {:induction false} SentAllSnoc<T>(step: T -> Attempt, xs: seq<T>, x: T)
    ensures SentAll(step, xs + [x]) == SentAll(step, xs) + step(x).sent
  {
    if xs != [] {
      assert (xs + [x])[1..] == xs[1..] + [x];
      SentAllSnoc(step, xs[1..], x);
    }
  }

  /** The accumulated error is `errors.Join` folded over the per-item errors,
      and the transactions are every item's transactions in item order. */
  lemma {:induction false} AccumulateIsJoinAll<T>(step: T -> Attempt, xs: seq<T>)
    ensures Accumulate(step, xs).err == JoinAll(ItemErrors(step, xs))
    ensures Accumulate(step, xs).sent == SentAll(step, xs)
  {
    if xs != [] {
      var prefix := xs[..|xs| - 1];
      AccumulateIsJoinAll(step, prefix);
      assert ItemErrors(step, xs)[..|xs| - 1] == ItemErrors(step, prefix);
      SentAllSnoc(step, prefix, xs[|xs| - 1]);
      assert prefix + [xs[|xs| - 1]] == xs;
    }
  }

  /** A list execution fails exactly when some item fails. */
  lemma AccumulateNilIff<T>(step: T -> Attempt, xs: seq<T>)
    ensures Accumulate(step, xs).err.None? <==> forall i | 0 <= i < |xs| :: step(xs[i]).err.None?
  {
    AccumulateIsJoinAll(step, xs);
    JoinAllNilIff(ItemErrors(step, xs));
  }

  /** `errors.Is` on the accumulated error matches `errors.Is` on some item's error. */
  lemma AccumulateIs<T>(step: T -> Attempt, xs: seq<T>, target: Error)
    requires !target.Joined?
    ensures IsErr(Accumulate(step, xs).err, target) <==> exists i | 0 <= i < |xs| :: IsErr(step(xs[i]).err, target)
  {
    AccumulateIsJoinAll(step, xs);
    var errs := ItemErrors(step, xs);
    JoinAllIs(errs, target);
    if exists i | 0 <= i < |errs| :: IsErr(errs[i], target) {
      var i :| 0 <= i < |errs| && IsErr(errs[i], target);
      assert IsErr(step(xs[i]).err, target);
    }
  }

  /** When every item sends exactly one transaction, the i-th transaction sent
      is the i-th item's. */
  lemma {:induction false} SentOnePerItem<T>(step: T -> Attempt, xs: seq<T>)
    requires forall i | 0 <= i < |xs| :: |step(xs[i]).sent| == 1
    ensures |SentAll(step, xs)| == |xs|
    ensures forall i | 0 <= i < |xs| :: SentAll(step, xs)[i] == step(xs[i]).sent[0]
  {
    if xs != [] {
      assert forall i | 0 <= i < |xs[1..]| :: xs[1..][i] == xs[i + 1];
      SentOnePerItem(step, xs[1..]);
    }
  }

  /** The single-commitment shape shared by the challenger and the resolver:
      build the candidate, send it, wrap whichever step failed. */
  function BuildAndSend(built: Result<TxCandidate, Error>, send: TxSender, purpose: string,
                        buildFailed: string, sendFailed: string): (a: Attempt)
    ensures a.err.None? <==> built.Success? && send(purpose, built.value).None?
    ensures a.sent == if built.Success? then [Sent(purpose, built.value)] else []
    ensures built.Failure? ==> a.err == Some(Wrapped(buildFailed, built.error))
    ensures built.Success? && a.err.Some? ==> a.err == Some(Wrapped(sendFailed, send(purpose, built.value).value))
  {
    match built
    case Failure(e) => Attempt(Some(Wrapped(buildFailed, e)), [])
    case Success(candidate) =>
      var sendErr := send(purpose, candidate);
      var err := if sendErr.Some? then Some(Wrapped(sendFailed, sendErr.value)) else None;
      Attempt(err, [Sent(purpose, candidate)])
  }

  /** `errors.Is` sees through the executor's wrapping to the binding's or the sender's error. */
  lemma BuildAndSendIs(built: Result<TxCandidate, Error>, send: TxSender, purpose: string,
                       buildFailed: string, sendFailed: string, target: Error)
    requires !target.Wrapped?
    ensures IsErr(BuildAndSend(built, send, purpose, buildFailed, sendFailed).err, target) <==>
              if built.Failure? then Is(built.error, target) else IsErr(send(purpose, built.value), target)
  {
  }

  /** `scheduler.Challenger`: challenge transactions for commitments. */
  datatype Challenger = Challenger(contract: ArgContract, txSender: TxSender) {

    function ChallengeCommitment(c: CommitmentArg): (a: Attempt)
      ensures a.err.None? <==> contract(c).Success? && txSender(ChallengePurpose, contract(c).value).None?
      ensures a.sent == if contract(c).Success? then [Sent(ChallengePurpose, contract(c).value)] else []
      ensures contract(c).Failure? ==> a.err == Some(Wrapped("failed to create candidate challenge tx", contract(c).error))
      ensures contract(c).Success? && a.err.Some? ==>
                a.err == Some(Wrapped("failed to challenge da commitment", txSender(ChallengePurpose, contract(c).value).value))
    {
      BuildAndSend(contract(c), txSender, ChallengePurpose,
                   "failed to create candidate challenge tx", "failed to challenge da commitment")
    }

    /** Every commitment is attempted in order and the errors are joined. */
    method ChallengeCommitments(commitments: seq<CommitmentArg>) returns (err: Option<Error>, sent: seq<Sent>)
      ensures Attempt(err, sent) == Accumulate(ChallengeCommitment, commitments)
      ensures err.None? <==> forall i | 0 <= i < |commitments| :: ChallengeCommitment(commitments[i]).err.None?
      ensures sent == SentAll(ChallengeCommitment, commitments)
    {
      err, sent := None, [];
      var i := 0;
      while i < |commitments|
        invariant 0 <= i <= |commitments|
        invariant Attempt(err, sent) == Accumulate(ChallengeCommitment, commitments[..i])
      {
        var a := ChallengeCommitment(commitments[i]);
        assert commitments[..i + 1][..i] == commitments[..i];
        err, sent := Join(err, a.err), sent + a.sent;
        i := i + 1;
      }
      assert commitments[..i] == commitments;
      AccumulateNilIff(ChallengeCommitment, commitments);
      AccumulateIsJoinAll(ChallengeCommitment, commitments);
    }
  }

  /** When every binding call succeeds, one challenge transaction per
      commitment is sent, in order, whatever the sender returned for earlier ones. */
  lemma ChallengeEveryCommitment(ch: Challenger, commitments: seq<CommitmentArg>)
    requires forall i | 0 <= i < |commitments| :: ch.contract(commitments[i]).Success?
    ensures |SentAll(ch.ChallengeCommitment, commitments)| == |commitments|
    ensures forall i | 0 <= i < |commitments| ::
              SentAll(ch.ChallengeCommitment, commitments)[i] == Sent(ChallengePurpose, ch.contract(commitments[i]).value)
  {
    SentOnePerItem(ch.ChallengeCommitment, commitments);
  }

  /** `scheduler.Resolver`: resolve transactions carrying the retrieved blob. */
  datatype Resolver = Resolver(contract: (CommitmentArg, Bytes) -> Result<TxCandidate, Error>, txSender: TxSender) {

    function ResolveChallenge(d: ResolveData): (a: Attempt)
      ensures a.err.None? <==> contract(d.arg, d.blob).Success? && txSender(ResolvePurpose, contract(d.arg, d.blob).value).None?
      ensures a.sent == if contract(d.arg, d.blob).Success? then [Sent(ResolvePurpose, contract(d.arg, d.blob).value)] else []
      ensures contract(d.arg, d.blob).Failure? ==>
                a.err == Some(Wrapped("failed to create candidate resolve tx", contract(d.arg, d.blob).error))
      ensures contract(d.arg, d.blob).Success? && a.err.Some? ==>
                a.err == Some(Wrapped("failed to resolve da challenge", txSender(ResolvePurpose, contract(d.arg, d.blob).value).value))
    {
      BuildAndSend(contract(d.arg, d.blob), txSender, ResolvePurpose,
                   "failed to create candidate resolve tx", "failed to resolve da challenge")
    }

    method ResolveChallenges(data: seq<ResolveData>) returns (err: Option<Error>, sent: seq<Sent>)
      ensures Attempt(err, sent) == Accumulate(ResolveChallenge, data)
      ensures err.None? <==> forall i | 0 <= i < |data| :: ResolveChallenge(data[i]).err.None?
      ensures sent == SentAll(ResolveChallenge, data)
    {
      err, sent := None, [];
      var i := 0;
      while i < |data|
        invariant 0 <= i <= |data|
        invariant Attempt(err, sent) == Accumulate(ResolveChallenge, data[..i])
      {
        var a := ResolveChallenge(data[i]);
        assert data[..i + 1][..i] == data[..i];
        err, sent := Join(err, a.err), sent + a.sent;
        i := i + 1;
      }
      assert data[..i] == data;
      AccumulateNilIff(ResolveChallenge, data);
      AccumulateIsJoinAll(ResolveChallenge, data);
    }
  }

  /** `scheduler.Unlocker`: bond unlock transactions; a bond still locked
      (the binding's simulation failed) is skipped silently. */
  datatype Unlocker = Unlocker(contract: ArgContract, txSender: TxSender) {

    function UnlockBond(c: CommitmentArg): (a: Attempt)
      ensures contract(c).Failure? && Is(contract(c).error, ErrSimulationFailed) ==> a == Attempt(None, [])
      ensures contract(c).Failure? && !Is(contract(c).error, ErrSimulationFailed) ==>
                a == Attempt(Some(Wrapped("failed to create candidate unlock bond tx", contract(c).error)), [])
      ensures contract(c).Success? ==>
                a.sent == [Sent(UnlockPurpose, contract(c).value)] &&
                (a.err.None? <==> txSender(UnlockPurpose, contract(c).value).None?) &&
                (a.err.Some? ==> a.err == Some(Wrapped("failed to unlock bond", txSender(UnlockPurpose, contract(c).value).value)))
    {
      match contract(c)
      case Failure(e) =>
        if Is(e, ErrSimulationFailed) then Attempt(None, [])
        else Attempt(Some(Wrapped("failed to create candidate unlock bond tx", e)), [])
      case Success(candidate) =>
        BuildAndSend(Success(candidate), txSender, UnlockPurpose,
                     "failed to create candidate unlock bond tx", "failed to unlock bond")
    }

    method UnlockBonds(challenges: seq<CommitmentArg>) returns (err: Option<Error>, sent: seq<Sent>)
      ensures Attempt(err, sent) == Accumulate(UnlockBond, challenges)
      ensures err.None? <==> forall i | 0 <= i < |challenges| :: UnlockBond(challenges[i]).err.None?
      ensures sent == SentAll(UnlockBond, challenges)
    {
      err, sent := None, [];
      var i := 0;
      while i < |challenges|
        invariant 0 <= i <= |challenges|
        invariant Attempt(err, sent) == Accumulate(UnlockBond, challenges[..i])
      {
        var a := UnlockBond(challenges[i]);
        assert challenges[..i + 1][..i] == challenges[..i];
        err, sent := Join(err, a.err), sent + a.sent;
        i := i + 1;
      }
      assert challenges[..i] == challenges;
      AccumulateNilIff(UnlockBond, challenges);
      AccumulateIsJoinAll(UnlockBond, challenges);
    }
  }

  /** A list of unlocks whose bonds are all still locked neither fails nor sends anything. */
  lemma {:induction false} UnlockAllStillLocked(u: Unlocker, challenges: seq<CommitmentArg>)
    requires forall i | 0 <= i < |challenges| ::
               u.contract(challenges[i]).Failure? && Is(u.contract(challenges[i]).error, ErrSimulationFailed)
    ensures Accumulate(u.UnlockBond, challenges) == Attempt(None, [])
  {
    if challenges != [] {
      var prefix := challenges[..|challenges| - 1];
      assert forall i | 0 <= i < |prefix| :: prefix[i] == challenges[i];
      UnlockAllStillLocked(u, prefix);
    }
  }

  /** `scheduler.Withdrawer`: a single withdraw transaction; the height is only logged. */
  datatype Withdrawer = Withdrawer(withdraw: Result<TxCandidate, Error>, txSender: TxSender) {

    function WithdrawBonds(height: Uint64): (a: Attempt)
      ensures a.err.None? <==> withdraw.Success? && txSender(WithdrawPurpose, withdraw.value).None?
      ensures a.sent == if withdraw.Success? then [Sent(WithdrawPurpose, withdraw.value)] else []
      ensures withdraw.Failure? ==> a.err == Some(Wrapped("failed to create candidate withdraw tx", withdraw.error))
      ensures withdraw.Success? && a.err.Some? ==>
                a.err == Some(Wrapped("failed to withdraw bonds", txSender(WithdrawPurpose, withdraw.value).value))
    {
      BuildAndSend(withdraw, txSender, WithdrawPurpose,
                   "failed to create candidate withdraw tx", "failed to withdraw bonds")
    }
  }

  /** The outcome of a withdrawal does not depend on the height it is run at. */
  lemma WithdrawHeightIrrelevant(w: Withdrawer, h1: Uint64, h2: Uint64)
    ensures w.WithdrawBonds(h1) == w.WithdrawBonds(h2)
  {
  }
}
