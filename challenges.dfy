/** `scheduler.ChallengeScheduler`: a one-slot mailbox of commitments to
    challenge, filled by a blocking `Schedule` and drained by a worker that
    runs the challenger and records a success or a failure. The worker
    goroutine is modelled as `Step`, one iteration of its loop. */
module Challenges {
  import opened Wrappers
  import opened ByteCodec
  import opened GoErrors
  import opened DaTypes
  import opened Executors

  datatype ChallengeMessage = ChallengeMessage(blockNumber: Uint64, commitment: CommitmentArg)

  class ChallengeScheduler {
    const challenger: Challenger
    /** The capacity-1 channel `ch`. */
    var mailbox: Option<ChallengeMessage>
    /** `Start` has set the cancel function (and started the worker). */
    var started: bool
    /** The worker's context has been cancelled. */
    var cancelled: bool
    /** `RecordDAChallenge` and `RecordDAChallengeFailed` counts. */
    var challenges: nat
    var challengeFailures: nat

    constructor (challenger: Challenger)
      ensures this.challenger == challenger
      ensures mailbox == None && !started && !cancelled
      ensures challenges == 0 && challengeFailures == 0
    {
      this.challenger := challenger;
      mailbox := None;
      started := false;
      cancelled := false;
      challenges := 0;
      challengeFailures := 0;
    }

    /** A fresh cancellable context and a running worker. */
    method Start()
      modifies this
      ensures started && !cancelled
      ensures mailbox == old(mailbox) && challenges == old(challenges) && challengeFailures == old(challengeFailures)
    {
      started := true;
      cancelled := false;
    }

    /** Cancel the worker and wait for it; always nil. Before `Start` the
        cancel function is nil and calling it panics, hence the precondition. */
    method Close() returns (err: Option<Error>)
      requires started
      modifies this
      ensures err == None && cancelled && started
      ensures mailbox == old(mailbox) && challenges == old(challenges) && challengeFailures == old(challengeFailures)
    {
      cancelled := true;
      err := None;
    }

    /** The blocking send: it completes only once the slot is free, so the
        model requires a free slot. Always nil. */
    method Schedule(blockNumber: Uint64, commitment: CommitmentArg) returns (err: Option<Error>)
      requires mailbox.None?
      modifies this`mailbox
      ensures err == None
      ensures mailbox == Some(ChallengeMessage(blockNumber, commitment))
    {
      mailbox := Some(ChallengeMessage(blockNumber, commitment));
      err := None;
    }

    /** One iteration of the worker: a cancelled worker takes nothing; a
        worker with a message runs the challenger on that one commitment and
        bumps exactly one of the two counters. The executor's error goes to
        the log only. */
    method Step() returns (sent: seq<Sent>)
      requires started
      modifies this`mailbox, this`challenges, this`challengeFailures
      ensures old(cancelled) || old(mailbox).None? ==>
                sent == [] && mailbox == old(mailbox) &&
                challenges == old(challenges) && challengeFailures == old(challengeFailures)
      ensures !old(cancelled) && old(mailbox).Some? ==>
                var a := challenger.ChallengeCommitment(old(mailbox).value.commitment);
                mailbox == None && sent == a.sent &&
                (a.err.None? ==> challenges == old(challenges) + 1 && challengeFailures == old(challengeFailures)) &&
                (a.err.Some? ==> challenges == old(challenges) && challengeFailures == old(challengeFailures) + 1)
    {
      sent := [];
      if !cancelled && mailbox.Some? {
        var msg := mailbox.value;
        mailbox := None;
        var err;
        err, sent := challenger.ChallengeCommitments([msg.commitment]);
        assert [msg.commitment][0] == msg.commitment;
        if err.Some? {
          challengeFailures := challengeFailures + 1;
        } else {
          challenges := challenges + 1;
        }
        assert SentAll(challenger.ChallengeCommitment, [msg.commitment][1..]) == [];
      }
    }
  }
}
