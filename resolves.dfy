/** `scheduler.ResolveScheduler`: a one-slot mailbox whose message carries a
    whole slice of resolve data, filled by a blocking `Schedule` and drained
    by a worker that hands the slice to the resolver in one call. */
module Resolves {
  import opened Wrappers
  import opened ByteCodec
  import opened GoErrors
  import opened DaTypes
  import opened Executors

  datatype ResolveMessage = ResolveMessage(blockNumber: Uint64, resolveData: seq<ResolveData>)

  class ResolveScheduler {
    const resolver: Resolver
    var mailbox: Option<ResolveMessage>
    var started: bool
    var cancelled: bool
    /** The resolve scheduler records through the challenge counters
        `RecordDAChallenge` and `RecordDAChallengeFailed`. */
    var challenges: nat
    var challengeFailures: nat

    constructor (resolver: Resolver)
      ensures this.resolver == resolver
      ensures mailbox == None && !started && !cancelled
      ensures challenges == 0 && challengeFailures == 0
    {
      this.resolver := resolver;
      mailbox := None;
      started := false;
      cancelled := false;
      challenges := 0;
      challengeFailures := 0;
    }

    method Start()
      modifies this
      ensures started && !cancelled
      ensures mailbox == old(mailbox) && challenges == old(challenges) && challengeFailures == old(challengeFailures)
    {
      started := true;
      cancelled := false;
    }

    /** Cancel the worker and wait for it; always nil (panics before `Start`). */
    method Close() returns (err: Option<Error>)
      requires started
      modifies this
      ensures err == None && cancelled && started
      ensures mailbox == old(mailbox) && challenges == old(challenges) && challengeFailures == old(challengeFailures)
    {
      cancelled := true;
      err := None;
    }

    /** The blocking send of the whole slice; always nil. */
    method Schedule(blockNumber: Uint64, resolveData: seq<ResolveData>) returns (err: Option<Error>)
      requires mailbox.None?
      modifies this`mailbox
      ensures err == None
      ensures mailbox == Some(ResolveMessage(blockNumber, resolveData))
    {
      mailbox := Some(ResolveMessage(blockNumber, resolveData));
      err := None;
    }

    /** One worker iteration: the dequeued slice goes to `ResolveChallenges`
        as a whole, and exactly one counter moves. */
    method Step() returns (sent: seq<Sent>)
      requires started
      modifies this`mailbox, this`challenges, this`challengeFailures
      ensures old(cancelled) || old(mailbox).None? ==>
                sent == [] && mailbox == old(mailbox) &&
                challenges == old(challenges) && challengeFailures == old(challengeFailures)
      ensures !old(cancelled) && old(mailbox).Some? ==>
                var a := Accumulate(resolver.ResolveChallenge, old(mailbox).value.resolveData);
                mailbox == None && sent == a.sent &&
                (a.err.None? ==> challenges == old(challenges) + 1 && challengeFailures == old(challengeFailures)) &&
                (a.err.Some? ==> challenges == old(challenges) && challengeFailures == old(challengeFailures) + 1)
    {
      sent := [];
      if !cancelled && mailbox.Some? {
        var msg := mailbox.value;
        mailbox := None;
        var err;
        err, sent := resolver.ResolveChallenges(msg.resolveData);
        if err.Some? {
          challengeFailures := challengeFailures + 1;
        } else {
          challenges := challenges + 1;
        }
      }
    }
  }
}
