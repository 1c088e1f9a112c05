/** `scheduler.BondUnlockScheduler`: a one-slot mailbox filled by a
    non-blocking `Schedule` that drops the message when the slot is taken,
    and a worker that unlocks one bond per message and counts failures. */
module Unlocks {
  import opened Wrappers
  import opened ByteCodec
  import opened GoErrors
  import opened DaTypes
  import opened Executors

  datatype UnlockMessage = UnlockMessage(blockNumber: Uint64, challenge: CommitmentArg)

  class BondUnlockScheduler {
    const unlocker: Unlocker
    var mailbox: Option<UnlockMessage>
    var started: bool
    var cancelled: bool
    /** `RecordBondUnlockFailed` count; a successful unlock records nothing. */
    var unlockFailures: nat

    constructor (unlocker: Unlocker)
      ensures this.unlocker == unlocker
      ensures mailbox == None && !started && !cancelled && unlockFailures == 0
    {
      this.unlocker := unlocker;
      mailbox := None;
      started := false;
      cancelled := false;
      unlockFailures := 0;
    }

    method Start()
      modifies this
      ensures started && !cancelled
      ensures mailbox == old(mailbox) && unlockFailures == old(unlockFailures)
    {
      started := true;
      cancelled := false;
    }

    /** Cancel the worker and wait for it; always nil (panics before `Start`). */
    method Close() returns (err: Option<Error>)
      requires started
      modifies this
      ensures err == None && cancelled && started
      ensures mailbox == old(mailbox) && unlockFailures == old(unlockFailures)
    {
      cancelled := true;
      err := None;
    }

    /** Enqueue into a free slot; when the slot is taken the new message is
        dropped and the mailbox keeps the old one. Never blocks, always nil. */
    method Schedule(blockNumber: Uint64, challenge: CommitmentArg) returns (err: Option<Error>)
      modifies this`mailbox
      ensures err == None
      ensures old(mailbox).None? ==> mailbox == Some(UnlockMessage(blockNumber, challenge))
      ensures old(mailbox).Some? ==> mailbox == old(mailbox)
    {
      if mailbox.None? {
        mailbox := Some(UnlockMessage(blockNumber, challenge));
      }
      err := None;
    }

    /** One worker iteration: unlock the dequeued bond; only a failure is counted. */
    method Step() returns (sent: seq<Sent>)
      requires started
      modifies this`mailbox, this`unlockFailures
      ensures old(cancelled) || old(mailbox).None? ==>
                sent == [] && mailbox == old(mailbox) && unlockFailures == old(unlockFailures)
      ensures !old(cancelled) && old(mailbox).Some? ==>
                var a := unlocker.UnlockBond(old(mailbox).value.challenge);
                mailbox == None && sent == a.sent &&
                unlockFailures == old(unlockFailures) + (if a.err.Some? then 1 else 0)
    {
      sent := [];
      if !cancelled && mailbox.Some? {
        var msg := mailbox.value;
        mailbox := None;
        var err;
        err, sent := unlocker.UnlockBonds([msg.challenge]);
        assert [msg.challenge][0] == msg.challenge;
        if err.Some? {
          unlockFailures := unlockFailures + 1;
        }
        assert SentAll(unlocker.UnlockBond, [msg.challenge][1..]) == [];
      }
    }
  }
}
