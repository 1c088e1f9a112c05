/** `scheduler.WithdrawScheduler`: a one-slot mailbox of block numbers filled
    by a drop-if-busy `Schedule`, and a worker that withdraws bonds at the
    dequeued height and counts failures. */
module Withdraws {
  import opened Wrappers
  import opened ByteCodec
  import opened GoErrors
  import opened Executors

  datatype WithdrawMessage = WithdrawMessage(blockNumber: Uint64)

  class WithdrawScheduler {
    const withdrawer: Withdrawer
    var mailbox: Option<WithdrawMessage>
    var started: bool
    var cancelled: bool
    /** `RecordWithdrawFailed` count. */
    var withdrawFailures: nat

    constructor (withdrawer: Withdrawer)
      ensures this.withdrawer == withdrawer
      ensures mailbox == None && !started && !cancelled && withdrawFailures == 0
    {
      this.withdrawer := withdrawer;
      mailbox := None;
      started := false;
      cancelled := false;
      withdrawFailures := 0;
    }

    method Start()
      modifies this
      ensures started && !cancelled
      ensures mailbox == old(mailbox) && withdrawFailures == old(withdrawFailures)
    {
      started := true;
      cancelled := false;
    }

    /** Cancel the worker and wait for it; always nil (panics before `Start`). */
    method Close() returns (err: Option<Error>)
      requires started
      modifies this
      ensures err == None && cancelled && started
      ensures mailbox == old(mailbox) && withdrawFailures == old(withdrawFailures)
    {
      cancelled := true;
      err := None;
    }

    /** Enqueue into a free slot, otherwise drop the new height. Always nil. */
    method Schedule(blockNumber: Uint64) returns (err: Option<Error>)
      modifies this`mailbox
      ensures err == None
      ensures old(mailbox).None? ==> mailbox == Some(WithdrawMessage(blockNumber))
      ensures old(mailbox).Some? ==> mailbox == old(mailbox)
    {
      if mailbox.None? {
        mailbox := Some(WithdrawMessage(blockNumber));
      }
      err := None;
    }

    /** One worker iteration: withdraw at the dequeued height; only a failure is counted. */
    method Step() returns (sent: seq<Sent>)
      requires started
      modifies this`mailbox, this`withdrawFailures
      ensures old(cancelled) || old(mailbox).None? ==>
                sent == [] && mailbox == old(mailbox) && withdrawFailures == old(withdrawFailures)
      ensures !old(cancelled) && old(mailbox).Some? ==>
                var a := withdrawer.WithdrawBonds(old(mailbox).value.blockNumber);
                mailbox == None && sent == a.sent &&
                withdrawFailures == old(withdrawFailures) + (if a.err.Some? then 1 else 0)
    {
      sent := [];
      if !cancelled && mailbox.Some? {
        var msg := mailbox.value;
        mailbox := None;
        var a := withdrawer.WithdrawBonds(msg.blockNumber);
        sent := a.sent;
        if a.err.Some? {
          withdrawFailures := withdrawFailures + 1;
        }
      }
    }
  }
}
