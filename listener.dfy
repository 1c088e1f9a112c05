/** The keccak256 listener: it funnels inbox commitments, challenge events,
    status events and new L1 heads into one stream of tagged events, keeping
    only the heads whose number is a multiple of a modulus. The `select`
    over the five channels is modelled by the sequence of cases it picks. */
module HeadListener {
  import opened Wrappers
  import opened ByteCodec
  import opened GoErrors
  import opened DaTypes

  /** `EventType`, numbered from zero in declaration order. */
  type EventType = Uint64
  const InboxEvent: EventType := 0
  const ChallengeEvent: EventType := 1
  const StatusEvent: EventType := 2
  const NewHead: EventType := 3

  /** An L1 header: its number and everything else, which the listener passes on. */
  datatype Header = Header(number: nat, rest: Bytes)

  /** `Event`: a tag plus one field per kind; fields of other kinds keep
      their zero value. */
  datatype Event = Event(typ: EventType, inboxEvent: CommitmentArg, challengeEvent: Challenge,
                         statusEvent: Status, header: Header)

  const ZeroArg: CommitmentArg := CommitmentArg(0, [])
  const ZeroChallenge: Challenge := Challenge(ZeroArg, Zeros(20), 0, 0, 0)
  const ZeroStatus: Status := Status(ZeroArg, Uninitialized)
  const ZeroHeader: Header := Header(0, [])

  /** One case the `select` in `Listen` takes. */
  datatype Received =
    | Quit
    | FromInbox(arg: CommitmentArg)
    | FromChallenges(challenge: Challenge)
    | FromStatuses(status: Status)
    | FromHeads(head: Header)

  /** The modulus the listener keeps: a non-positive request becomes 1. */
  function NormaliseHeadsMod(headsMod: int): (m: int)
    ensures m >= 1
    ensures headsMod > 0 ==> m == headsMod
    ensures headsMod <= 0 ==> m == 1
  {
    if headsMod <= 0 then 1 else headsMod
  }

  /** The event one received value produces, if any. `Mod` overwrites the
      head's number with the remainder before the comparison, so a
      forwarded head carries number 0 and the rest of the header as received. */
  function Translate(r: Received, headsMod: int): (e: Option<Event>)
    requires r != Quit && headsMod >= 1
    // inbox, challenge and status values become one event each, tagged with their kind
    ensures !r.FromHeads? ==> e.Some?
    ensures r.FromInbox? ==> e.value.typ == 0 && e.value.inboxEvent == r.arg
    ensures r.FromChallenges? ==> e.value.typ == 1 && e.value.challengeEvent == r.challenge
    ensures r.FromStatuses? ==> e.value.typ == 2 && e.value.statusEvent == r.status
    // a head is forwarded exactly when the modulus divides its number
    ensures r.FromHeads? ==> (e.Some? <==> r.head.number % headsMod == 0)
    ensures r.FromHeads? && e.Some? ==>
              e.value.typ == 3 && e.value.header.number == 0 && e.value.header.rest == r.head.rest
  {
    match r
    case FromInbox(arg) => Some(Event(InboxEvent, arg, ZeroChallenge, ZeroStatus, ZeroHeader))
    case FromChallenges(c) => Some(Event(ChallengeEvent, ZeroArg, c, ZeroStatus, ZeroHeader))
    case FromStatuses(s) => Some(Event(StatusEvent, ZeroArg, ZeroChallenge, s, ZeroHeader))
    case FromHeads(head) =>
      var remainder := head.number % headsMod;
      if remainder == 0 then Some(Event(NewHead, ZeroArg, ZeroChallenge, ZeroStatus, head.(number := remainder)))
      else None
  }

  /** The events sent for a run of received values, which ends at the first `Quit`. */
  function Events(received: seq<Received>, headsMod: int): seq<Event>
    requires headsMod >= 1
  {
    if received == [] || received[0] == Quit then []
    else
      match Translate(received[0], headsMod)
      case Some(e) => [e] + Events(received[1..], headsMod)
      case None => Events(received[1..], headsMod)
  }

  /** With modulus 1, which is also what a non-positive request gives, every head is forwarded. */
  lemma {:induction false} ModOneForwardsEveryHead(received: seq<Received>, headsMod: int)
    requires NormaliseHeadsMod(headsMod) == 1
    requires forall i | 0 <= i < |received| :: received[i].FromHeads?
    ensures |Events(received, 1)| == |received|
    ensures forall i | 0 <= i < |received| :: Events(received, 1)[i].typ == NewHead
  {
    if received != [] {
      assert received[0].head.number % 1 == 0;
      assert forall i | 0 <= i < |received[1..]| :: received[1..][i] == received[i + 1];
      ModOneForwardsEveryHead(received[1..], headsMod);
    }
  }

  /** Nothing received after `Quit` is handled. */
  lemma {:induction false} QuitEndsListening(before: seq<Received>, after: seq<Received>, headsMod: int)
    requires headsMod >= 1
    requires forall i | 0 <= i < |before| :: before[i] != Quit
    ensures Events(before + [Quit] + after, headsMod) == Events(before, headsMod)
  {
    if before == [] {
      assert (before + [Quit] + after)[0] == Quit;
    } else {
      assert (before + [Quit] + after)[0] == before[0];
      assert (before + [Quit] + after)[1..] == before[1..] + [Quit] + after;
      QuitEndsListening(before[1..], after, headsMod);
    }
  }

  class Listener {
    const headsMod: int
    /** Everything sent on `out` so far. */
    var out: seq<Event>

    constructor (headsMod: int)
      requires headsMod >= 1
      ensures this.headsMod == headsMod && out == []
    {
      this.headsMod := headsMod;
      out := [];
    }

    /** `Listen`: handles the received values in order, sending each
        translation on `out`, and returns at `Quit`. */
    method Listen(received: seq<Received>)
      requires headsMod >= 1
      modifies this`out
      ensures out == old(out) + Events(received, headsMod)
    {
      var i := 0;
      while i < |received| && received[i] != Quit
        invariant 0 <= i <= |received|
        invariant old(out) + Events(received, headsMod) == out + Events(received[i..], headsMod)
      {
        assert received[i..][0] == received[i] && received[i..][1..] == received[i + 1..];
        match received[i] {
          case FromInbox(arg) =>
            out := out + [Event(InboxEvent, arg, ZeroChallenge, ZeroStatus, ZeroHeader)];
          case FromChallenges(c) =>
            out := out + [Event(ChallengeEvent, ZeroArg, c, ZeroStatus, ZeroHeader)];
          case FromStatuses(s) =>
            out := out + [Event(StatusEvent, ZeroArg, ZeroChallenge, s, ZeroHeader)];
          case FromHeads(head) =>
            var head' := head.(number := head.number % headsMod);
            if head'.number == 0 {
              out := out + [Event(NewHead, ZeroArg, ZeroChallenge, ZeroStatus, head')];
            }
        }
        i := i + 1;
      }
      if i < |received| {
        assert received[i..][0] == Quit;
      }
    }
  }

  /** `NewListener`: normalises the modulus, then subscribes to the inbox,
      challenge, status and head streams in that order; the outcome of each
      subscription is given, and the first failure is returned. */
  method NewListener(inboxErr: Option<Error>, challengesErr: Option<Error>, statusesErr: Option<Error>,
                     headsErr: Option<Error>, headsMod: int)
    returns (l: Listener?, err: Option<Error>)
    ensures err == FirstError([inboxErr, challengesErr, statusesErr, headsErr])
    ensures l == null <==> err.Some?
    ensures l != null ==> fresh(l) && l.headsMod == NormaliseHeadsMod(headsMod) && l.out == []
  {
    var gs := [inboxErr, challengesErr, statusesErr, headsErr];
    var m := if headsMod <= 0 then 1 else headsMod;
    if inboxErr.Some? {
      FirstErrorIsFirst(gs, 0);
      return null, inboxErr;
    }
    if challengesErr.Some? {
      FirstErrorIsFirst(gs, 1);
      return null, challengesErr;
    }
    if statusesErr.Some? {
      FirstErrorIsFirst(gs, 2);
      return null, statusesErr;
    }
    if headsErr.Some? {
      FirstErrorIsFirst(gs, 3);
      return null, headsErr;
    }
    FirstErrorNoneIff(gs);
    l := new Listener(m);
    err := None;
  }
}
