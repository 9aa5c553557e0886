/** Which channels a due reminder is queued on. */
module Schedule {
  import opened Payload

  datatype Channel = EmailChannel | PushChannel | UnknownChannel

  /** A due reminder joined with its owner's settings, as the claim query returns it. */
  datatype Due = Due(
    eventId: string,
    user: nat,
    minutesBefore: I32,
    dueAt: I64,
    email: bool,
    push: bool,
    hasPushDevice: bool,
    mailsToOwnMailbox: bool)

  /** The push will carry the obligation to mail: it is queued instead of the email, and flagged. */
  predicate EmailDeferredToPush(due: Due) {
    due.email && due.push && due.hasPushDevice && due.mailsToOwnMailbox
  }

  /** The email is queued or left to the push, never both, and nothing is queued twice. */
  function ChannelsFor(due: Due): (channels: seq<Channel>)
    ensures EmailChannel in channels <==> due.email && !EmailDeferredToPush(due)
    ensures PushChannel in channels <==> due.push && due.hasPushDevice
    ensures UnknownChannel !in channels
    ensures forall i, j | 0 <= i < j < |channels| :: channels[i] != channels[j]
    ensures EmailDeferredToPush(due) ==> channels == [PushChannel]
  {
    (if due.email && !EmailDeferredToPush(due) then [EmailChannel] else []) +
    (if due.push && due.hasPushDevice then [PushChannel] else [])
  }
}
