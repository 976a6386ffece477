/**
 * A flow session between the requester and the host: one ordered, reliable
 * channel per direction.
 */
module FlowSessions {
  import opened AccountKeyTypes

  /**
   * One direction of a session: every message ever sent on it, in order, and
   * how many of them the receiving side has taken. The suffix not yet taken is
   * the queue of pending messages.
   */
  datatype Channel = Channel(sent: seq<Message>, delivered: nat) {

    predicate Valid() {
      delivered <= |sent|
    }

    /** The messages sent and not yet received, oldest first. */
    function Pending(): seq<Message>
      requires Valid()
    {
      sent[delivered..]
    }

    /** True when the next message the receiver will take is `m`. */
    predicate NextIs(m: Message)
      requires Valid()
    {
      Pending() != [] && Pending()[0] == m
    }

    /** Appends `m` at the back of the queue; the log only grows. */
    function Send(m: Message): (c: Channel)
      requires Valid()
      ensures c.Valid()
      ensures c.Pending() == Pending() + [m]
      ensures sent <= c.sent && |c.sent| == |sent| + 1 && c.sent[|sent|] == m
    {
      Channel(sent + [m], delivered)
    }

    /**
     * Takes the front of the queue, if there is one; a receive on an empty
     * queue finds nothing and changes nothing.
     */
    function Receive(): (d: Delivery)
      requires Valid()
      ensures d.channel.Valid() && d.channel.sent == sent
      ensures d.message.Some? <==> Pending() != []
      ensures d.message.Some? ==> d.message.value == Pending()[0] && d.channel.Pending() == Pending()[1..]
      ensures d.message.None? ==> d.channel == this
    {
      if delivered < |sent| then Delivery(Some(sent[delivered]), Channel(sent, delivered + 1))
      else Delivery(None, this)
    }
  }

  /** What a receive yields: the message taken, if any, and the channel after it. */
  datatype Delivery = Delivery(message: Option<Message>, channel: Channel)

  /** Both directions of one session, as a value. */
  datatype SessionState = SessionState(toHost: Channel, toRequester: Channel) {
    predicate Valid() {
      toHost.Valid() && toRequester.Valid()
    }
  }

  /** A session just opened: nothing sent either way. */
  const NewSession := SessionState(Channel([], 0), Channel([], 0))

  /**
   * The one session object both flows hold: the requester's `hostSession` and
   * the host's `otherSide` are the two ends of it.
   */
  class Session {
    var toHost: Channel
    var toRequester: Channel

    function State(): SessionState
      reads this
    {
      SessionState(toHost, toRequester)
    }

    constructor ()
      ensures State() == NewSession
    {
      toHost := Channel([], 0);
      toRequester := Channel([], 0);
    }

    /** The requester's `send`. */
    method SendToHost(m: Message)
      requires State().Valid()
      modifies this
      ensures toHost == old(toHost).Send(m) && toRequester == old(toRequester)
    {
      toHost := Channel(toHost.sent + [m], toHost.delivered);
    }

    /** The host's `send`. */
    method SendToRequester(m: Message)
      requires State().Valid()
      modifies this
      ensures toRequester == old(toRequester).Send(m) && toHost == old(toHost)
    {
      toRequester := Channel(toRequester.sent + [m], toRequester.delivered);
    }

    /** The host's `receive`; None when nothing is pending. */
    method ReceiveAtHost() returns (m: Option<Message>)
      requires State().Valid()
      modifies this
      ensures Delivery(m, toHost) == old(toHost).Receive() && toRequester == old(toRequester)
    {
      if toHost.delivered < |toHost.sent| {
        m := Some(toHost.sent[toHost.delivered]);
        toHost := toHost.(delivered := toHost.delivered + 1);
      } else {
        m := None;
      }
    }

    /** The requester's `receive`; None when nothing is pending. */
    method ReceiveAtRequester() returns (m: Option<Message>)
      requires State().Valid()
      modifies this
      ensures Delivery(m, toRequester) == old(toRequester).Receive() && toHost == old(toHost)
    {
      if toRequester.delivered < |toRequester.sent| {
        m := Some(toRequester.sent[toRequester.delivered]);
        toRequester := toRequester.(delivered := toRequester.delivered + 1);
      } else {
        m := None;
      }
    }
  }
}
