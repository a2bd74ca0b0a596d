/** How a client's broadcast ends a subscription: the node's cache decides
    whether it is handled, and the index what that ends. */
module Broadcasts {
  import opened Basics
  import RelayCache
  import Subscriptions

  /** The event in the index that a handled broadcast causes. */
  function Ends(u: RelayCache.Unsub): Subscriptions.Event {
    Subscriptions.Unsubscribed(u.peer, u.topic, u.subject)
  }

  /** Afterwards the sender wants no subject of the topic if it left the topic,
      and all but the one if it left a subject; nobody else is concerned. */
  lemma BroadcastEndsSubscription(h: seq<Subscriptions.Event>, b: RelayCache.Broadcast, p: nat, topic: string,
          subject: string)
    requires RelayCache.EndedBy(b).Some?
    ensures Subscriptions.Wants(h + [Ends(RelayCache.EndedBy(b).value)], p, topic, subject) <==>
      && Subscriptions.Wants(h, p, topic, subject)
      && (p == b.peer && topic == b.topic ==>
            b.kind == RelayCache.UnsubSubject && b.subject != "" && b.subject != subject)
  {
    var e := Ends(RelayCache.EndedBy(b).value);
    assert (h + [e])[..|h|] == h && (h + [e])[|h|] == e;
  }

  /** An ordinary broadcast ends nothing. */
  lemma OnlyUnsubsEnd(b: RelayCache.Broadcast)
    ensures RelayCache.EndedBy(b).None? <==> b.kind == RelayCache.Ordinary
  {
  }
}
