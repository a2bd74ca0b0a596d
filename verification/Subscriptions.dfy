/** The subscription index of a mesh node: for every topic its subscribers and,
    for every subject of the topic, the subscribers of that subject. */
module Subscriptions {

  type PeerID = nat

  datatype Topic = Topic(subjects: map<string, set<PeerID>>, subscribers: set<PeerID>)

  type Topics = map<string, Topic>

  /** The error answers to a client. */
  datatype Answer = Ok | UnknownTopic | UnknownSubject

  // ---------- the steps, on values ----------

  function Store(ts: Topics, p: PeerID, topic: string, subject: string): Topics {
    var t := if topic in ts then ts[topic] else Topic(map[], {});
    var subs := if subject in t.subjects then t.subjects[subject] else {};
    ts[topic := Topic(t.subjects[subject := subs + {p}], t.subscribers + {p})]
  }

  /** Take a peer out of every subject, and forget subjects that end up empty. */
  function Leave(subjects: map<string, set<PeerID>>, p: PeerID): map<string, set<PeerID>> {
    map s | s in subjects && subjects[s] - {p} != {} :: subjects[s] - {p}
  }

  function LeaveOne(subjects: map<string, set<PeerID>>, p: PeerID, subject: string): map<string, set<PeerID>>
    requires subject in subjects
  {
    if subjects[subject] - {p} == {} then subjects - {subject} else subjects[subject := subjects[subject] - {p}]
  }

  /** Unsubscribe from one subject, or from all with the empty subject. The
      topic's own subscriber set is left alone. */
  function Unsub(ts: Topics, p: PeerID, topic: string, subject: string): (Topics, Answer) {
    if topic !in ts || p !in ts[topic].subscribers then (ts, UnknownTopic)
    else
      var t := ts[topic];
      if subject != "" && subject !in t.subjects then (ts, UnknownSubject)
      else
        var t' := t.(subjects := if subject == "" then Leave(t.subjects, p) else LeaveOne(t.subjects, p, subject));
        (if t'.subscribers == {} then ts - {topic} else ts[topic := t'], Ok)
  }

  /** Take a peer out of a topic altogether; its subjects stay, if need be empty. */
  function Drop(t: Topic, p: PeerID): Topic {
    if p !in t.subscribers then t
    else Topic(map s | s in t.subjects :: t.subjects[s] - {p}, t.subscribers - {p})
  }

  function Disconnect(ts: Topics, p: PeerID): Topics {
    map n | n in ts :: Drop(ts[n], p)
  }

  // ---------- the steps, as the node runs them ----------

  class Index {
    var topics: Topics
    var clients: set<PeerID>

    constructor ()
      ensures topics == map[] && clients == {}
    {
      topics, clients := map[], {};
    }

    method StoreSubscription(p: PeerID, topicName: string, subjectName: string)
      modifies this`topics
      ensures topics == Store(old(topics), p, topicName, subjectName)
    {
      assert {} + {p} == {p};
      if topicName in topics {
        var topic := topics[topicName];
        topic := topic.(subscribers := topic.subscribers + {p});
        if subjectName in topic.subjects {
          var subs := topic.subjects[subjectName];
          topic := topic.(subjects := topic.subjects[subjectName := subs + {p}]);
        } else {
          topic := topic.(subjects := topic.subjects[subjectName := {p}]);
        }
        topics := topics[topicName := topic];
      } else {
        topics := topics[topicName := Topic(map[subjectName := {p}], {p})];
      }
    }

    /** Add every listed subscription of a peer. */
    method SetSubscriptions(p: PeerID, subs: seq<(string, seq<string>)>)
      modifies this`topics
      ensures topics == StoreAll(old(topics), p, Flatten(subs))
    {
      var i := 0;
      ghost var start := topics;
      assert subs[..0] == [];
      while i < |subs|
        modifies this`topics
        invariant i <= |subs|
        invariant topics == StoreAll(start, p, Flatten(subs[..i]))
      {
        var (topic, subjects) := subs[i];
        ghost var before := Flatten(subs[..i]);
        var j := 0;
        assert before + Pairs(topic, subjects[..0]) == before;
        while j < |subjects|
          modifies this`topics
          invariant j <= |subjects|
          invariant topics == StoreAll(start, p, before + Pairs(topic, subjects[..j]))
        {
          StoreSubscription(p, topic, subjects[j]);
          assert subjects[..j + 1][..j] == subjects[..j];
          StoreAllSnoc(start, p, before + Pairs(topic, subjects[..j]), (topic, subjects[j]));
          assert before + Pairs(topic, subjects[..j + 1]) ==
              before + Pairs(topic, subjects[..j]) + [(topic, subjects[j])];
          j := j + 1;
        }
        assert subjects[..j] == subjects;
        assert subs[..i + 1][..i] == subs[..i];
        i := i + 1;
      }
      assert subs[..i] == subs;
    }

    method Unsubscribe(p: PeerID, topicID: string, subjectID: string) returns (answer: Answer)
      modifies this`topics
      ensures (topics, answer) == Unsub(old(topics), p, topicID, subjectID)
    {
      if topicID !in topics {
        return UnknownTopic;
      }
      var topic := topics[topicID];
      if p !in topic.subscribers {
        return UnknownTopic;
      }
      if subjectID == "" {
        var left := LeaveSubjects(topic.subjects, p);
        topic := topic.(subjects := left);
      } else {
        if subjectID !in topic.subjects {
          return UnknownSubject;
        }
        var subs := topic.subjects[subjectID] - {p};
        if subs == {} {
          topic := topic.(subjects := topic.subjects - {subjectID});
        } else {
          topic := topic.(subjects := topic.subjects[subjectID := subs]);
        }
      }
      topics := topics[topicID := topic];
      if topic.subscribers == {} {
        // The topic would be deleted here, but the peer itself still subscribes to it.
        assert false;
      }
      answer := Ok;
    }

    /** Remove a client and every trace of it in the index. */
    method HandleClientDisconnect(p: PeerID) returns (unsubs: set<string>)
      modifies this
      ensures clients == old(clients) - {p}
      ensures topics == Disconnect(old(topics), p)
      ensures unsubs == set n | n in old(topics) && p in old(topics)[n].subscribers
    {
      clients, unsubs := clients - {p}, {};
      ghost var all := topics;
      var todo := topics.Keys;
      while todo != {}
        invariant todo <= all.Keys && topics.Keys == all.Keys && clients == old(clients) - {p}
        invariant forall n :: n in all ==> topics[n] == if n in todo then all[n] else Drop(all[n], p)
        invariant unsubs == set n | n in all && n !in todo && p in all[n].subscribers
        decreases todo
      {
        var n :| n in todo;
        var topic := topics[n];
        if p in topic.subscribers {
          unsubs := unsubs + {n};
          topics := topics[n := Topic(map s | s in topic.subjects :: topic.subjects[s] - {p}, topic.subscribers - {p})];
        }
        todo := todo - {n};
      }
    }

    /** The connected clients a broadcast goes to; the empty subject is the whole topic. */
    method Distribute(topicName: string, subject: string, mustExist: bool)
      returns (reached: set<PeerID>, answer: Answer)
      ensures reached == Targets(topics, topicName, subject) * clients
      ensures answer == UnknownTopic <==> topicName !in topics && mustExist
      ensures answer == UnknownSubject <==>
          topicName in topics && subject != "" && subject !in topics[topicName].subjects
    {
      if topicName !in topics {
        return {}, if mustExist then UnknownTopic else Ok;
      }
      var topic := topics[topicName];
      if subject == "" {
        return topic.subscribers * clients, Ok;
      }
      if subject !in topic.subjects {
        return {}, UnknownSubject;
      }
      return topic.subjects[subject] * clients, Ok;
    }
  }

  /** The loop over a topic's subjects that takes a peer out of each. */
  method LeaveSubjects(subjects: map<string, set<PeerID>>, p: PeerID) returns (left: map<string, set<PeerID>>)
    ensures left == Leave(subjects, p)
  {
    left := subjects;
    var todo := subjects.Keys;
    while todo != {}
      invariant todo <= subjects.Keys
      invariant forall s :: s in left <==> s in subjects && (s in todo || subjects[s] - {p} != {})
      invariant forall s :: s in left ==> left[s] == if s in todo then subjects[s] else subjects[s] - {p}
      decreases todo
    {
      var s :| s in todo;
      var subs := left[s] - {p};
      left := if subs == {} then left - {s} else left[s := subs];
      todo := todo - {s};
    }
  }

  function StoreAll(ts: Topics, p: PeerID, subs: seq<(string, string)>): Topics {
    if subs == [] then ts
    else
      var last := subs[|subs| - 1];
      Store(StoreAll(ts, p, subs[..|subs| - 1]), p, last.0, last.1)
  }

  lemma StoreAllSnoc(ts: Topics, p: PeerID, subs: seq<(string, string)>, s: (string, string))
    ensures StoreAll(ts, p, subs + [s]) == Store(StoreAll(ts, p, subs), p, s.0, s.1)
  {
    assert (subs + [s])[..|subs|] == subs;
  }

  function Pairs(topic: string, subjects: seq<string>): seq<(string, string)> {
    if subjects == [] then [] else Pairs(topic, subjects[..|subjects| - 1]) + [(topic, subjects[|subjects| - 1])]
  }

  function Flatten(subs: seq<(string, seq<string>)>): seq<(string, string)> {
    if subs == [] then []
    else
      var last := subs[|subs| - 1];
      Flatten(subs[..|subs| - 1]) + Pairs(last.0, last.1)
  }

  // ---------- what the index promises ----------

  /** The peers a broadcast is meant for. */
  function Targets(ts: Topics, topic: string, subject: string): set<PeerID> {
    if topic !in ts then {}
    else if subject == "" then ts[topic].subscribers
    else if subject in ts[topic].subjects then ts[topic].subjects[subject]
    else {}
  }

  predicate InSubject(ts: Topics, p: PeerID, topic: string, subject: string) {
    topic in ts && subject in ts[topic].subjects && p in ts[topic].subjects[subject]
  }

  predicate InTopic(ts: Topics, p: PeerID, topic: string) {
    topic in ts && p in ts[topic].subscribers
  }

  /** Subscribers of a subject are subscribers of its topic. */
  ghost predicate Nested(ts: Topics) {
    forall p, t, s :: InSubject(ts, p, t, s) ==> InTopic(ts, p, t)
  }

  datatype Event =
    | Subscribed(peer: PeerID, topic: string, subject: string)
    | Unsubscribed(peer: PeerID, topic: string, subject: string)
    | Disconnected(peer: PeerID)

  function Next(ts: Topics, e: Event): Topics {
    match e
    case Subscribed(p, t, s) => Store(ts, p, t, s)
    case Unsubscribed(p, t, s) => Unsub(ts, p, t, s).0
    case Disconnected(p) => Disconnect(ts, p)
  }

  /** The index after a history of events, the latest last. */
  function After(h: seq<Event>): Topics {
    if h == [] then map[] else Next(After(h[..|h| - 1]), h[|h| - 1])
  }

  /** By the history alone: has the peer subscribed to the subject, and neither
      unsubscribed from it or from the whole topic nor disconnected since? */
  predicate Wants(h: seq<Event>, p: PeerID, topic: string, subject: string) {
    if h == [] then false
    else
      var before := h[..|h| - 1];
      match h[|h| - 1]
      case Subscribed(q, t, s) => (q == p && t == topic && s == subject) || Wants(before, p, topic, subject)
      case Unsubscribed(q, t, s) => !(q == p && t == topic && (s == "" || s == subject)) &&
          Wants(before, p, topic, subject)
      case Disconnected(q) => q != p && Wants(before, p, topic, subject)
  }

  /** By the history alone: has the peer subscribed to anything in the topic
      and not disconnected since? Unsubscribing does not count. */
  predicate Joined(h: seq<Event>, p: PeerID, topic: string) {
    if h == [] then false
    else
      var before := h[..|h| - 1];
      match h[|h| - 1]
      case Subscribed(q, t, _) => (q == p && t == topic) || Joined(before, p, topic)
      case Unsubscribed(_, _, _) => Joined(before, p, topic)
      case Disconnected(q) => q != p && Joined(before, p, topic)
  }

  lemma StepKeepsNested(ts: Topics, e: Event)
    requires Nested(ts)
    ensures Nested(Next(ts, e))
  {
    forall p, t, s | InSubject(Next(ts, e), p, t, s)
      ensures InTopic(Next(ts, e), p, t)
    {
      if InSubject(ts, p, t, s) {
        assert InTopic(ts, p, t);
      }
    }
  }

  /** What one step does to one membership of a subject. */
  lemma StepOnSubject(ts: Topics, e: Event, p: PeerID, topic: string, subject: string)
    requires Nested(ts)
    ensures InSubject(Next(ts, e), p, topic, subject) <==>
      match e
      case Subscribed(q, t, s) => (q == p && t == topic && s == subject) || InSubject(ts, p, topic, subject)
      case Unsubscribed(q, t, s) => !(q == p && t == topic && (s == "" || s == subject)) &&
          InSubject(ts, p, topic, subject)
      case Disconnected(q) => q != p && InSubject(ts, p, topic, subject)
  {
    assert InSubject(ts, p, topic, subject) ==> InTopic(ts, p, topic);
  }

  lemma StepOnTopic(ts: Topics, e: Event, p: PeerID, topic: string)
    ensures InTopic(Next(ts, e), p, topic) <==>
      match e
      case Subscribed(q, t, _) => (q == p && t == topic) || InTopic(ts, p, topic)
      case Unsubscribed(_, _, _) => InTopic(ts, p, topic)
      case Disconnected(q) => q != p && InTopic(ts, p, topic)
  {
  }

  /** After every history the two-level index says exactly what the history
      says: a peer is under a subject if and only if it wants the subject, and
      under a topic if and only if it has joined it; and subjects are nested. */
  lemma {:induction false} IndexMatchesHistory(h: seq<Event>, p: PeerID, topic: string, subject: string)
    ensures Nested(After(h))
    ensures InSubject(After(h), p, topic, subject) <==> Wants(h, p, topic, subject)
    ensures InTopic(After(h), p, topic) <==> Joined(h, p, topic)
    decreases |h|
  {
    if h != [] {
      var before, e := h[..|h| - 1], h[|h| - 1];
      IndexMatchesHistory(before, p, topic, subject);
      StepKeepsNested(After(before), e);
      StepOnSubject(After(before), e, p, topic, subject);
      StepOnTopic(After(before), e, p, topic);
    }
  }

  /** A broadcast to a subject is for exactly the peers that want the subject,
      and one to the whole topic for exactly those that have joined it. */
  lemma TargetsMatchHistory(h: seq<Event>, p: PeerID, topic: string, subject: string)
    ensures p in Targets(After(h), topic, subject) <==>
      if subject == "" then Joined(h, p, topic) else Wants(h, p, topic, subject)
  {
    IndexMatchesHistory(h, p, topic, subject);
  }

  // ---------- a list of subscriptions ----------

  lemma {:induction false} PairsMembers(topic: string, subjects: seq<string>, x: (string, string))
    ensures x in Pairs(topic, subjects) <==> x.0 == topic && x.1 in subjects
  {
    if subjects != [] {
      PairsMembers(topic, subjects[..|subjects| - 1], x);
      assert subjects == subjects[..|subjects| - 1] + [subjects[|subjects| - 1]];
    }
  }

  /** Every subject of every topic is on the list, and nothing else. */
  lemma {:induction false} FlattenMembers(subs: seq<(string, seq<string>)>, x: (string, string))
    ensures x in Flatten(subs) <==> exists i :: 0 <= i < |subs| && subs[i].0 == x.0 && x.1 in subs[i].1
  {
    if subs != [] {
      var before, last := subs[..|subs| - 1], subs[|subs| - 1];
      FlattenMembers(before, x);
      PairsMembers(last.0, last.1, x);
      if x in Flatten(before) {
        var i :| 0 <= i < |before| && before[i].0 == x.0 && x.1 in before[i].1;
        assert subs[i].0 == x.0 && x.1 in subs[i].1;
      }
      if exists i :: 0 <= i < |subs| && subs[i].0 == x.0 && x.1 in subs[i].1 {
        var i :| 0 <= i < |subs| && subs[i].0 == x.0 && x.1 in subs[i].1;
        assert i < |before| ==> before[i].0 == x.0 && x.1 in before[i].1;
      }
    }
  }

  /** Storing a list adds the peer to exactly the subjects on it. */
  lemma {:induction false} StoringAddsListed(h: seq<Event>, p: PeerID, subs: seq<(string, string)>, q: PeerID,
          topic: string, subject: string)
    ensures Nested(StoreAll(After(h), p, subs))
    ensures InSubject(StoreAll(After(h), p, subs), q, topic, subject) <==>
      (q == p && (topic, subject) in subs) || Wants(h, q, topic, subject)
  {
    if subs == [] {
      IndexMatchesHistory(h, q, topic, subject);
    } else {
      var before, last := subs[..|subs| - 1], subs[|subs| - 1];
      StoringAddsListed(h, p, before, q, topic, subject);
      var ts := StoreAll(After(h), p, before);
      StepKeepsNested(ts, Subscribed(p, last.0, last.1));
      StepOnSubject(ts, Subscribed(p, last.0, last.1), q, topic, subject);
      assert subs == before + [last];
    }
  }

  // ---------- which topics and subjects exist ----------

  /** By the history alone: has anyone ever subscribed to anything in the topic? */
  predicate HasTopic(h: seq<Event>, topic: string) {
    h != [] && ((h[|h| - 1].Subscribed? && h[|h| - 1].topic == topic) || HasTopic(h[..|h| - 1], topic))
  }

  ghost predicate OthersWant(h: seq<Event>, q: PeerID, topic: string, subject: string) {
    exists p :: p != q && Wants(h, p, topic, subject)
  }

  /** By the history alone: a subject exists from its first subscription until a
      peer of the topic unsubscribes from it, or from all, and leaves nobody
      else. Disconnecting leaves it, if need be empty. */
  ghost predicate HasSubject(h: seq<Event>, topic: string, subject: string) {
    if h == [] then false
    else
      var before := h[..|h| - 1];
      match h[|h| - 1]
      case Subscribed(_, t, s) => (t == topic && s == subject) || HasSubject(before, topic, subject)
      case Unsubscribed(q, t, s) =>
        && HasSubject(before, topic, subject)
        && (t == topic && (s == "" || s == subject) && Joined(before, q, topic) ==>
              OthersWant(before, q, topic, subject))
      case Disconnected(_) => HasSubject(before, topic, subject)
  }

  predicate Known(ts: Topics, topic: string, subject: string) {
    topic in ts && subject in ts[topic].subjects
  }

  lemma OthersAreListed(h: seq<Event>, q: PeerID, topic: string, subject: string)
    requires Known(After(h), topic, subject)
    ensures OthersWant(h, q, topic, subject) <==> After(h)[topic].subjects[subject] - {q} != {}
  {
    var subs := After(h)[topic].subjects[subject];
    forall p
      ensures p in subs <==> Wants(h, p, topic, subject)
    {
      IndexMatchesHistory(h, p, topic, subject);
    }
    if subs - {q} != {} {
      var p :| p in subs - {q};
      assert Wants(h, p, topic, subject);
    }
  }

  /** The index knows exactly those topics and subjects. */
  lemma {:induction false} ExistenceMatchesHistory(h: seq<Event>, topic: string, subject: string)
    ensures topic in After(h) <==> HasTopic(h, topic)
    ensures Known(After(h), topic, subject) <==> HasSubject(h, topic, subject)
    decreases |h|
  {
    if h != [] {
      var before, e := h[..|h| - 1], h[|h| - 1];
      ExistenceMatchesHistory(before, topic, subject);
      if e.Unsubscribed? {
        IndexMatchesHistory(before, e.peer, topic, subject);
        if Known(After(before), topic, subject) {
          OthersAreListed(before, e.peer, topic, subject);
        }
      }
    }
  }

  /** What a client is told when it unsubscribes. */
  lemma UnsubAnswers(h: seq<Event>, p: PeerID, topic: string, subject: string)
    ensures Unsub(After(h), p, topic, subject).1 ==
      if !Joined(h, p, topic) then UnknownTopic
      else if subject != "" && !HasSubject(h, topic, subject) then UnknownSubject
      else Ok
  {
    IndexMatchesHistory(h, p, topic, subject);
    ExistenceMatchesHistory(h, topic, subject);
  }

  /** After a disconnect the peer is in no set of the index at all. */
  lemma DisconnectLeavesNoTrace(h: seq<Event>, p: PeerID, topic: string, subject: string)
    ensures !InSubject(After(h + [Disconnected(p)]), p, topic, subject)
    ensures !InTopic(After(h + [Disconnected(p)]), p, topic)
  {
    var h' := h + [Disconnected(p)];
    assert h'[..|h' | - 1] == h && h'[|h'| - 1] == Disconnected(p);
    IndexMatchesHistory(h', p, topic, subject);
  }

  /** A broadcast to a whole topic reaches whoever a broadcast to any of its
      subjects would reach. */
  lemma TopicReachesSubjects(h: seq<Event>, topic: string, subject: string)
    ensures Targets(After(h), topic, subject) <= Targets(After(h), topic, "")
  {
    forall p | p in Targets(After(h), topic, subject)
      ensures p in Targets(After(h), topic, "")
    {
      if subject != "" {
        assert InSubject(After(h), p, topic, subject);
        IndexMatchesHistory(h, p, topic, subject);
      }
    }
  }

  /** Unsubscribing from a whole topic ends every subject, but the peer stays a
      target of broadcasts to the topic exactly as before. */
  lemma UnsubscribingKeepsTopicBroadcasts(h: seq<Event>, p: PeerID, topic: string, subject: string)
    ensures var h' := h + [Unsubscribed(p, topic, "")];
      && !InSubject(After(h'), p, topic, subject)
      && (p in Targets(After(h'), topic, "") <==> p in Targets(After(h), topic, ""))
  {
    var h' := h + [Unsubscribed(p, topic, "")];
    assert h'[..|h'| - 1] == h && h'[|h'| - 1] == Unsubscribed(p, topic, "");
    IndexMatchesHistory(h', p, topic, subject);
    IndexMatchesHistory(h, p, topic, subject);
    assert InTopic(After(h'), p, topic) <==> InTopic(After(h), p, topic);
  }

  /** Topics are never forgotten: the branch that deletes a topic without
      subscribers cannot be taken, since the unsubscribing peer is one. */
  lemma TopicsAreNeverForgotten(h: seq<Event>, e: Event)
    ensures After(h).Keys <= After(h + [e]).Keys
  {
    assert (h + [e])[..|h|] == h && (h + [e])[|h|] == e;
  }
}
