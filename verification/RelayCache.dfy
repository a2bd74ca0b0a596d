/** A mesh node hands a broadcast to its local subscribers at most once, though
    it may arrive many times and though the cache of seen messages forgets.
    Times are nanoseconds. */
module RelayCache {
  import opened Basics

  const SECOND: int := 1_000_000_000
  const EPOCH_LENGTH: int := 15 * SECOND
  const MINUTE: int := 60 * SECOND

  datatype Route = FromClient | FromNode

  datatype MessageType = Ordinary | UnsubTopic | UnsubSubject

  datatype Broadcast = Broadcast(
    topic: string,
    subject: string,
    peer: nat,
    kind: MessageType,
    stamp: int,
    payload: string)

  /** A topic, and a subject of it or all of them. */
  datatype Unsub = Unsub(peer: nat, topic: string, subject: string)

  /** A message as its digest sees it: type and route, request id and payload.
      The digest is taken to be injective, so a message stands for its digest.
      A payload that does not parse has no broadcast. */
  datatype Message = Message(route: Route, id: nat, bcast: Option<Broadcast>)

  /** Neither older nor further ahead than one epoch. */
  predicate Fresh(stamp: int, now: int) {
    !(now - stamp > EPOCH_LENGTH || stamp - now > EPOCH_LENGTH)
  }

  /** What a handler checks once the message has passed the cache. A local
      client may only broadcast in its own name. */
  predicate Acceptable(m: Message, sender: nat, now: int) {
    && m.bcast.Some? && m.bcast.value.topic != ""
    && (m.route == FromClient ==> m.bcast.value.peer == sender)
    && Fresh(m.bcast.value.stamp, now)
  }

  // ---------- the cache ----------

  class RelayNode {
    var recentRelays: map<Message, int>

    constructor ()
      ensures recentRelays == map[]
    {
      recentRelays := map[];
    }

    /** Has the message been seen? If not, remember it. */
    method SkipRelay(m: Message, now: int) returns (skip: bool)
      modifies this
      ensures skip <==> m in old(recentRelays)
      ensures skip ==> recentRelays == old(recentRelays)
      ensures !skip ==> recentRelays == old(recentRelays)[m := now]
      ensures recentRelays == Remember(old(recentRelays), m, now)
    {
      skip := m in recentRelays;
      if !skip {
        recentRelays := recentRelays[m := now];
      }
    }

    /** The cleanup ticker: forget what is older than a minute. */
    method CleanRelays(now: int)
      modifies this
      ensures recentRelays == Forget(old(recentRelays), now)
    {
      var all := recentRelays;
      var todo := all.Keys;
      while todo != {}
        invariant todo <= all.Keys
        invariant recentRelays == map m | m in all && (m in todo || now - all[m] <= MINUTE) :: all[m]
        decreases todo
      {
        var m :| m in todo;
        if now - recentRelays[m] > MINUTE {
          recentRelays := recentRelays - {m};
        }
        todo := todo - {m};
      }
    }

    /** A broadcast from a client or a relaying node, handled in one go. Returns
        the broadcast to distribute to local subscribers, if any, whether other
        nodes get it first, and the subscription it ends. Distribution may turn
        out to have been to an unknown topic or subject: then none is ended. */
    method HandleBroadcast(m: Message, sender: nat, now: int, delivered: bool)
      returns (distribute: Option<Broadcast>, relayed: bool, unsub: Option<Unsub>)
      modifies this
      ensures recentRelays == Remember(old(recentRelays), m, now)
      ensures distribute.Some? <==> m !in old(recentRelays) && Acceptable(m, sender, now)
      ensures distribute.Some? ==> distribute == m.bcast
      ensures relayed <==> distribute.Some? && m.route == FromClient
      ensures unsub == if relayed && delivered then EndedBy(distribute.value) else None
    {
      distribute, relayed, unsub := None, false, None;
      var skip := SkipRelay(m, now);
      if skip {
        return;
      }
      if m.bcast.None? || m.bcast.value.topic == "" {
        return;
      }
      var bcast := m.bcast.value;
      if m.route == FromClient && bcast.peer != sender {
        return;
      }
      if now - bcast.stamp > EPOCH_LENGTH || bcast.stamp - now > EPOCH_LENGTH {
        return;
      }
      relayed := m.route == FromClient;
      distribute := m.bcast;
      if !relayed || !delivered {
        return;
      }
      if bcast.kind == UnsubTopic {
        unsub := Some(Unsub(sender, bcast.topic, ""));
      } else if bcast.kind == UnsubSubject {
        unsub := Some(Unsub(sender, bcast.topic, bcast.subject));
      }
    }
  }

  function EndedBy(bcast: Broadcast): Option<Unsub> {
    match bcast.kind
    case Ordinary => None
    case UnsubTopic => Some(Unsub(bcast.peer, bcast.topic, ""))
    case UnsubSubject => Some(Unsub(bcast.peer, bcast.topic, bcast.subject))
  }

  function Remember(recent: map<Message, int>, m: Message, now: int): map<Message, int> {
    if m in recent then recent else recent[m := now]
  }

  function Forget(recent: map<Message, int>, now: int): map<Message, int> {
    map m | m in recent && now - recent[m] <= MINUTE :: recent[m]
  }

  // ---------- runs ----------

  /** Handlers run concurrently: a message that passes the cache is in hand
      until its handler checks it and distributes or drops it. */
  datatype Fate = InHand | Distributed(at: int) | Dropped(at: int)

  datatype Record = Record(msg: Message, sender: nat, admitted: int, fate: Fate)

  /** The cache, the clock, and every message that ever passed the cache. */
  datatype State = State(recent: map<Message, int>, now: int, log: seq<Record>)

  datatype Event =
    | Wait(until: int)
    | Arrive(msg: Message, sender: nat)
    | Finish(record: nat)
    | Clean

  const Start := State(map[], 0, [])

  function Next(s: State, e: Event): State {
    match e
    case Wait(t) => s.(now := t)
    case Arrive(m, sender) =>
      if m in s.recent then s
      else State(Remember(s.recent, m, s.now), s.now, s.log + [Record(m, sender, s.now, InHand)])
    case Finish(i) =>
      if i >= |s.log| then s
      else
        var r := s.log[i];
        var fate := if Acceptable(r.msg, r.sender, s.now) then Distributed(s.now) else Dropped(s.now);
        s.(log := s.log[i := r.(fate := fate)])
    case Clean => s.(recent := Forget(s.recent, s.now))
  }

  /** The clock does not run backwards, and a handler finishes once, no more
      than `latency` after its message passed the cache. */
  predicate Enabled(s: State, e: Event, latency: int) {
    match e
    case Wait(t) => t >= s.now
    case Finish(i) => i < |s.log| && s.log[i].fate.InHand? && s.now <= s.log[i].admitted + latency
    case _ => true
  }

  function Run(s: State, es: seq<Event>): State
    decreases |es|
  {
    if es == [] then s else Run(Next(s, es[0]), es[1..])
  }

  predicate EnabledRun(s: State, es: seq<Event>, latency: int)
    decreases |es|
  {
    es == [] || (Enabled(s, es[0], latency) && EnabledRun(Next(s, es[0]), es[1..], latency))
  }

  // ---------- at most once ----------

  /** A record is covered while the cache still knows its message, and is older
      than a minute once it does not. */
  predicate Covered(s: State, r: Record) {
    (r.msg in s.recent && s.recent[r.msg] >= r.admitted) || s.now > r.admitted + MINUTE
  }

  predicate Sound(s: State, r: Record, latency: int) {
    && r.admitted <= s.now
    && Covered(s, r)
    && (r.fate.Distributed? ==>
          && r.msg.bcast.Some? && Fresh(r.msg.bcast.value.stamp, r.fate.at)
          && r.admitted <= r.fate.at <= r.admitted + latency)
  }

  /** Two passes of the cache by one message are more than a minute apart. */
  predicate Apart(r: Record, later: Record) {
    r.msg == later.msg ==> later.admitted > r.admitted + MINUTE
  }

  ghost predicate Inv(s: State, latency: int) {
    && (forall i :: 0 <= i < |s.log| ==> Sound(s, s.log[i], latency))
    && (forall i, j :: 0 <= i < j < |s.log| ==> Apart(s.log[i], s.log[j]))
  }

  lemma StepKeepsInv(s: State, e: Event, latency: int)
    requires Inv(s, latency) && Enabled(s, e, latency)
    ensures Inv(Next(s, e), latency)
  {
    var t := Next(s, e);
    forall i | 0 <= i < |t.log|
      ensures Sound(t, t.log[i], latency)
    {
      if i < |s.log| {
        assert Sound(s, s.log[i], latency);
      }
    }
    forall i, j | 0 <= i < j < |t.log|
      ensures Apart(t.log[i], t.log[j])
    {
      if j < |s.log| {
        assert Apart(s.log[i], s.log[j]);
      } else {
        assert Sound(s, s.log[i], latency);
      }
    }
  }

  lemma {:induction false} RunKeepsInv(s: State, es: seq<Event>, latency: int)
    requires Inv(s, latency) && EnabledRun(s, es, latency)
    ensures Inv(Run(s, es), latency)
    decreases |es|
  {
    if es != [] {
      StepKeepsInv(s, es[0], latency);
      RunKeepsInv(Next(s, es[0]), es[1..], latency);
    }
  }

  /** No message is distributed twice. */
  ghost predicate DistributedOnce(s: State) {
    forall i, j :: 0 <= i < j < |s.log| && s.log[i].fate.Distributed? && s.log[j].fate.Distributed? ==>
      s.log[i].msg != s.log[j].msg
  }

  lemma InvMeansOnce(s: State, latency: int)
    requires Inv(s, latency) && latency <= 2 * EPOCH_LENGTH
    ensures DistributedOnce(s)
  {
    forall i, j | 0 <= i < j < |s.log| && s.log[i].fate.Distributed? && s.log[j].fate.Distributed?
      ensures s.log[i].msg != s.log[j].msg
    {
      assert Sound(s, s.log[i], latency) && Sound(s, s.log[j], latency);
      assert Apart(s.log[i], s.log[j]);
    }
  }

  /** Every run distributes every message at most once. */
  ghost predicate AlwaysOnce(latency: int) {
    forall es :: EnabledRun(Start, es, latency) ==> DistributedOnce(Run(Start, es))
  }

  // ---------- what is distributed, and what is skipped ----------

  /** A broadcast worth distributing: it parses and names a topic, a local client
      speaks for itself, and the stamp is within 15 seconds of the clock. */
  predicate Deserves(m: Message, sender: nat, at: int) {
    match m.bcast
    case None => false
    case Some(b) =>
      && b.topic != "" && (m.route == FromClient ==> b.peer == sender)
      && b.stamp - 15_000_000_000 <= at <= b.stamp + 15_000_000_000
  }

  /** A handler distributed its message if it deserved it then, and dropped it if not. */
  predicate Judged(r: Record) {
    match r.fate
    case InHand => true
    case Distributed(at) => Deserves(r.msg, r.sender, at)
    case Dropped(at) => !Deserves(r.msg, r.sender, at)
  }

  /** Some handler was given the message when the cache says so. */
  predicate HasRecord(s: State, m: Message)
    requires m in s.recent
  {
    exists i :: 0 <= i < |s.log| && s.log[i].msg == m && s.log[i].admitted == s.recent[m]
  }

  ghost predicate Fair(s: State) {
    && (forall i :: 0 <= i < |s.log| ==> Judged(s.log[i]))
    && (forall m :: m in s.recent ==> HasRecord(s, m))
  }

  lemma StepKeepsFair(s: State, e: Event, latency: int)
    requires Fair(s) && Enabled(s, e, latency)
    ensures Fair(Next(s, e))
  {
    var t := Next(s, e);
    forall m | m in t.recent
      ensures HasRecord(t, m)
    {
      if m in s.recent {
        assert HasRecord(s, m);
        var i :| 0 <= i < |s.log| && s.log[i].msg == m && s.log[i].admitted == s.recent[m];
        assert t.log[i].msg == m && t.log[i].admitted == t.recent[m];
      } else {
        assert t.log[|s.log|].msg == m;
      }
    }
  }

  /** In every run exactly the messages that deserve it when their handler gets
      to them are distributed, and what the cache remembers, and so skips, was
      given to a handler. */
  lemma {:induction false} RunIsFair(s: State, es: seq<Event>, latency: int)
    requires Fair(s) && EnabledRun(s, es, latency)
    ensures Fair(Run(s, es))
    decreases |es|
  {
    if es != [] {
      StepKeepsFair(s, es[0], latency);
      RunIsFair(Next(s, es[0]), es[1..], latency);
    }
  }

  /** A stamp from the future, the last that is still fresh just after the
      first handler may finish and the first that is fresh when the cache has
      forgotten the message. */
  const LATE: Message := Message(FromNode, 0, Some(Broadcast("topic", "", 0, Ordinary, 3 * EPOCH_LENGTH + 1, "")))

  /** The first handler is slow, the cache forgets the message, and it arrives again. */
  const SLOW_RUN: seq<Event> :=
    [Arrive(LATE, 0), Wait(2 * EPOCH_LENGTH + 1), Finish(0), Wait(MINUTE + 1), Clean, Arrive(LATE, 0), Finish(1)]

  lemma OneStep(s: State, e: Event, rest: seq<Event>, latency: int)
    ensures Run(s, [e] + rest) == Run(Next(s, e), rest)
    ensures EnabledRun(s, [e] + rest, latency) <==> Enabled(s, e, latency) && EnabledRun(Next(s, e), rest, latency)
  {
    assert ([e] + rest)[1..] == rest;
  }

  lemma SlowHandlerDistributesTwice(latency: int)
    requires latency > 2 * EPOCH_LENGTH
    ensures EnabledRun(Start, SLOW_RUN, latency) && !DistributedOnce(Run(Start, SLOW_RUN))
  {
    var once := Record(LATE, 0, 0, Distributed(2 * EPOCH_LENGTH + 1));
    var s1 := State(map[LATE := 0], 0, [Record(LATE, 0, 0, InHand)]);
    var s3 := State(map[LATE := 0], 2 * EPOCH_LENGTH + 1, [once]);
    var s5 := State(map[], MINUTE + 1, [once]);
    var s6 := State(map[LATE := MINUTE + 1], MINUTE + 1, [once, Record(LATE, 0, MINUTE + 1, InHand)]);
    assert SLOW_RUN == [SLOW_RUN[0]] + SLOW_RUN[1..];
    OneStep(Start, SLOW_RUN[0], SLOW_RUN[1..], latency);
    assert Next(Start, SLOW_RUN[0]) == s1;
    assert SLOW_RUN[1..] == [SLOW_RUN[1]] + ([SLOW_RUN[2]] + SLOW_RUN[3..]);
    OneStep(s1, SLOW_RUN[1], [SLOW_RUN[2]] + SLOW_RUN[3..], latency);
    OneStep(s1.(now := 2 * EPOCH_LENGTH + 1), SLOW_RUN[2], SLOW_RUN[3..], latency);
    assert Next(s1.(now := 2 * EPOCH_LENGTH + 1), SLOW_RUN[2]) == s3;
    SlowRunEnds(s3, s5, s6, once, latency);
  }

  lemma SlowRunEnds(s3: State, s5: State, s6: State, once: Record, latency: int)
    requires latency >= 0
    requires once == Record(LATE, 0, 0, Distributed(2 * EPOCH_LENGTH + 1))
    requires s3 == State(map[LATE := 0], 2 * EPOCH_LENGTH + 1, [once])
    requires s5 == State(map[], MINUTE + 1, [once])
    requires s6 == State(map[LATE := MINUTE + 1], MINUTE + 1, [once, Record(LATE, 0, MINUTE + 1, InHand)])
    ensures EnabledRun(s3, SLOW_RUN[3..], latency) && !DistributedOnce(Run(s3, SLOW_RUN[3..]))
  {
    assert SLOW_RUN[3..] == [SLOW_RUN[3]] + ([SLOW_RUN[4]] + ([SLOW_RUN[5]] + ([SLOW_RUN[6]] + [])));
    OneStep(s3, SLOW_RUN[3], [SLOW_RUN[4]] + ([SLOW_RUN[5]] + ([SLOW_RUN[6]] + [])), latency);
    OneStep(s3.(now := MINUTE + 1), SLOW_RUN[4], [SLOW_RUN[5]] + ([SLOW_RUN[6]] + []), latency);
    assert Next(s3.(now := MINUTE + 1), SLOW_RUN[4]) == s5;
    OneStep(s5, SLOW_RUN[5], [SLOW_RUN[6]] + [], latency);
    assert Next(s5, SLOW_RUN[5]) == s6;
    OneStep(s6, SLOW_RUN[6], [], latency);
    var s7 := Next(s6, SLOW_RUN[6]);
    assert s7.log == [once, Record(LATE, 0, MINUTE + 1, Distributed(MINUTE + 1))];
    assert s7.log[0].msg == s7.log[1].msg;
  }

  /** In every run, whatever arrives from wherever and however handlers,
      cleanup and clock interleave, each message is distributed at most once,
      if and only if no handler takes longer than two epochs between passing
      the cache and checking the stamp. */
  lemma AtMostOnceExactly(latency: int)
    ensures AlwaysOnce(latency) <==> latency <= 2 * EPOCH_LENGTH
  {
    if latency <= 2 * EPOCH_LENGTH {
      forall es | EnabledRun(Start, es, latency)
        ensures DistributedOnce(Run(Start, es))
      {
        RunKeepsInv(Start, es, latency);
        InvMeansOnce(Run(Start, es), latency);
      }
    } else {
      SlowHandlerDistributesTwice(latency);
    }
  }
}
