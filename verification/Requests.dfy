/** Requests over one websocket connection. A response, the expiry timer, a
    failed send and the shutdown of the connection race for one entry of the
    handler map. Each event is what happens under one hold of the map's lock,
    or between two of them. */
module Requests {
  import opened Basics

  /** An expiry timer. Once fired, its function waits for the lock; stopping it
      then has no effect. */
  datatype Timer = Armed | Fired | Done | Stopped

  /** How far the sender has come. After an error it still has to drop the handler. */
  datatype Send = Sending | SentOk | SendErr | GaveUp

  /** One request: its id, its timer, its sender, and its two callbacks, each
      with how often it is about to run and how often it has run. */
  datatype Request = Request(
    id: nat,
    timer: Timer,
    send: Send,
    dropped: bool,
    respDue: nat,
    respRan: nat,
    expDue: nat,
    expRan: nat)

  /** The handler map refers to requests by their number. */
  datatype State = State(handlers: map<nat, nat>, requests: seq<Request>)

  datatype Event =
    | Register(id: nat)
    | SendSucceeds(r: nat)
    | SendFails(r: nat)
    | DropAfterFailure(r: nat)
    | Response(id: nat)
    | TimerFires(r: nat)
    | TimerExpires(r: nat)
    | RunResponse(r: nat)
    | RunExpire(r: nat)
    | Drain

  function Stop(t: Timer): Timer {
    if t == Armed then Stopped else t
  }

  /** Callbacks started: running, run, or certain to run. */
  function Started(q: Request): nat {
    q.respDue + q.respRan + q.expDue + q.expRan
  }

  predicate Registered(s: State, r: nat) {
    r < |s.requests| && s.requests[r].id in s.handlers && s.handlers[s.requests[r].id] == r
  }

  // ---------- the events on values ----------

  function LogReq(s: State, id: nat): State {
    State(s.handlers[id := |s.requests|], s.requests + [Request(id, Armed, Sending, false, 0, 0, 0, 0)])
  }

  /** Take the handler for an id out of the map and stop its timer. */
  function TakeHandler(s: State, id: nat): State {
    if id !in s.handlers || s.handlers[id] >= |s.requests| then s
    else
      var r := s.handlers[id];
      State(s.handlers - {id}, s.requests[r := s.requests[r].(timer := Stop(s.requests[r].timer))])
  }

  function Drained(q: Request): Request {
    q.(timer := Stop(q.timer), expRan := q.expRan + 1)
  }

  /** Shutdown: every handler left in the map is taken out and its expire callback run. */
  function DrainAll(s: State): State {
    State(map[], seq(|s.requests|, r requires 0 <= r < |s.requests| =>
      if Registered(s, r) then Drained(s.requests[r]) else s.requests[r]))
  }

  function Next(s: State, e: Event): State
    requires Enabled(s, e)
  {
    var qs := s.requests;
    match e
    case Register(id) => LogReq(s, id)
    case SendSucceeds(r) => s.(requests := qs[r := qs[r].(send := SentOk)])
    case SendFails(r) => s.(requests := qs[r := qs[r].(send := SendErr)])
    case DropAfterFailure(r) =>
      var id := qs[r].id;
      var s' := TakeHandler(s, id);
      var gone := s'.requests[r := s'.requests[r].(send := GaveUp)];
      if id in s.handlers then s'.(requests := gone[s.handlers[id] := gone[s.handlers[id]].(dropped := true)])
      else s'.(requests := gone)
    case Response(id) =>
      var s' := TakeHandler(s, id);
      if id in s.handlers then
        var h := s.handlers[id];
        s'.(requests := s'.requests[h := s'.requests[h].(respDue := s'.requests[h].respDue + 1)])
      else s'
    case TimerFires(r) => s.(requests := qs[r := qs[r].(timer := Fired)])
    case TimerExpires(r) =>
      State(s.handlers - {qs[r].id},
            qs[r := qs[r].(timer := Done, expDue := qs[r].expDue + if qs[r].id in s.handlers then 1 else 0)])
    case RunResponse(r) => s.(requests := qs[r := qs[r].(respDue := qs[r].respDue - 1, respRan := qs[r].respRan + 1)])
    case RunExpire(r) => s.(requests := qs[r := qs[r].(expDue := qs[r].expDue - 1, expRan := qs[r].expRan + 1)])
    case Drain => DrainAll(s)
  }

  /** When an event can happen at all. */
  predicate Enabled(s: State, e: Event) {
    && (forall id :: id in s.handlers ==> s.handlers[id] < |s.requests|)
    && match e
       case SendSucceeds(r) => r < |s.requests| && s.requests[r].send == Sending
       case SendFails(r) => r < |s.requests| && s.requests[r].send == Sending
       case DropAfterFailure(r) => r < |s.requests| && s.requests[r].send == SendErr
       case TimerFires(r) => r < |s.requests| && s.requests[r].timer == Armed
       case TimerExpires(r) => r < |s.requests| && s.requests[r].timer == Fired
       case RunResponse(r) => r < |s.requests| && s.requests[r].respDue > 0
       case RunExpire(r) => r < |s.requests| && s.requests[r].expDue > 0
       case _ => true
  }

  // ---------- the invariant ----------

  /** The request can no longer touch the map: its timer is dead and its sender done. */
  predicate Spent(q: Request) {
    q.timer in {Done, Stopped} && q.send in {SentOk, GaveUp}
  }

  /** No earlier request with the id can still touch the map. An id that was
      never used is quiet. */
  ghost predicate Quiet(s: State, id: nat) {
    id !in s.handlers && forall r :: 0 <= r < |s.requests| && s.requests[r].id == id ==> Spent(s.requests[r])
  }

  /** A registered request has an unfinished timer and nothing started; any
      other has a finished or waiting timer and exactly one outcome. */
  predicate OneOutcome(s: State, r: nat)
    requires r < |s.requests|
  {
    var q := s.requests[r];
    if Registered(s, r) then
      Started(q) == 0 && !q.dropped && q.timer in {Armed, Fired}
    else
      && q.timer != Armed
      && (q.dropped ==> Started(q) == 0 && q.send == GaveUp)
      && (!q.dropped ==> Started(q) == 1)
  }

  ghost predicate Inv(s: State) {
    && (forall id :: id in s.handlers ==> s.handlers[id] < |s.requests| && s.requests[s.handlers[id]].id == id)
    && (forall r :: 0 <= r < |s.requests| ==> OneOutcome(s, r))
    && (forall r, q :: 0 <= r < q < |s.requests| && s.requests[r].id == s.requests[q].id ==> Spent(s.requests[r]))
  }

  ghost predicate Allowed(s: State, e: Event) {
    Enabled(s, e) && (e.Register? ==> Quiet(s, e.id))
  }

  lemma LatestIsRegistered(s: State, r: nat)
    requires Inv(s) && r < |s.requests| && !Spent(s.requests[r])
    ensures s.requests[r].id in s.handlers ==> s.handlers[s.requests[r].id] == r
  {
    if s.requests[r].id in s.handlers {
      var h := s.handlers[s.requests[r].id];
      assert OneOutcome(s, h) && Registered(s, h);
      assert h < r ==> Spent(s.requests[h]);
    }
  }

  lemma StepKeepsOutcome(s: State, e: Event, r: nat)
    requires Inv(s) && Allowed(s, e) && r < |Next(s, e).requests|
    ensures OneOutcome(Next(s, e), r)
  {
    if r < |s.requests| {
      assert OneOutcome(s, r);
    }
    match e {
      case Register(id) =>
      case SendSucceeds(q) =>
      case SendFails(q) =>
      case DropAfterFailure(q) =>
        LatestIsRegistered(s, q);
      case Response(id) =>
      case TimerFires(q) =>
      case TimerExpires(q) =>
        LatestIsRegistered(s, q);
      case RunResponse(q) =>
      case RunExpire(q) =>
      case Drain =>
    }
  }

  lemma StepKeepsHandlers(s: State, e: Event)
    requires Inv(s) && Allowed(s, e)
    ensures var t := Next(s, e);
      forall id :: id in t.handlers ==> t.handlers[id] < |t.requests| && t.requests[t.handlers[id]].id == id
  {
  }

  lemma StepKeepsInv(s: State, e: Event)
    requires Inv(s) && Allowed(s, e)
    ensures Inv(Next(s, e))
  {
    var t := Next(s, e);
    StepKeepsHandlers(s, e);
    forall r | 0 <= r < |t.requests|
      ensures OneOutcome(t, r)
    {
      StepKeepsOutcome(s, e, r);
    }
    forall r, q | 0 <= r < q < |t.requests| && t.requests[r].id == t.requests[q].id
      ensures Spent(t.requests[r])
    {
      StepKeepsSpent(s, e, r, q);
    }
  }

  lemma StepKeepsSpent(s: State, e: Event, r: nat, q: nat)
    requires Inv(s) && Allowed(s, e)
    requires r < q < |Next(s, e).requests| && Next(s, e).requests[r].id == Next(s, e).requests[q].id
    ensures Spent(Next(s, e).requests[r])
  {
    assert Next(s, e).requests[r].id == s.requests[r].id;
    if q < |s.requests| {
      assert Next(s, e).requests[q].id == s.requests[q].id;
      assert Spent(s.requests[r]);
    }
  }

  // ---------- runs ----------

  ghost predicate AllowedRun(s: State, es: seq<Event>)
    decreases |es|
  {
    es == [] || (Allowed(s, es[0]) && AllowedRun(Next(s, es[0]), es[1..]))
  }

  ghost function Run(s: State, es: seq<Event>): State
    requires AllowedRun(s, es)
    decreases |es|
  {
    if es == [] then s else Run(Next(s, es[0]), es[1..])
  }

  const Start := State(map[], [])

  lemma {:induction false} RunKeepsInv(s: State, es: seq<Event>)
    requires Inv(s) && AllowedRun(s, es)
    ensures Inv(Run(s, es))
    decreases |es|
  {
    if es != [] {
      StepKeepsInv(s, es[0]);
      RunKeepsInv(Next(s, es[0]), es[1..]);
    }
  }

  /** The promise to one requester: never more than one callback; exactly one
      if the send succeeded and the request has left the map; none if the
      sender dropped it. */
  ghost predicate Promise(s: State, r: nat)
    requires r < |s.requests|
  {
    var q := s.requests[r];
    && Started(q) <= 1
    && (q.send == SentOk && !Registered(s, r) ==> Started(q) == 1)
    && (q.dropped ==> Started(q) == 0)
  }

  /** In every interleaving the promise is kept to every request. */
  lemma CallbacksRunOnce(es: seq<Event>, r: nat)
    requires AllowedRun(Start, es) && r < |Run(Start, es).requests|
    ensures Promise(Run(Start, es), r)
    ensures Run(Start, es).requests[r].timer in {Done, Stopped} ==> !Registered(Run(Start, es), r)
  {
    RunKeepsInv(Start, es);
    assert OneOutcome(Run(Start, es), r);
  }

  // ---------- which callback, and why ----------

  /** Response callbacks started. */
  function Answers(q: Request): nat {
    q.respDue + q.respRan
  }

  /** Expire callbacks started. */
  function Expiries(q: Request): nat {
    q.expDue + q.expRan
  }

  /** The event is a response to the request, and finds it registered. */
  predicate IsAnswered(s: State, e: Event, r: nat) {
    Registered(s, r) && e == Response(s.requests[r].id)
  }

  /** The event is the request's own timer, or the drain, and finds it registered. */
  predicate IsExpired(s: State, e: Event, r: nat) {
    Registered(s, r) && (e == TimerExpires(r) || e == Drain)
  }

  ghost predicate Counted(s: State, e: Event, r: nat)
    requires Enabled(s, e) && r < |s.requests|
  {
    var t := Next(s, e);
    && r < |t.requests| && t.requests[r].id == s.requests[r].id
    && Answers(t.requests[r]) == Answers(s.requests[r]) + (if IsAnswered(s, e, r) then 1 else 0)
    && Expiries(t.requests[r]) == Expiries(s.requests[r]) + (if IsExpired(s, e, r) then 1 else 0)
  }

  lemma TakingCounts(s: State, e: Event, r: nat)
    requires Inv(s) && Enabled(s, e) && r < |s.requests|
    requires e.DropAfterFailure? || e.Response? || e.TimerExpires? || e.Drain?
    ensures Counted(s, e, r)
  {
    if e.TimerExpires? {
      LatestIsRegistered(s, e.r);
    }
  }

  lemma OthersCount(s: State, e: Event, r: nat)
    requires Inv(s) && Enabled(s, e) && r < |s.requests|
    requires !(e.DropAfterFailure? || e.Response? || e.TimerExpires? || e.Drain?)
    ensures Counted(s, e, r)
  {
  }

  /** What each event does to a request's callbacks: only an answer starts the
      response callback, only an expiry the expire callback. */
  lemma StepCounts(s: State, e: Event, r: nat)
    requires Inv(s) && Allowed(s, e) && r < |s.requests|
    ensures Counted(s, e, r)
  {
    if e.DropAfterFailure? || e.Response? || e.TimerExpires? || e.Drain? {
      TakingCounts(s, e, r);
    } else {
      OthersCount(s, e, r);
    }
  }

  /** Callbacks run only when they are run; the drain runs its own. */
  lemma StepRuns(s: State, e: Event, r: nat)
    requires Allowed(s, e) && r < |s.requests| && e != Drain
    ensures r < |Next(s, e).requests|
    ensures Next(s, e).requests[r].respRan == s.requests[r].respRan + if e == RunResponse(r) then 1 else 0
    ensures Next(s, e).requests[r].expRan == s.requests[r].expRan + if e == RunExpire(r) then 1 else 0
  {
  }

  /** Some event of the run answers the request. */
  ghost predicate AnsweredIn(s: State, es: seq<Event>, r: nat)
    requires AllowedRun(s, es)
    decreases |es|
  {
    es != [] && (IsAnswered(s, es[0], r) || AnsweredIn(Next(s, es[0]), es[1..], r))
  }

  /** Some event of the run expires the request. */
  ghost predicate ExpiredIn(s: State, es: seq<Event>, r: nat)
    requires AllowedRun(s, es)
    decreases |es|
  {
    es != [] && (IsExpired(s, es[0], r) || ExpiredIn(Next(s, es[0]), es[1..], r))
  }

  lemma {:induction false} OutcomeComesFromEvents(s: State, es: seq<Event>, r: nat)
    requires Inv(s) && AllowedRun(s, es) && r < |s.requests|
    ensures r < |Run(s, es).requests|
    ensures Answers(Run(s, es).requests[r]) >= 1 <==> Answers(s.requests[r]) >= 1 || AnsweredIn(s, es, r)
    ensures Expiries(Run(s, es).requests[r]) >= 1 <==> Expiries(s.requests[r]) >= 1 || ExpiredIn(s, es, r)
    decreases |es|
  {
    if es != [] {
      StepCounts(s, es[0], r);
      StepKeepsInv(s, es[0]);
      OutcomeComesFromEvents(Next(s, es[0]), es[1..], r);
    }
  }

  /** A request that does not exist yet is neither answered nor expired, and
      starts with nothing. */
  lemma BornWithNothing(s: State, e: Event, r: nat)
    requires Inv(s) && Allowed(s, e) && |s.requests| <= r < |Next(s, e).requests|
    ensures Started(Next(s, e).requests[r]) == 0 && !IsAnswered(s, e, r) && !IsExpired(s, e, r)
  {
  }

  lemma {:induction false} BornInRun(s: State, es: seq<Event>, r: nat)
    requires Inv(s) && AllowedRun(s, es) && |s.requests| <= r < |Run(s, es).requests|
    ensures Answers(Run(s, es).requests[r]) >= 1 <==> AnsweredIn(s, es, r)
    ensures Expiries(Run(s, es).requests[r]) >= 1 <==> ExpiredIn(s, es, r)
    decreases |es|
  {
    var t := Next(s, es[0]);
    StepKeepsInv(s, es[0]);
    if r < |t.requests| {
      BornWithNothing(s, es[0], r);
      OutcomeComesFromEvents(t, es[1..], r);
    } else {
      BornInRun(t, es[1..], r);
    }
  }

  /** In every run the response callback is started, once, if and only if a
      response came while the request was registered, and the expire callback,
      once, if and only if its own timer or the drain did. */
  lemma CallbacksMatchEvents(es: seq<Event>, r: nat)
    requires AllowedRun(Start, es) && r < |Run(Start, es).requests|
    ensures Answers(Run(Start, es).requests[r]) == if AnsweredIn(Start, es, r) then 1 else 0
    ensures Expiries(Run(Start, es).requests[r]) == if ExpiredIn(Start, es, r) then 1 else 0
  {
    BornInRun(Start, es, r);
    CallbacksRunOnce(es, r);
  }

  /** Once the timer's function has run, or right after the drain, a request
      that was sent has had exactly one callback started. */
  lemma TimerOrDrainSettles(es: seq<Event>, last: Event, r: nat)
    requires AllowedRun(Start, es) && r < |Run(Start, es).requests|
    requires last == TimerExpires(r) || last == Drain
    requires Allowed(Run(Start, es), last)
    requires Run(Start, es).requests[r].send == SentOk
    ensures Started(Next(Run(Start, es), last).requests[r]) == 1
  {
    var s := Run(Start, es);
    RunKeepsInv(Start, es);
    StepKeepsOutcome(s, last, r);
    assert OneOutcome(s, r);
  }

  /** If the failed-send path finds the handler still registered, neither
      callback ever runs, whatever happens later. */
  lemma {:induction false} DroppedStaysSilent(s: State, es: seq<Event>, r: nat)
    requires Inv(s) && AllowedRun(s, es)
    requires r < |s.requests| && s.requests[r].dropped
    ensures r < |Run(s, es).requests| && Started(Run(s, es).requests[r]) == 0
    decreases |es|
  {
    assert OneOutcome(s, r);
    if es != [] {
      StepKeepsInv(s, es[0]);
      StepKeepsDropped(s, es[0], r);
      DroppedStaysSilent(Next(s, es[0]), es[1..], r);
    }
  }

  lemma StepKeepsDropped(s: State, e: Event, r: nat)
    requires Inv(s) && Allowed(s, e) && r < |s.requests| && s.requests[r].dropped
    ensures r < |Next(s, e).requests| && Next(s, e).requests[r].dropped
  {
  }

  /** A send error does not by itself mean that neither callback runs: a
      response, the timer or the drain may get to the handler first. Neither
      runs if and only if the request is still registered when its sender
      takes the handler back; then it is dropped for good. */
  lemma ErrorIsSilentExactlyWhenRegistered(s: State, r: nat)
    requires Inv(s) && Enabled(s, DropAfterFailure(r))
    ensures Next(s, DropAfterFailure(r)).requests[r].dropped <==> Registered(s, r)
    ensures Started(Next(s, DropAfterFailure(r)).requests[r]) == 0 <==> Registered(s, r)
  {
    LatestIsRegistered(s, r);
    assert OneOutcome(s, r);
  }

  /** The documented promise fails: the response comes first, then the send
      reports an error, and the response callback is still going to run. */
  const ANSWERED_THEN_FAILED: seq<Event> := [Register(7), Response(7), SendFails(0), DropAfterFailure(0)]

  lemma ErrorNeedNotBeSilent()
    ensures AllowedRun(Start, ANSWERED_THEN_FAILED)
    ensures var s := Run(Start, ANSWERED_THEN_FAILED);
      |s.requests| == 1 && s.requests[0].send == GaveUp && s.requests[0].respDue == 1
  {
    var q := Request(7, Armed, Sending, false, 0, 0, 0, 0);
    var s1 := Next(Start, Register(7));
    assert s1 == State(map[7 := 0], [q]);
    var s2 := Next(s1, Response(7));
    assert s2 == State(map[], [q.(timer := Stopped, respDue := 1)]);
    var s3 := Next(s2, SendFails(0));
    assert s3 == State(map[], [q.(timer := Stopped, respDue := 1, send := SendErr)]);
    var s4 := Next(s3, DropAfterFailure(0));
    assert s4 == State(map[], [q.(timer := Stopped, respDue := 1, send := GaveUp)]);
    var es := ANSWERED_THEN_FAILED;
    assert es[1..] == [Response(7), SendFails(0), DropAfterFailure(0)];
    assert es[1..][1..] == [SendFails(0), DropAfterFailure(0)];
    assert es[1..][1..][1..] == [DropAfterFailure(0)];
    assert es[1..][1..][1..][1..] == [];
    assert AllowedRun(s3, [DropAfterFailure(0)]) && Run(s3, [DropAfterFailure(0)]) == s4;
    assert AllowedRun(s2, es[1..][1..]) && Run(s2, es[1..][1..]) == s4;
    assert AllowedRun(s1, es[1..]) && Run(s1, es[1..]) == s4;
  }

  // ---------- reusing an id ----------

  /** Runs from a state in which nothing more is registered. */
  ghost predicate Continues(s: State, es: seq<Event>)
    decreases |es|
  {
    es == [] || (!es[0].Register? && Enabled(s, es[0]) && Continues(Next(s, es[0]), es[1..]))
  }

  ghost function RunOn(s: State, es: seq<Event>): State
    requires Continues(s, es)
    decreases |es|
  {
    if es == [] then s else RunOn(Next(s, es[0]), es[1..])
  }

  ghost predicate AllPromises(s: State) {
    forall r :: 0 <= r < |s.requests| ==> Promise(s, r)
  }

  /** Whatever happens after registering the id, every promise is kept. */
  ghost predicate SafeToRegister(s: State, id: nat) {
    forall es :: Continues(LogReq(s, id), es) ==> AllPromises(RunOn(LogReq(s, id), es))
  }

  lemma {:induction false} ContinuingKeepsInv(s: State, es: seq<Event>)
    requires Inv(s) && Continues(s, es)
    ensures Inv(RunOn(s, es))
    decreases |es|
  {
    if es != [] {
      StepKeepsInv(s, es[0]);
      ContinuingKeepsInv(Next(s, es[0]), es[1..]);
    }
  }

  lemma InvKeepsPromises(s: State)
    requires Inv(s)
    ensures AllPromises(s)
  {
    forall r | 0 <= r < |s.requests|
      ensures Promise(s, r)
    {
      assert OneOutcome(s, r);
    }
  }

  /** An earlier request with the id can take the new handler out of the map:
      the new request is sent and yet neither of its callbacks ever runs. */
  lemma StolenHandler(s: State, id: nat) returns (es: seq<Event>)
    requires Inv(s) && !Quiet(s, id)
    ensures Continues(LogReq(s, id), es) && !AllPromises(RunOn(LogReq(s, id), es))
  {
    var o := Culprit(s, id);
    var n := |s.requests|;
    var s0 := LogReq(s, id);
    var thief: seq<Event>;
    if s.requests[o].timer == Armed {
      thief := [TimerFires(o), TimerExpires(o)];
    } else if s.requests[o].timer == Fired {
      thief := [TimerExpires(o)];
    } else if s.requests[o].send == Sending {
      thief := [SendFails(o), DropAfterFailure(o)];
    } else {
      thief := [DropAfterFailure(o)];
    }
    Steals(s0, o, n, thief);
    var s1 := RunOn(s0, thief);
    es := thief + [SendSucceeds(n)];
    Extend(s0, thief, SendSucceeds(n));
    var s2 := Next(s1, SendSucceeds(n));
    assert !Promise(s2, n);
  }

  lemma Culprit(s: State, id: nat) returns (o: nat)
    requires Inv(s) && !Quiet(s, id)
    ensures o < |s.requests| && s.requests[o].id == id && !Spent(s.requests[o])
  {
    if id in s.handlers {
      o := s.handlers[id];
      assert OneOutcome(s, o) && Registered(s, o);
    } else {
      o :| 0 <= o < |s.requests| && s.requests[o].id == id && !Spent(s.requests[o]);
    }
  }

  lemma Extend(s: State, es: seq<Event>, e: Event)
    requires Continues(s, es) && !e.Register? && Enabled(RunOn(s, es), e)
    ensures Continues(s, es + [e]) && RunOn(s, es + [e]) == Next(RunOn(s, es), e)
    decreases |es|
  {
    if es == [] {
      assert es + [e] == [e] && [e][1..] == [];
    } else {
      Extend(Next(s, es[0]), es[1..], e);
      assert (es + [e])[1..] == es[1..] + [e];
    }
  }

  /** One or two events of an earlier request that remove the newest one's handler. */
  lemma Steals(s: State, o: nat, n: nat, thief: seq<Event>)
    requires o < n && |s.requests| == n + 1
    requires forall id :: id in s.handlers ==> s.handlers[id] <= n
    requires s.requests[n] == Request(s.requests[o].id, Armed, Sending, false, 0, 0, 0, 0) && Registered(s, n)
    requires
      || (s.requests[o].timer == Armed && thief == [TimerFires(o), TimerExpires(o)])
      || (s.requests[o].timer == Fired && thief == [TimerExpires(o)])
      || (s.requests[o].send == Sending && thief == [SendFails(o), DropAfterFailure(o)])
      || (s.requests[o].send == SendErr && thief == [DropAfterFailure(o)])
    ensures Continues(s, thief)
    ensures var z := RunOn(s, thief);
      && |z.requests| == n + 1 && !Registered(z, n) && Enabled(z, SendSucceeds(n)) && Started(z.requests[n]) == 0
  {
    var t := Next(s, thief[0]);
    if |thief| == 2 {
      assert thief[1..] == [thief[1]] && [thief[1]][1..] == [];
      var u := Next(t, thief[1]);
      assert RunOn(t, thief[1..]) == u;
    } else {
      assert thief[1..] == [];
    }
  }

  /** Registering an id is safe if and only if no earlier request with it can
      still touch the map: neither its handler, nor its timer, nor its sender. */
  lemma SafeExactlyWhenQuiet(s: State, id: nat)
    requires Inv(s)
    ensures SafeToRegister(s, id) <==> Quiet(s, id)
  {
    if Quiet(s, id) {
      StepKeepsInv(s, Register(id));
      forall es | Continues(LogReq(s, id), es)
        ensures AllPromises(RunOn(LogReq(s, id), es))
      {
        ContinuingKeepsInv(LogReq(s, id), es);
        InvKeepsPromises(RunOn(LogReq(s, id), es));
      }
    } else {
      var es := StolenHandler(s, id);
    }
  }

  // ---------- the connection ----------

  class WsConn {
    var respHandlers: map<nat, nat>
    var requests: seq<Request>

    ghost function Value(): State
      reads this
    {
      State(respHandlers, requests)
    }

    constructor ()
      ensures Value() == Start
    {
      respHandlers, requests := map[], [];
    }

    /** Register a request: arm its timer and enter its handler in the map. */
    method LogRequest(id: nat)
      modifies this
      ensures Value() == LogReq(old(Value()), id)
    {
      respHandlers := respHandlers[id := |requests|];
      requests := requests + [Request(id, Armed, Sending, false, 0, 0, 0, 0)];
    }

    /** Take the handler for an id, if there is one, and stop its timer. */
    method RespHandler(id: nat) returns (cb: Option<nat>)
      requires Enabled(Value(), Response(id))
      modifies this
      ensures Value() == TakeHandler(old(Value()), id)
      ensures cb == if id in old(respHandlers) then Some(old(respHandlers)[id]) else None
    {
      cb := None;
      if id in respHandlers {
        var r := respHandlers[id];
        requests := requests[r := requests[r].(timer := Stop(requests[r].timer))];
        respHandlers := respHandlers - {id};
        cb := Some(r);
      }
    }

    /** Delete the handler for an id and say whether there was one. */
    method Expire(id: nat) returns (removed: bool)
      modifies this`respHandlers
      ensures removed <==> id in old(respHandlers)
      ensures respHandlers == old(respHandlers) - {id}
    {
      removed := id in respHandlers;
      respHandlers := respHandlers - {id};
    }

    /** The read loop got a response. */
    method HandleResponse(id: nat) returns (found: bool)
      requires Enabled(Value(), Response(id))
      modifies this
      ensures Value() == Next(old(Value()), Response(id))
      ensures found <==> id in old(respHandlers)
    {
      var handler := RespHandler(id);
      found := handler.Some?;
      if found {
        var h := handler.value;
        requests := requests[h := requests[h].(respDue := requests[h].respDue + 1)];
      }
    }

    /** The timer of a request got the lock. */
    method DoExpire(r: nat)
      requires Enabled(Value(), TimerExpires(r))
      modifies this
      ensures Value() == Next(old(Value()), TimerExpires(r))
    {
      var removed := Expire(requests[r].id);
      var due := if removed then requests[r].expDue + 1 else requests[r].expDue;
      requests := requests[r := requests[r].(timer := Done, expDue := due)];
    }

    /** Sending failed: take back the handler so that neither callback runs. */
    method TakeBack(r: nat)
      requires Enabled(Value(), DropAfterFailure(r))
      modifies this
      ensures Value() == Next(old(Value()), DropAfterFailure(r))
    {
      var cb := RespHandler(requests[r].id);
      requests := requests[r := requests[r].(send := GaveUp)];
      if cb.Some? {
        requests := requests[cb.value := requests[cb.value].(dropped := true)];
      }
    }

    /** Shutdown: run the expire callback of every handler left. */
    method Shutdown()
      requires Inv(Value())
      modifies this
      ensures Value() == Next(old(Value()), Drain)
    {
      ghost var s := Value();
      while respHandlers != map[]
        invariant Draining(s, respHandlers, requests)
        decreases respHandlers.Keys
      {
        var id :| id in respHandlers;
        DrainingStep(s, respHandlers, requests, id);
        var h := respHandlers[id];
        respHandlers := respHandlers - {id};
        requests := requests[h := Drained(requests[h])];
      }
      assert requests == DrainAll(s).requests;
    }
  }

  /** Midway through shutdown: the requests whose ids left the map are drained. */
  ghost predicate Draining(s: State, handlers: map<nat, nat>, requests: seq<Request>) {
    && |requests| == |s.requests|
    && (forall id :: id in handlers ==> id in s.handlers && handlers[id] == s.handlers[id])
    && (forall r :: 0 <= r < |requests| ==>
          requests[r] ==
            if Registered(s, r) && s.requests[r].id !in handlers then Drained(s.requests[r]) else s.requests[r])
  }

  lemma DrainingStep(s: State, handlers: map<nat, nat>, requests: seq<Request>, id: nat)
    requires Inv(s) && Draining(s, handlers, requests) && id in handlers
    ensures handlers[id] < |requests|
    ensures Draining(s, handlers - {id}, requests[handlers[id] := Drained(requests[handlers[id]])])
  {
    var h := handlers[id];
    assert s.requests[h].id == id && Registered(s, h);
    assert forall r :: 0 <= r < |requests| && r != h && Registered(s, r) ==> s.requests[r].id != id;
  }
}
