/** Does a feed see every change of its book? A sync copies the book and
    registers the feed in two steps, and a handler of a book message that looked
    the bookie up before may change the book in between. */
module FeedChanges {
  import opened BookFeeds

  ghost predicate Registered(s: State, f: int) {
    0 <= f < |s.feeds| && s.feeds[f].bookie < |s.bookies| && f in s.bookies[s.feeds[f].bookie].feeds
  }

  /** Every change that was passed on and is newer than the feed's book was
      sent on the feed. */
  ghost predicate SeesAll(s: State, f: int) {
    && 0 <= f < |s.feeds| && FeedBorn(s, f)
    && forall v :: v in s.bookies[s.feeds[f].bookie].passedOn && v > s.feeds[f].sent[0].version ==>
         Update(v) in s.feeds[f].sent
  }

  ghost predicate NewestSeesAll(s: State) {
    SeesAll(s, |s.feeds| - 1)
  }

  // ---------- opening a feed ----------

  predicate UpToAddFeed(es: seq<Event>) {
    es != [] && if es[0] == AddFeed then |es| == 1 else UpToAddFeed(es[1..])
  }

  /** A continuation that ends with the registration of the sync under way. */
  ghost predicate Opens(s: State, es: seq<Event>) {
    UpToAddFeed(es) && EnabledRun(s, es)
  }

  /** However the sync under way is interleaved, its feed sees every change. */
  ghost predicate OpensClean(s: State) {
    forall es :: Opens(s, es) ==> NewestSeesAll(Run(s, es))
  }

  /** No handler has looked the bookie up without having changed its book yet. */
  predicate NoneLookedUp(s: State, b: nat) {
    forall h :: 0 <= h < |s.handlers| ==> s.handlers[h] != LookedUp(b)
  }

  /** A sync of the bookie is under way and its book cannot change. */
  predicate Calm(s: State, b: nat) {
    && !s.sync.Idle? && s.sync.b == b < |s.bookies| && NoneLookedUp(s, b)
    && (s.sync.HasBook? || s.sync.version == s.bookies[b].version)
  }

  lemma CalmStays(s: State, e: Event, b: nat)
    requires Calm(s, b) && Enabled(s, e) && e != AddFeed
    ensures Calm(Next(s, e), b)
  {
  }

  /** In calm, registration comes with every change so far in the book. */
  lemma CalmFeedSeesAll(s: State, b: nat)
    requires Inv(s) && Calm(s, b) && Enabled(s, AddFeed)
    ensures NewestSeesAll(Next(s, AddFeed))
  {
    StepKeepsInv(s, AddFeed);
    var t := Next(s, AddFeed);
    assert t.feeds[|s.feeds|].sent == [FreshBook(s.sync.version)];
    assert PassedOnOk(s.bookies[b]);
  }

  lemma {:induction false} CalmOpensClean(s: State, b: nat, es: seq<Event>)
    requires Inv(s) && Calm(s, b) && Opens(s, es)
    ensures NewestSeesAll(Run(s, es))
    decreases |es|
  {
    if es[0] == AddFeed {
      CalmFeedSeesAll(s, b);
      assert Run(s, es) == Next(s, AddFeed) by { assert es[1..] == []; }
    } else {
      CalmStays(s, es[0], b);
      StepKeepsInv(s, es[0]);
      CalmOpensClean(Next(s, es[0]), b, es[1..]);
    }
  }

  lemma OneStep(s: State, e: Event, rest: seq<Event>)
    requires Enabled(s, e) && EnabledRun(Next(s, e), rest)
    ensures EnabledRun(s, [e] + rest) && Run(s, [e] + rest) == Run(Next(s, e), rest)
  {
    assert ([e] + rest)[1..] == rest;
  }

  const TAIL: seq<Event> := [StopTimer] + ([AddFeed] + [])

  /** A handler that has looked the bookie up changes the book and passes the
      change on, after the book was copied for the feed. */
  function Change(h: nat): seq<Event> {
    [ApplyUpdate(h)] + ([SendUpdate(h, {})] + TAIL)
  }

  lemma Longer(e: Event, es: seq<Event>)
    requires e != AddFeed && UpToAddFeed(es)
    ensures UpToAddFeed([e] + es)
  {
    assert ([e] + es)[1..] == es;
  }

  lemma RaceIsAnOpening(h: nat)
    ensures UpToAddFeed([TakeSnapshot] + Change(h))
  {
    Longer(StopTimer, [AddFeed] + []);
    Longer(SendUpdate(h, {}), TAIL);
    Longer(ApplyUpdate(h), [SendUpdate(h, {})] + TAIL);
    Longer(TakeSnapshot, Change(h));
  }

  lemma RegistrationComesLate(s: State)
    requires Inv(s) && s.sync.HasSnapshot? && s.sync.version + 1 in s.bookies[s.sync.b].passedOn
    ensures EnabledRun(s, TAIL) && !NewestSeesAll(Run(s, TAIL))
  {
    var s' := Next(s, StopTimer);
    var t := Next(s', AddFeed);
    assert t.feeds[|s'.feeds|].sent == [FreshBook(s.sync.version)];
    assert Update(s.sync.version + 1) !in t.feeds[|s'.feeds|].sent;
    OneStep(s', AddFeed, []);
    OneStep(s, StopTimer, [AddFeed] + []);
  }

  lemma SendingPassesOn(s: State, h: nat)
    requires Inv(s) && h < |s.handlers| && s.handlers[h].Applied?
    ensures Enabled(s, SendUpdate(h, {}))
    ensures var t := Next(s, SendUpdate(h, {})); var b := s.handlers[h].b;
      Inv(t) && t.sync == s.sync && b < |t.bookies| && s.handlers[h].version in t.bookies[b].passedOn
  {
    assert HandlerOk(s.bookies, s.handlers[h]);
    StepKeepsInv(s, SendUpdate(h, {}));
  }

  lemma ChangeIsPassedOn(s: State, h: nat)
    requires Inv(s) && s.sync.HasSnapshot? && h < |s.handlers| && s.handlers[h] == Applied(s.sync.b, s.sync.version + 1)
    ensures EnabledRun(s, [SendUpdate(h, {})] + TAIL) && !NewestSeesAll(Run(s, [SendUpdate(h, {})] + TAIL))
  {
    SendingPassesOn(s, h);
    RegistrationComesLate(Next(s, SendUpdate(h, {})));
    OneStep(s, SendUpdate(h, {}), TAIL);
  }

  /** Then the new feed misses that change. */
  lemma ChangeBeforeRegistrationIsMissed(s: State, h: nat)
    requires Inv(s) && s.sync.HasSnapshot? && s.bookies[s.sync.b].version == s.sync.version
    requires h < |s.handlers| && s.handlers[h] == LookedUp(s.sync.b)
    ensures EnabledRun(s, Change(h)) && !NewestSeesAll(Run(s, Change(h)))
  {
    StepKeepsInv(s, ApplyUpdate(h));
    ChangeIsPassedOn(Next(s, ApplyUpdate(h)), h);
    OneStep(s, ApplyUpdate(h), [SendUpdate(h, {})] + TAIL);
  }

  lemma LookedUpMisses(s: State, h: nat)
    requires Inv(s) && s.sync.HasBook? && h < |s.handlers| && s.handlers[h] == LookedUp(s.sync.b)
    ensures Opens(s, [TakeSnapshot] + Change(h)) && !NewestSeesAll(Run(s, [TakeSnapshot] + Change(h)))
  {
    StepKeepsInv(s, TakeSnapshot);
    ChangeBeforeRegistrationIsMissed(Next(s, TakeSnapshot), h);
    OneStep(s, TakeSnapshot, Change(h));
    RaceIsAnOpening(h);
  }

  /** Once a sync has its bookie, every interleaving gives its feed every change
      if and only if no handler has looked that bookie up. */
  lemma OpensCleanExactlyWhen(s: State)
    requires Inv(s) && s.sync.HasBook?
    ensures OpensClean(s) <==> NoneLookedUp(s, s.sync.b)
  {
    if NoneLookedUp(s, s.sync.b) {
      forall es | Opens(s, es)
        ensures NewestSeesAll(Run(s, es))
      {
        CalmOpensClean(s, s.sync.b, es);
      }
    } else {
      var h :| 0 <= h < |s.handlers| && s.handlers[h] == LookedUp(s.sync.b);
      LookedUpMisses(s, h);
    }
  }

  /** As a caller can tell before asking for a feed: a new subscription always
      gives a feed every change; an existing book does so in every interleaving
      if and only if no handler has looked its bookie up. */
  lemma SyncIsCleanExactlyWhen(s: State, m: string)
    requires Inv(s) && s.sync.Idle?
    ensures Enabled(s, SyncBook(m, Subscribed))
    ensures OpensClean(Next(s, SyncBook(m, Subscribed))) <==> m !in s.books || NoneLookedUp(s, s.books[m])
  {
    assert m in s.books ==> BookOk(s, m);
    var t := Next(s, SyncBook(m, Subscribed));
    StepKeepsInv(s, SyncBook(m, Subscribed));
    OpensCleanExactlyWhen(t);
    assert t.handlers == s.handlers;
    assert forall h :: 0 <= h < |s.handlers| ==> HandlerOk(s.bookies, s.handlers[h]);
  }

  // ---------- staying open ----------

  predicate NeverBlocks(es: seq<Event>, f: int) {
    forall i :: 0 <= i < |es| && es[i].SendUpdate? ==> f !in es[i].blocking
  }

  lemma SendingReaches(s: State, h: nat, blocking: set<nat>, f: nat)
    requires Inv(s) && Enabled(s, SendUpdate(h, blocking))
    requires Registered(s, f) && SeesAll(s, f) && f !in blocking
    ensures SeesAll(Next(s, SendUpdate(h, blocking)), f)
  {
    StepKeepsInv(s, SendUpdate(h, blocking));
    var t := Next(s, SendUpdate(h, blocking));
    var b, v := s.feeds[f].bookie, s.handlers[h].version;
    assert SameFeed(s.feeds[f], t.feeds[f]);
    assert t.feeds[f].sent[0] == s.feeds[f].sent[0];
    if s.handlers[h].b == b {
      assert t.feeds[f].sent == s.feeds[f].sent + [Update(v)];
    }
  }

  lemma StepKeepsSight(s: State, e: Event, f: nat)
    requires Inv(s) && Enabled(s, e) && Registered(s, f) && SeesAll(s, f)
    requires e.SendUpdate? ==> f !in e.blocking
    ensures SeesAll(Next(s, e), f)
  {
    if e.SendUpdate? {
      SendingReaches(s, e.handler, e.blocking, f);
    } else {
      StepKeepsInv(s, e);
      var t, b := Next(s, e), s.feeds[f].bookie;
      assert SameFeed(s.feeds[f], t.feeds[f]) && SameBookie(s.bookies[b], t.bookies[b], |s.feeds|, false);
      assert t.feeds[f].sent[0] == s.feeds[f].sent[0];
    }
  }

  lemma {:induction false} RegisteredBefore(s: State, es: seq<Event>, f: nat)
    requires Inv(s) && EnabledRun(s, es) && f < |s.feeds| && Registered(Run(s, es), f)
    ensures Registered(s, f)
    decreases |es|
  {
    assert FeedBorn(s, f);
    if es != [] {
      StepKeepsInv(s, es[0]);
      var t, b := Next(s, es[0]), s.feeds[f].bookie;
      assert SameFeed(s.feeds[f], t.feeds[f]) && SameBookie(s.bookies[b], t.bookies[b], |s.feeds|, es[0].SendUpdate?);
      RegisteredBefore(t, es[1..], f);
    }
  }

  lemma {:induction false} SightLasts(s: State, es: seq<Event>, f: nat)
    requires Inv(s) && EnabledRun(s, es) && SeesAll(s, f)
    requires Registered(Run(s, es), f) && NeverBlocks(es, f)
    ensures SeesAll(Run(s, es), f)
    decreases |es|
  {
    RegisteredBefore(s, es, f);
    if es != [] {
      StepKeepsSight(s, es[0], f);
      StepKeepsInv(s, es[0]);
      SightLasts(Next(s, es[0]), es[1..], f);
    }
  }

  /** A run after which the feed is still registered and has never blocked. */
  ghost predicate Follows(s: State, es: seq<Event>, f: int) {
    EnabledRun(s, es) && Registered(Run(s, es), f) && NeverBlocks(es, f)
  }

  ghost predicate SeesAllFromNow(s: State, f: int) {
    forall es :: Follows(s, es, f) ==> SeesAll(Run(s, es), f)
  }

  /** From then on, in every run, a feed that is still registered and has never
      blocked has been sent every change. */
  lemma RegisteredFeedKeepsUp(s: State, f: nat)
    requires Inv(s) && SeesAll(s, f)
    ensures SeesAllFromNow(s, f)
  {
    forall es | Follows(s, es, f)
      ensures SeesAll(Run(s, es), f)
    {
      SightLasts(s, es, f);
    }
  }

  /** Opened while no handler had looked the bookie up, a feed sees every change
      for as long as it is registered and does not block. */
  lemma CleanFeedSeesEverything(s: State, opening: seq<Event>)
    requires Inv(s) && s.sync.HasBook? && NoneLookedUp(s, s.sync.b) && Opens(s, opening)
    ensures SeesAllFromNow(Run(s, opening), |Run(s, opening).feeds| - 1)
  {
    RunKeepsInv(s, opening);
    CalmOpensClean(s, s.sync.b, opening);
    RegisteredFeedKeepsUp(Run(s, opening), |Run(s, opening).feeds| - 1);
  }

  // ---------- the race happens ----------

  const OneFeed := State(map["m" := 0], [Bookie("m", {0}, NoTimer, 0, {})], [Feed(0, true, [FreshBook(0)])],
                         Idle, multiset{}, multiset{}, multiset{}, [], map["m" := Subscribe], false)

  const OpenOne: seq<Event> := [SyncBook("m", Subscribed)] + ([TakeSnapshot] + ([StopTimer] + ([AddFeed] + [])))

  /** One market, one feed. */
  lemma OpenOneFeed()
    ensures EnabledRun(Start, OpenOne) && Run(Start, OpenOne) == OneFeed
  {
    var s1 := Next(Start, SyncBook("m", Subscribed));
    var s2 := Next(s1, TakeSnapshot);
    var s3 := Next(s2, StopTimer);
    assert s3 == State(map["m" := 0], [Bookie("m", {}, NoTimer, 0, {})], [],
                       TimerStopped(0, 0), multiset{}, multiset{}, multiset{}, [], map["m" := Subscribe], false);
    assert Next(s3, AddFeed) == OneFeed by { assert {} + {0} == {0}; }
    OneStep(s3, AddFeed, []);
    OneStep(s2, StopTimer, [AddFeed] + []);
    OneStep(s1, TakeSnapshot, [StopTimer] + ([AddFeed] + []));
    OneStep(Start, SyncBook("m", Subscribed), [TakeSnapshot] + ([StopTimer] + ([AddFeed] + [])));
  }

  /** With one feed open, a handler looks up its bookie; a second feed that is
      then opened can miss a change. */
  lemma RaceIsReachable() returns (s: State)
    ensures EnabledRun(Start, OpenOne) && Enabled(Run(Start, OpenOne), Lookup("m"))
    ensures s == Next(Run(Start, OpenOne), Lookup("m")) && Inv(s) && s.sync.Idle?
    ensures Enabled(s, SyncBook("m", Subscribed)) && !OpensClean(Next(s, SyncBook("m", Subscribed)))
  {
    OpenOneFeed();
    RunKeepsInv(Start, OpenOne);
    s := Next(OneFeed, Lookup("m"));
    StepKeepsInv(OneFeed, Lookup("m"));
    assert s.handlers[0] == LookedUp(0);
    SyncIsCleanExactlyWhen(s, "m");
  }
}
