/** Exactly what each event does to a feed and to a subscription, stated by the
    state it finds and not by how the event is carried out. */
module FeedEffects {
  import opened BookFeeds
  import opened FeedChanges

  // ---------- channels ----------

  /** What an event puts on a feed's channel: an update of its bookie unless the
      feed is no longer registered or blocks, and candles it asked for. */
  ghost function Delivered(s: State, e: Event, f: nat): seq<Msg>
    requires Enabled(s, e) && f < |s.feeds|
  {
    match e
    case SendUpdate(h, blocking) =>
      if Registered(s, f) && s.handlers[h].b == s.feeds[f].bookie && f !in blocking then [Update(s.handlers[h].version)]
      else []
    case SendCandles(g) => if g == f && Registered(s, f) then [FreshCandles] else []
    case _ => []
  }

  /** When an event closes a feed's channel: its market's feeds are closed, or all are. */
  ghost predicate Closes(s: State, e: Event, f: nat)
    requires Enabled(s, e) && f < |s.feeds|
  {
    Registered(s, f) && ((e.CloseMarket? && e.market == s.bookies[s.feeds[f].bookie].market) || e == UpdateCert)
  }

  /** When an event unregisters a feed: with its channel, or on its own request. */
  ghost predicate Unregisters(s: State, e: Event, f: nat)
    requires Enabled(s, e) && f < |s.feeds|
  {
    Closes(s, e, f) || e == CloseFeed(f)
  }

  ghost predicate Exact(s: State, e: Event, f: nat)
    requires Enabled(s, e) && f < |s.feeds|
  {
    var t := Next(s, e);
    && f < |t.feeds|
    && t.feeds[f].sent == s.feeds[f].sent + Delivered(s, e, f)
    && t.feeds[f].open == (s.feeds[f].open && !Closes(s, e, f))
    && (Registered(t, f) <==> Registered(s, f) && !Unregisters(s, e, f))
  }

  lemma SendingIsExact(s: State, e: Event, f: nat)
    requires Inv(s) && Enabled(s, e) && f < |s.feeds| && (e.SendUpdate? || e.SendCandles?)
    ensures Exact(s, e, f)
  {
    assert FeedBorn(s, f);
    if e.SendUpdate? && f in s.bookies[s.handlers[e.handler].b].feeds {
      assert FeedOk(s, s.handlers[e.handler].b, f);
    }
  }

  lemma ClosingMarketIsExact(s: State, m: string, f: nat)
    requires Inv(s) && Enabled(s, CloseMarket(m)) && f < |s.feeds|
    ensures Exact(s, CloseMarket(m), f)
  {
    assert FeedBorn(s, f);
    var b := s.feeds[f].bookie;
    if Registered(s, f) {
      assert FeedOk(s, b, f);
    }
    if m in s.books {
      assert BookOk(s, m);
      if f in s.bookies[s.books[m]].feeds {
        assert FeedOk(s, s.books[m], f);
      }
    }
  }

  lemma ClosingAllIsExact(s: State, f: nat)
    requires Inv(s) && Enabled(s, UpdateCert) && f < |s.feeds|
    ensures Exact(s, UpdateCert, f)
  {
    assert FeedBorn(s, f);
    BookedFeedsAreClosed(s);
    if Registered(s, f) {
      assert FeedOk(s, s.feeds[f].bookie, f);
    }
  }

  lemma FeedingIsExact(s: State, e: Event, f: nat)
    requires Inv(s) && Enabled(s, e) && f < |s.feeds|
    requires e.TakeSnapshot? || e.StopTimer? || e.AddFeed? || e.CloseFeed?
    ensures Exact(s, e, f)
  {
    assert FeedBorn(s, f);
    if e.CloseFeed? && f in s.bookies[s.feeds[e.feed].bookie].feeds {
      assert FeedOk(s, s.feeds[e.feed].bookie, f);
    }
  }

  lemma TimingIsExact(s: State, e: Event, f: nat)
    requires Inv(s) && Enabled(s, e) && f < |s.feeds|
    requires e.ArmTimer? || e.TimerFires? || e.TimerChecks? || e.ApplyUpdate?
    ensures Exact(s, e, f)
  {
    assert FeedBorn(s, f);
  }

  lemma BookingIsExact(s: State, e: Event, f: nat)
    requires Inv(s) && Enabled(s, e) && f < |s.feeds|
    requires e.StopBook? || e.PeekBook? || e.Lookup?
    ensures Exact(s, e, f)
  {
    assert FeedBorn(s, f);
  }

  lemma SyncingIsExact(s: State, m: string, answer: Answer, f: nat)
    requires Inv(s) && Enabled(s, SyncBook(m, answer)) && f < |s.feeds|
    ensures Exact(s, SyncBook(m, answer), f)
  {
    assert FeedBorn(s, f);
  }

  /** Every event delivers, closes and unregisters exactly what it should. */
  lemma StepIsExact(s: State, e: Event, f: nat)
    requires Inv(s) && Enabled(s, e) && f < |s.feeds|
    ensures Exact(s, e, f)
  {
    if e.SendUpdate? || e.SendCandles? {
      SendingIsExact(s, e, f);
    } else if e.CloseMarket? {
      ClosingMarketIsExact(s, e.market, f);
    } else if e.UpdateCert? {
      ClosingAllIsExact(s, f);
    } else if e.TakeSnapshot? || e.StopTimer? || e.AddFeed? || e.CloseFeed? {
      FeedingIsExact(s, e, f);
    } else if e.ArmTimer? || e.TimerFires? || e.TimerChecks? || e.ApplyUpdate? {
      TimingIsExact(s, e, f);
    } else if e.SyncBook? {
      SyncingIsExact(s, e.market, e.answer, f);
    } else {
      BookingIsExact(s, e, f);
    }
  }

  // ---------- timers and what waits ----------

  function One(yes: bool): nat {
    if yes then 1 else 0
  }

  /** The event takes away the bookie's last feed, or finds none to take away. */
  ghost predicate Empties(s: State, e: Event, b: nat)
    requires Enabled(s, e)
  {
    e.CloseFeed? && s.feeds[e.feed].bookie == b && s.bookies[b].feeds <= {e.feed}
  }

  ghost predicate StopsTimer(s: State, e: Event, b: nat)
    requires Enabled(s, e) && b < |s.bookies|
  {
    || e == TimerFires(b)
    || (e == StopTimer && s.sync.b == b)
    || (IsBooked(s, b) && (e == CloseMarket(s.bookies[b].market) || e == UpdateCert))
  }

  /** A timer runs from when it is set until it fires or is stopped; what an
      event leaves to be done later is done once. */
  ghost predicate Queued(s: State, e: Event, b: nat, m: string)
    requires Enabled(s, e) && b < |s.bookies|
  {
    var t := Next(s, e);
    && b < |t.bookies|
    && (t.bookies[b].timer == Armed <==> e == ArmTimer(b) || (s.bookies[b].timer == Armed && !StopsTimer(s, e, b)))
    && t.arming[b] == s.arming[b] + One(Empties(s, e, b)) - One(e == ArmTimer(b))
    && t.firing[b] == s.firing[b] + One(e == TimerFires(b)) - One(e == TimerChecks(b))
    && t.stops[m] == s.stops[m] + One(e == CloseMarket(m)) - One(e == StopBook(m))
         + One(e.TimerChecks? && s.bookies[e.bookie].feeds == {} && s.bookies[e.bookie].market == m)
  }

  lemma StopTimerIsQueued(s: State, b: nat, m: string)
    requires Inv(s) && Enabled(s, StopTimer) && b < |s.bookies|
    ensures Queued(s, StopTimer, b, m)
  {
  }

  lemma ArmTimerIsQueued(s: State, n: nat, b: nat, m: string)
    requires Inv(s) && Enabled(s, ArmTimer(n)) && b < |s.bookies|
    ensures Queued(s, ArmTimer(n), b, m)
  {
  }

  lemma TimerFiresIsQueued(s: State, n: nat, b: nat, m: string)
    requires Inv(s) && Enabled(s, TimerFires(n)) && b < |s.bookies|
    ensures Queued(s, TimerFires(n), b, m)
  {
  }

  lemma TimerChecksIsQueued(s: State, n: nat, b: nat, m: string)
    requires Inv(s) && Enabled(s, TimerChecks(n)) && b < |s.bookies|
    ensures Queued(s, TimerChecks(n), b, m)
  {
  }

  lemma FeedingIsQueued(s: State, e: Event, b: nat, m: string)
    requires Inv(s) && Enabled(s, e) && b < |s.bookies|
    requires e.TakeSnapshot? || e.AddFeed? || e.CloseFeed?
    ensures Queued(s, e, b, m)
  {
    if e.CloseFeed? {
      var all := s.bookies[s.feeds[e.feed].bookie].feeds;
      assert all - {e.feed} == {} <==> all <= {e.feed};
    }
  }

  lemma ClosingIsQueued(s: State, e: Event, b: nat, m: string)
    requires Inv(s) && Enabled(s, e) && b < |s.bookies|
    requires e.CloseMarket? || e.UpdateCert?
    ensures Queued(s, e, b, m)
  {
    forall n | n in s.books
      ensures BookOk(s, n)
    {
    }
    assert b in Booked(s) <==> IsBooked(s, b);
  }

  lemma StopBookIsQueued(s: State, n: string, b: nat, m: string)
    requires Inv(s) && Enabled(s, StopBook(n)) && b < |s.bookies|
    ensures Queued(s, StopBook(n), b, m)
  {
  }

  lemma PeekBookIsQueued(s: State, n: string, subscribed: bool, b: nat, m: string)
    requires Inv(s) && Enabled(s, PeekBook(n, subscribed)) && b < |s.bookies|
    ensures Queued(s, PeekBook(n, subscribed), b, m)
  {
  }

  lemma LookupIsQueued(s: State, n: string, b: nat, m: string)
    requires Inv(s) && Enabled(s, Lookup(n)) && b < |s.bookies|
    ensures Queued(s, Lookup(n), b, m)
  {
  }

  lemma SyncBookIsQueued(s: State, n: string, answer: Answer, b: nat, m: string)
    requires Inv(s) && Enabled(s, SyncBook(n, answer)) && b < |s.bookies|
    ensures Queued(s, SyncBook(n, answer), b, m)
  {
  }

  lemma ApplyUpdateIsQueued(s: State, h: nat, b: nat, m: string)
    requires Inv(s) && Enabled(s, ApplyUpdate(h)) && b < |s.bookies|
    ensures Queued(s, ApplyUpdate(h), b, m)
  {
  }

  lemma SendUpdateIsQueued(s: State, h: nat, blocking: set<nat>, b: nat, m: string)
    requires Inv(s) && Enabled(s, SendUpdate(h, blocking)) && b < |s.bookies|
    ensures Queued(s, SendUpdate(h, blocking), b, m)
  {
  }

  lemma SendCandlesIsQueued(s: State, f: nat, b: nat, m: string)
    requires Inv(s) && Enabled(s, SendCandles(f)) && b < |s.bookies|
    ensures Queued(s, SendCandles(f), b, m)
  {
  }

  /** Every event sets and stops timers, and leaves work, exactly as it should. */
  lemma StepIsQueued(s: State, e: Event, b: nat, m: string)
    requires Inv(s) && Enabled(s, e) && b < |s.bookies|
    ensures Queued(s, e, b, m)
  {
    match e {
      case StopTimer => StopTimerIsQueued(s, b, m);
      case ArmTimer(n) => ArmTimerIsQueued(s, n, b, m);
      case TimerFires(n) => TimerFiresIsQueued(s, n, b, m);
      case TimerChecks(n) => TimerChecksIsQueued(s, n, b, m);
      case CloseMarket(_) => ClosingIsQueued(s, e, b, m);
      case UpdateCert => ClosingIsQueued(s, e, b, m);
      case SyncBook(n, answer) => SyncBookIsQueued(s, n, answer, b, m);
      case StopBook(n) => StopBookIsQueued(s, n, b, m);
      case PeekBook(n, subscribed) => PeekBookIsQueued(s, n, subscribed, b, m);
      case Lookup(n) => LookupIsQueued(s, n, b, m);
      case ApplyUpdate(h) => ApplyUpdateIsQueued(s, h, b, m);
      case SendUpdate(h, blocking) => SendUpdateIsQueued(s, h, blocking, b, m);
      case SendCandles(f) => SendCandlesIsQueued(s, f, b, m);
      case _ => FeedingIsQueued(s, e, b, m);
    }
  }

  // ---------- subscriptions ----------

  /** The server was last told to send a market that has no book here. */
  predicate Stray(s: State, m: string) {
    m !in s.books && m in s.last && s.last[m] == Subscribe
  }

  predicate NoFeeds(s: State, m: string) {
    m in s.books && s.books[m] < |s.bookies| ==> s.bookies[s.books[m]].feeds == {}
  }

  /** An event that leaves a market subscribed without a book: the book could not
      be built, or all books were forgotten at once. */
  predicate Strands(s: State, e: Event, m: string) {
    || (e == SyncBook(m, BadSnapshot) && m !in s.books)
    || (e == UpdateCert && m in s.books)
  }

  /** An event that ends that: a new subscription, one that fails, a stop, or a
      peek at the book. */
  predicate Recovers(s: State, e: Event, m: string) {
    && m !in s.books
    && ((e.SyncBook? && e.market == m && e.answer in {Subscribed, CannotSubscribe})
        || e == StopBook(m) || (e.PeekBook? && e.market == m))
  }

  ghost predicate StrayStep(s: State, e: Event, m: string)
    requires Enabled(s, e)
  {
    Stray(Next(s, e), m) <==> Strands(s, e, m) || (Stray(s, m) && !Recovers(s, e, m))
  }

  lemma SyncOnSubscription(s: State, n: string, answer: Answer, m: string)
    requires Enabled(s, SyncBook(n, answer))
    ensures StrayStep(s, SyncBook(n, answer), m)
  {
  }

  lemma StopOnSubscription(s: State, n: string, m: string)
    requires Enabled(s, StopBook(n))
    ensures StrayStep(s, StopBook(n), m)
  {
  }

  lemma ForgettingOnSubscription(s: State, m: string)
    requires Inv(s) && Enabled(s, UpdateCert)
    ensures StrayStep(s, UpdateCert, m)
  {
    assert m in s.books ==> BookOk(s, m);
  }

  lemma PeekOnSubscription(s: State, n: string, subscribed: bool, m: string)
    requires Enabled(s, PeekBook(n, subscribed))
    ensures StrayStep(s, PeekBook(n, subscribed), m)
  {
  }

  /** Only those four events touch the books or the subscriptions at all. */
  lemma FeedingKeepsBooks(s: State, e: Event)
    requires Enabled(s, e) && (e.TakeSnapshot? || e.StopTimer? || e.AddFeed? || e.CloseFeed?)
    ensures Next(s, e).books == s.books && Next(s, e).last == s.last
  {
  }

  lemma TimingKeepsBooks(s: State, e: Event)
    requires Enabled(s, e) && (e.ArmTimer? || e.TimerFires? || e.TimerChecks?)
    ensures Next(s, e).books == s.books && Next(s, e).last == s.last
  {
  }

  lemma MessagesKeepBooks(s: State, e: Event)
    requires Enabled(s, e) && (e.CloseMarket? || e.Lookup? || e.ApplyUpdate? || e.SendUpdate? || e.SendCandles?)
    ensures Next(s, e).books == s.books && Next(s, e).last == s.last
  {
  }

  lemma OthersOnSubscription(s: State, e: Event, m: string)
    requires Enabled(s, e) && !e.SyncBook? && !e.StopBook? && !e.UpdateCert? && !e.PeekBook?
    ensures StrayStep(s, e, m)
  {
    if e.CloseMarket? || e.Lookup? || e.ApplyUpdate? || e.SendUpdate? || e.SendCandles? {
      MessagesKeepBooks(s, e);
    } else if e.ArmTimer? || e.TimerFires? || e.TimerChecks? {
      TimingKeepsBooks(s, e);
    } else {
      FeedingKeepsBooks(s, e);
    }
  }

  /** What each event does to a market that is subscribed without a book. */
  lemma StepOnSubscription(s: State, e: Event, m: string)
    requires Inv(s) && Enabled(s, e)
    ensures StrayStep(s, e, m)
  {
    match e {
      case SyncBook(n, answer) => SyncOnSubscription(s, n, answer, m);
      case StopBook(n) => StopOnSubscription(s, n, m);
      case UpdateCert => ForgettingOnSubscription(s, m);
      case PeekBook(n, subscribed) => PeekOnSubscription(s, n, subscribed, m);
      case _ => OthersOnSubscription(s, e, m);
    }
  }

  /** By the events of a run: is the market left subscribed without a book? */
  predicate LeftBehind(s: State, es: seq<Event>, m: string, was: bool)
    requires EnabledRun(s, es)
    decreases |es|
  {
    if es == [] then was
    else LeftBehind(Next(s, es[0]), es[1..], m, Strands(s, es[0], m) || (was && !Recovers(s, es[0], m)))
  }

  lemma {:induction false} StrayFrom(s: State, es: seq<Event>, m: string)
    requires Inv(s) && EnabledRun(s, es)
    ensures Stray(Run(s, es), m) <==> LeftBehind(s, es, m, Stray(s, m))
    decreases |es|
  {
    if es != [] {
      StepOnSubscription(s, es[0], m);
      StepKeepsInv(s, es[0]);
      StrayFrom(Next(s, es[0]), es[1..], m);
    }
  }

  /** In every run a market without a book was last subscribed to exactly when
      such an event left it so and none since has ended that. */
  lemma StrayExactlyWhen(es: seq<Event>, m: string)
    requires EnabledRun(Start, es)
    ensures Stray(Run(Start, es), m) <==> LeftBehind(Start, es, m, false)
  {
    StrayFrom(Start, es, m);
  }

  /** Stopping a market without feeds ends its subscription and its book; with
      feeds it changes neither. No other market is concerned. */
  lemma StopEndsSubscription(s: State, m: string, n: string)
    requires Inv(s) && Enabled(s, StopBook(m))
    ensures var t := Next(s, StopBook(m));
      && (NoFeeds(s, m) ==> m !in t.books && m in t.last && t.last[m] == Unsubscribe)
      && (!NoFeeds(s, m) ==> t.books == s.books && t.last == s.last)
      && (n != m ==> (n in t.books <==> n in s.books) && (n in t.last <==> n in s.last))
      && (n != m && n in s.last ==> t.last[n] == s.last[n])
      && t.stops == s.stops - multiset{m}
  {
    assert m in s.books ==> BookOk(s, m);
  }
}
