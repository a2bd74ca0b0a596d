/** Order book feeds of one server connection. Each market has at most one
    bookie; feeds come and go; a bookie without feeds is closed after a delay.
    Every event is what happens under one hold of a lock: the lock of the map of
    books, a bookie's lock of its feeds, or a bookie's lock of its timer. */
module BookFeeds {

  /** What a feed's channel carries. Versions number the changes of a book. */
  datatype Msg = FreshBook(version: nat) | Update(version: nat) | FreshCandles

  /** A feed: its bookie, whether its channel is open, and what was sent on it. */
  datatype Feed = Feed(bookie: nat, open: bool, sent: seq<Msg>)

  /** A bookie's close timer: none, running, or fired or stopped. */
  datatype Timer = NoTimer | Armed | Over

  /** A bookie: its market, its registered feeds, its close timer, how often its
      book has changed, and which changes have been sent to the feeds. */
  datatype Bookie = Bookie(market: string, feeds: set<nat>, timer: Timer, version: nat, passedOn: set<nat>)

  /** The last thing said to the server about a market in this session. */
  datatype Action = Subscribe | SubscribeFailed | Unsubscribe

  /** Who holds the lock of the map of books for longer than one event: a sync
      that is about to register a feed. */
  datatype Sync = Idle | HasBook(b: nat) | HasSnapshot(b: nat, version: nat) | TimerStopped(b: nat, version: nat)

  /** A book message on its way: looked up, then applied to the book. */
  datatype Handler = LookedUp(b: nat) | Applied(b: nat, version: nat) | Sent

  /** Besides the maps: bookies about to set a timer, bookies whose timer's
      function has started but not yet looked at the feeds (stopping the timer
      has no effect then), markets about to be stopped, and book messages. */
  datatype State = State(
    books: map<string, nat>,
    bookies: seq<Bookie>,
    feeds: seq<Feed>,
    sync: Sync,
    arming: multiset<nat>,
    firing: multiset<nat>,
    stops: multiset<string>,
    handlers: seq<Handler>,
    last: map<string, Action>,
    panicked: bool)

  datatype Answer = UnknownMarket | CannotSubscribe | BadSnapshot | Subscribed

  datatype Event =
    | SyncBook(market: string, answer: Answer)
    | TakeSnapshot
    | StopTimer
    | AddFeed
    | CloseFeed(feed: nat)
    | ArmTimer(bookie: nat)
    | TimerFires(bookie: nat)
    | TimerChecks(bookie: nat)
    | StopBook(market: string)
    | CloseMarket(market: string)
    | UpdateCert
    | PeekBook(market: string, subscribed: bool)
    | Lookup(market: string)
    | ApplyUpdate(handler: nat)
    | SendUpdate(handler: nat, blocking: set<nat>)
    | SendCandles(feed: nat)

  const Start := State(map[], [], [], Idle, multiset{}, multiset{}, multiset{}, [], map[], false)

  // ---------- channels ----------

  function Deliver(feeds: seq<Feed>, to: set<nat>, m: Msg): (r: seq<Feed>)
    ensures |r| == |feeds|
  {
    seq(|feeds|, f requires 0 <= f < |feeds| => if f in to then feeds[f].(sent := feeds[f].sent + [m]) else feeds[f])
  }

  function CloseAll(feeds: seq<Feed>, which: set<nat>): (r: seq<Feed>)
    ensures |r| == |feeds|
  {
    seq(|feeds|, f requires 0 <= f < |feeds| => if f in which then feeds[f].(open := false) else feeds[f])
  }

  /** Sending on a closed channel, or closing it again, panics. */
  predicate AllOpen(feeds: seq<Feed>, which: set<nat>) {
    forall f :: f in which ==> f < |feeds| && feeds[f].open
  }

  function Stopped(t: Timer): Timer {
    if t == Armed then Over else t
  }

  /** A bookie whose feeds are closed and whose timer is stopped. */
  function Emptied(b: Bookie): Bookie {
    b.(feeds := {}, timer := Stopped(b.timer))
  }

  function Booked(s: State): set<nat> {
    set m | m in s.books :: s.books[m]
  }

  /** The feeds of all bookies that are booked. */
  function BookedFeeds(s: State): set<nat> {
    set b, f | b in Booked(s) && b < |s.bookies| && f in s.bookies[b].feeds :: f
  }

  // ---------- what no event undoes ----------

  /** A bookie keeps its market, its book only changes, a change is passed on
      only when one is sent, and no feed but a new one is registered. */
  ghost predicate SameBookie(k: Bookie, k': Bookie, feeds: nat, sent: bool) {
    && k'.market == k.market && k'.version >= k.version
    && (!sent ==> k'.passedOn == k.passedOn)
    && (forall f :: f in k'.feeds && f < feeds ==> f in k.feeds)
  }

  /** A feed keeps its bookie, and its channel only ever gets more messages. */
  predicate SameFeed(f: Feed, f': Feed) {
    f'.bookie == f.bookie && f.sent <= f'.sent
  }

  ghost predicate Evolves(s: State, t: State, sent: bool) {
    && |s.bookies| <= |t.bookies| && |s.feeds| <= |t.feeds|
    && (forall b :: 0 <= b < |s.bookies| ==> SameBookie(s.bookies[b], t.bookies[b], |s.feeds|, sent))
    && (forall f :: 0 <= f < |s.feeds| ==> SameFeed(s.feeds[f], t.feeds[f]))
  }

  /** Changes passed on are changes that the book has had. */
  ghost predicate PassedOnOk(k: Bookie) {
    forall v :: v in k.passedOn ==> v <= k.version
  }

  predicate HandlerOk(bookies: seq<Bookie>, h: Handler) {
    h.Sent? || (h.b < |bookies| && (h.Applied? ==> h.version <= bookies[h.b].version))
  }

  /** Versions only ever refer to changes that the book has had. */
  ghost predicate ChangesOk(s: State) {
    && (forall h :: 0 <= h < |s.handlers| ==> HandlerOk(s.bookies, s.handlers[h]))
    && (forall b :: 0 <= b < |s.bookies| ==> PassedOnOk(s.bookies[b]))
  }

  // ---------- the events ----------

  predicate Enabled(s: State, e: Event) {
    match e
    case SyncBook(m, _) => s.sync.Idle? && (m in s.books ==> s.books[m] < |s.bookies|)
    case TakeSnapshot => s.sync.HasBook? && s.sync.b < |s.bookies|
    case StopTimer => s.sync.HasSnapshot? && s.sync.b < |s.bookies|
    case AddFeed => s.sync.TimerStopped? && s.sync.b < |s.bookies|
    case CloseFeed(f) => f < |s.feeds| && s.feeds[f].bookie < |s.bookies|
    case ArmTimer(b) => b in s.arming && b < |s.bookies|
    case TimerFires(b) => b < |s.bookies| && s.bookies[b].timer == Armed
    case TimerChecks(b) => b in s.firing && b < |s.bookies|
    case StopBook(m) => s.sync.Idle? && m in s.stops && (m in s.books ==> s.books[m] < |s.bookies|)
    case CloseMarket(m) => s.sync.Idle? && (m in s.books ==> s.books[m] < |s.bookies|)
    case UpdateCert => s.sync.Idle?
    case PeekBook(m, _) => s.sync.Idle?
    case Lookup(m) => s.sync.Idle? && (m in s.books ==> s.books[m] < |s.bookies|)
    case ApplyUpdate(h) => h < |s.handlers| && s.handlers[h].LookedUp? && s.handlers[h].b < |s.bookies|
    case SendUpdate(h, _) => h < |s.handlers| && s.handlers[h].Applied? && s.handlers[h].b < |s.bookies|
    case SendCandles(f) => f < |s.feeds| && s.feeds[f].bookie < |s.bookies|
  }

  /** Subscribe if the market has no book, and go on to register a feed. */
  function SyncNext(s: State, m: string, answer: Answer): State
    requires Enabled(s, SyncBook(m, answer))
  {
    if m in s.books then s.(sync := HasBook(s.books[m]))
    else
      match answer
      case UnknownMarket => s
      case CannotSubscribe => s.(last := s.last[m := SubscribeFailed])
      case BadSnapshot => s.(last := s.last[m := Subscribe])
      case Subscribed =>
        s.(books := s.books[m := |s.bookies|],
           bookies := s.bookies + [Bookie(m, {}, NoTimer, 0, {})],
           last := s.last[m := Subscribe],
           sync := HasBook(|s.bookies|))
  }

  /** Copy the book for the feed's first message. */
  function SnapshotNext(s: State): State
    requires Enabled(s, TakeSnapshot)
  {
    s.(sync := HasSnapshot(s.sync.b, s.bookies[s.sync.b].version))
  }

  function StopTimerNext(s: State): State
    requires Enabled(s, StopTimer)
  {
    var k := s.bookies[s.sync.b];
    s.(bookies := s.bookies[s.sync.b := k.(timer := NoTimer)], sync := TimerStopped(s.sync.b, s.sync.version))
  }

  /** Register a feed that starts with the book. */
  function AddFeedNext(s: State): State
    requires Enabled(s, AddFeed)
  {
    var k := s.bookies[s.sync.b];
    s.(bookies := s.bookies[s.sync.b := k.(feeds := k.feeds + {|s.feeds|})],
       feeds := s.feeds + [Feed(s.sync.b, true, [FreshBook(s.sync.version)])],
       sync := Idle)
  }

  /** Forget a feed; the last one leads to a timer. */
  function CloseFeedNext(s: State, f: nat): State
    requires Enabled(s, CloseFeed(f))
  {
    var b := s.feeds[f].bookie;
    var left := s.bookies[b].feeds - {f};
    s.(bookies := s.bookies[b := s.bookies[b].(feeds := left)],
       arming := if left == {} then s.arming + multiset{b} else s.arming)
  }

  /** Stop the old timer, if there is one, and set a new one. */
  function ArmTimerNext(s: State, b: nat): State
    requires Enabled(s, ArmTimer(b))
  {
    s.(bookies := s.bookies[b := s.bookies[b].(timer := Armed)], arming := s.arming - multiset{b})
  }

  function TimerFiresNext(s: State, b: nat): State
    requires Enabled(s, TimerFires(b))
  {
    s.(bookies := s.bookies[b := s.bookies[b].(timer := Over)], firing := s.firing + multiset{b})
  }

  /** The timer's function looks at the feeds. */
  function TimerChecksNext(s: State, b: nat): State
    requires Enabled(s, TimerChecks(b))
  {
    s.(firing := s.firing - multiset{b},
       stops := if s.bookies[b].feeds == {} then s.stops + multiset{s.bookies[b].market} else s.stops)
  }

  /** Unsubscribe, unless the market's bookie has feeds. */
  function StopBookNext(s: State, m: string): State
    requires Enabled(s, StopBook(m))
  {
    var s' := s.(stops := s.stops - multiset{m});
    if m in s.books && s.bookies[s.books[m]].feeds != {} then s'
    else s'.(books := s.books - {m}, last := s.last[m := Unsubscribe])
  }

  /** Close a market's feeds and stop its timer, then have it stopped. */
  function CloseMarketNext(s: State, m: string): State
    requires Enabled(s, CloseMarket(m))
  {
    var s' := s.(stops := s.stops + multiset{m});
    if m !in s.books then s'
    else
      var b := s.books[m];
      var which := s.bookies[b].feeds;
      s'.(bookies := s.bookies[b := Emptied(s.bookies[b])],
          feeds := CloseAll(s.feeds, which),
          panicked := s.panicked || !AllOpen(s.feeds, which))
  }

  /** Close all feeds, stop all timers and forget all books. */
  function UpdateCertNext(s: State): State
    requires Enabled(s, UpdateCert)
  {
    s.(books := map[],
       bookies := seq(|s.bookies|, b requires 0 <= b < |s.bookies| =>
                    if b in Booked(s) then Emptied(s.bookies[b]) else s.bookies[b]),
       feeds := CloseAll(s.feeds, BookedFeeds(s)),
       panicked := s.panicked || !AllOpen(s.feeds, BookedFeeds(s)))
  }

  /** Subscribe for a moment if the market has no book. */
  function PeekBookNext(s: State, m: string, subscribed: bool): State
    requires Enabled(s, PeekBook(m, subscribed))
  {
    if m in s.books then s
    else s.(last := s.last[m := if subscribed then Unsubscribe else SubscribeFailed])
  }

  /** A book message arrives: look up the bookie. */
  function LookupNext(s: State, m: string): State
    requires Enabled(s, Lookup(m))
  {
    if m in s.books then s.(handlers := s.handlers + [LookedUp(s.books[m])]) else s
  }

  function ApplyUpdateNext(s: State, h: nat): State
    requires Enabled(s, ApplyUpdate(h))
  {
    var b := s.handlers[h].b;
    var v := s.bookies[b].version + 1;
    s.(bookies := s.bookies[b := s.bookies[b].(version := v)], handlers := s.handlers[h := Applied(b, v)])
  }

  /** Pass a change on to every feed that does not block. */
  function SendUpdateNext(s: State, h: nat, blocking: set<nat>): State
    requires Enabled(s, SendUpdate(h, blocking))
  {
    var b, v := s.handlers[h].b, s.handlers[h].version;
    var k := s.bookies[b];
    s.(bookies := s.bookies[b := k.(passedOn := k.passedOn + {v})],
       feeds := Deliver(s.feeds, k.feeds - blocking, Update(v)),
       handlers := s.handlers[h := Sent],
       panicked := s.panicked || !AllOpen(s.feeds, k.feeds - blocking))
  }

  function SendCandlesNext(s: State, f: nat): State
    requires Enabled(s, SendCandles(f))
  {
    if f !in s.bookies[s.feeds[f].bookie].feeds then s
    else s.(feeds := Deliver(s.feeds, {f}, FreshCandles), panicked := s.panicked || !AllOpen(s.feeds, {f}))
  }

  function Next(s: State, e: Event): State
    requires Enabled(s, e)
  {
    match e
    case SyncBook(m, answer) => SyncNext(s, m, answer)
    case TakeSnapshot => SnapshotNext(s)
    case StopTimer => StopTimerNext(s)
    case AddFeed => AddFeedNext(s)
    case CloseFeed(f) => CloseFeedNext(s, f)
    case ArmTimer(b) => ArmTimerNext(s, b)
    case TimerFires(b) => TimerFiresNext(s, b)
    case TimerChecks(b) => TimerChecksNext(s, b)
    case StopBook(m) => StopBookNext(s, m)
    case CloseMarket(m) => CloseMarketNext(s, m)
    case UpdateCert => UpdateCertNext(s)
    case PeekBook(m, subscribed) => PeekBookNext(s, m, subscribed)
    case Lookup(m) => LookupNext(s, m)
    case ApplyUpdate(h) => ApplyUpdateNext(s, h)
    case SendUpdate(h, blocking) => SendUpdateNext(s, h, blocking)
    case SendCandles(f) => SendCandlesNext(s, f)
  }

  // ---------- the invariant ----------

  /** The book of a market is its bookie, the server was last told to send it,
      and if it has no feeds it is on its way to be closed. */
  predicate BookOk(s: State, m: string)
    requires m in s.books
  {
    var b := s.books[m];
    && b < |s.bookies| && s.bookies[b].market == m
    && m in s.last && s.last[m] == Subscribe
    && (|| s.bookies[b].feeds != {}
        || s.bookies[b].timer == Armed
        || b in s.arming
        || b in s.firing
        || m in s.stops
        || (!s.sync.Idle? && s.sync.b == b))
  }

  predicate IsBooked(s: State, b: nat)
    requires b < |s.bookies|
  {
    s.bookies[b].market in s.books && s.books[s.bookies[b].market] == b
  }

  /** A registered feed belongs to the bookie, its channel is open, and the
      bookie is the one booked for its market. */
  predicate FeedOk(s: State, b: nat, f: nat)
    requires b < |s.bookies|
  {
    f < |s.feeds| && s.feeds[f].bookie == b && s.feeds[f].open && IsBooked(s, b)
  }

  /** Every feed names a bookie and its first message is the book. */
  predicate FeedBorn(s: State, f: nat)
    requires f < |s.feeds|
  {
    s.feeds[f].bookie < |s.bookies| && s.feeds[f].sent != [] && s.feeds[f].sent[0].FreshBook?
  }

  ghost predicate BooksOk(s: State) {
    forall m :: m in s.books ==> BookOk(s, m)
  }

  ghost predicate FeedsOk(s: State) {
    forall b, f :: 0 <= b < |s.bookies| && f in s.bookies[b].feeds ==> FeedOk(s, b, f)
  }

  ghost predicate BornOk(s: State) {
    forall f :: 0 <= f < |s.feeds| ==> FeedBorn(s, f)
  }

  /** A sync works on a booked bookie, and whoever is to act on a bookie later has one. */
  ghost predicate PendingOk(s: State) {
    && (!s.sync.Idle? ==> s.sync.b < |s.bookies| && IsBooked(s, s.sync.b))
    && (forall b :: b in s.arming ==> b < |s.bookies|)
    && (forall b :: b in s.firing ==> b < |s.bookies|)
  }

  ghost predicate Inv(s: State) {
    !s.panicked && BooksOk(s) && FeedsOk(s) && BornOk(s) && PendingOk(s) && ChangesOk(s)
  }

  lemma RegisteredFeedsAreOpen(s: State, b: nat)
    requires FeedsOk(s) && b < |s.bookies|
    ensures AllOpen(s.feeds, s.bookies[b].feeds)
  {
    forall f | f in s.bookies[b].feeds
      ensures f < |s.feeds| && s.feeds[f].open
    {
      assert FeedOk(s, b, f);
    }
  }

  // ---------- one lemma for each event ----------

  /** What is left to show of an event, once it is known what no event undoes. */
  ghost predicate Safe(s: State) {
    !s.panicked && BooksOk(s) && FeedsOk(s) && PendingOk(s) && ChangesOk(s)
  }

  lemma SyncIsSafe(s: State, m: string, answer: Answer)
    requires Inv(s) && Enabled(s, SyncBook(m, answer))
    ensures Safe(SyncNext(s, m, answer))
  {
    assert m in s.books ==> BookOk(s, m);
  }

  lemma SnapshotIsSafe(s: State)
    requires Inv(s) && Enabled(s, TakeSnapshot)
    ensures Safe(SnapshotNext(s)) && Evolves(s, SnapshotNext(s), false)
  {
  }

  lemma StopTimerIsSafe(s: State)
    requires Inv(s) && Enabled(s, StopTimer)
    ensures Safe(StopTimerNext(s)) && Evolves(s, StopTimerNext(s), false)
  {
  }

  lemma AddFeedIsSafe(s: State)
    requires Inv(s) && Enabled(s, AddFeed)
    ensures Safe(AddFeedNext(s)) && Evolves(s, AddFeedNext(s), false)
  {
  }

  lemma CloseFeedIsSafe(s: State, f: nat)
    requires Inv(s) && Enabled(s, CloseFeed(f))
    ensures Safe(CloseFeedNext(s, f))
  {
  }

  lemma ArmTimerIsSafe(s: State, b: nat)
    requires Inv(s) && Enabled(s, ArmTimer(b))
    ensures Safe(ArmTimerNext(s, b)) && Evolves(s, ArmTimerNext(s, b), false)
  {
  }

  lemma TimerFiresIsSafe(s: State, b: nat)
    requires Inv(s) && Enabled(s, TimerFires(b))
    ensures Safe(TimerFiresNext(s, b)) && Evolves(s, TimerFiresNext(s, b), false)
  {
  }

  lemma TimerChecksIsSafe(s: State, b: nat)
    requires Inv(s) && Enabled(s, TimerChecks(b))
    ensures Safe(TimerChecksNext(s, b)) && Evolves(s, TimerChecksNext(s, b), false)
  {
  }

  lemma StopBookIsSafe(s: State, m: string)
    requires Inv(s) && Enabled(s, StopBook(m))
    ensures Safe(StopBookNext(s, m))
  {
    assert m in s.books ==> BookOk(s, m);
  }

  lemma CloseMarketIsSafe(s: State, m: string)
    requires Inv(s) && Enabled(s, CloseMarket(m))
    ensures Safe(CloseMarketNext(s, m))
  {
    if m in s.books {
      assert BookOk(s, m);
      RegisteredFeedsAreOpen(s, s.books[m]);
    }
  }

  lemma UpdateCertIsSafe(s: State)
    requires Inv(s) && Enabled(s, UpdateCert)
    ensures Safe(UpdateCertNext(s)) && Evolves(s, UpdateCertNext(s), false)
  {
    BookedFeedsAreClosed(s);
  }

  lemma PeekBookIsSafe(s: State, m: string, subscribed: bool)
    requires Inv(s) && Enabled(s, PeekBook(m, subscribed))
    ensures Safe(PeekBookNext(s, m, subscribed)) && Evolves(s, PeekBookNext(s, m, subscribed), false)
  {
  }

  lemma LookupIsSafe(s: State, m: string)
    requires Inv(s) && Enabled(s, Lookup(m))
    ensures Safe(LookupNext(s, m)) && Evolves(s, LookupNext(s, m), false)
  {
  }

  lemma ApplyUpdateIsSafe(s: State, h: nat)
    requires Inv(s) && Enabled(s, ApplyUpdate(h))
    ensures Safe(ApplyUpdateNext(s, h)) && Evolves(s, ApplyUpdateNext(s, h), false)
  {
  }

  lemma SendUpdateIsSafe(s: State, h: nat, blocking: set<nat>)
    requires Inv(s) && Enabled(s, SendUpdate(h, blocking))
    ensures Safe(SendUpdateNext(s, h, blocking))
  {
    RegisteredFeedsAreOpen(s, s.handlers[h].b);
  }

  lemma SendCandlesIsSafe(s: State, f: nat)
    requires Inv(s) && Enabled(s, SendCandles(f))
    ensures Safe(SendCandlesNext(s, f))
  {
    RegisteredFeedsAreOpen(s, s.feeds[f].bookie);
  }

  lemma SyncEvolves(s: State, m: string, answer: Answer)
    requires Enabled(s, SyncBook(m, answer))
    ensures Evolves(s, SyncNext(s, m, answer), false)
  {
  }

  lemma CloseFeedEvolves(s: State, f: nat)
    requires Enabled(s, CloseFeed(f))
    ensures Evolves(s, CloseFeedNext(s, f), false)
  {
  }

  lemma StopBookEvolves(s: State, m: string)
    requires Enabled(s, StopBook(m))
    ensures Evolves(s, StopBookNext(s, m), false)
  {
  }

  lemma CloseMarketEvolves(s: State, m: string)
    requires Enabled(s, CloseMarket(m))
    ensures Evolves(s, CloseMarketNext(s, m), false)
  {
  }

  lemma SendUpdateEvolves(s: State, h: nat, blocking: set<nat>)
    requires Enabled(s, SendUpdate(h, blocking))
    ensures Evolves(s, SendUpdateNext(s, h, blocking), true)
  {
  }

  lemma SendCandlesEvolves(s: State, f: nat)
    requires Enabled(s, SendCandles(f))
    ensures Evolves(s, SendCandlesNext(s, f), false)
  {
  }

  lemma StepIsSafe(s: State, e: Event)
    requires Inv(s) && Enabled(s, e)
    ensures Safe(Next(s, e)) && Evolves(s, Next(s, e), e.SendUpdate?)
  {
    match e {
      case SyncBook(m, answer) =>
        SyncIsSafe(s, m, answer);
        SyncEvolves(s, m, answer);
      case TakeSnapshot => SnapshotIsSafe(s);
      case StopTimer => StopTimerIsSafe(s);
      case AddFeed => AddFeedIsSafe(s);
      case CloseFeed(f) =>
        CloseFeedIsSafe(s, f);
        CloseFeedEvolves(s, f);
      case ArmTimer(b) => ArmTimerIsSafe(s, b);
      case TimerFires(b) => TimerFiresIsSafe(s, b);
      case TimerChecks(b) => TimerChecksIsSafe(s, b);
      case StopBook(m) =>
        StopBookIsSafe(s, m);
        StopBookEvolves(s, m);
      case CloseMarket(m) =>
        CloseMarketIsSafe(s, m);
        CloseMarketEvolves(s, m);
      case UpdateCert => UpdateCertIsSafe(s);
      case PeekBook(m, subscribed) => PeekBookIsSafe(s, m, subscribed);
      case Lookup(m) => LookupIsSafe(s, m);
      case ApplyUpdate(h) => ApplyUpdateIsSafe(s, h);
      case SendUpdate(h, blocking) =>
        SendUpdateIsSafe(s, h, blocking);
        SendUpdateEvolves(s, h, blocking);
      case SendCandles(f) =>
        SendCandlesIsSafe(s, f);
        SendCandlesEvolves(s, f);
    }
  }

  lemma StepKeepsBorn(s: State, e: Event)
    requires Inv(s) && Enabled(s, e)
    ensures BornOk(Next(s, e))
  {
    var t := Next(s, e);
    StepIsSafe(s, e);
    forall f | 0 <= f < |t.feeds|
      ensures FeedBorn(t, f)
    {
      if f < |s.feeds| {
        assert FeedBorn(s, f) && SameFeed(s.feeds[f], t.feeds[f]);
        assert t.feeds[f].sent[0] == s.feeds[f].sent[0];
      } else {
        OnlyAddFeedAdds(s, e);
      }
    }
  }

  lemma OnlyAddFeedAdds(s: State, e: Event)
    requires Enabled(s, e)
    ensures |Next(s, e).feeds| == |s.feeds| + if e == AddFeed then 1 else 0
  {
  }

  lemma StepKeepsInv(s: State, e: Event)
    requires Inv(s) && Enabled(s, e)
    ensures Inv(Next(s, e)) && Evolves(s, Next(s, e), e.SendUpdate?)
  {
    StepIsSafe(s, e);
    StepKeepsBorn(s, e);
  }

  // ---------- runs ----------

  predicate EnabledRun(s: State, es: seq<Event>)
    decreases |es|
  {
    es == [] || (Enabled(s, es[0]) && EnabledRun(Next(s, es[0]), es[1..]))
  }

  function Run(s: State, es: seq<Event>): State
    requires EnabledRun(s, es)
    decreases |es|
  {
    if es == [] then s else Run(Next(s, es[0]), es[1..])
  }

  lemma {:induction false} RunKeepsInv(s: State, es: seq<Event>)
    requires Inv(s) && EnabledRun(s, es)
    ensures Inv(Run(s, es))
    decreases |es|
  {
    if es != [] {
      StepKeepsInv(s, es[0]);
      RunKeepsInv(Next(s, es[0]), es[1..]);
    }
  }

  /** In every interleaving: no update is sent on a closed channel and no
      channel is closed twice; a bookie with feeds is the one booked for its
      market; a booked market was last subscribed to; every feed starts with
      the book; and a booked market without feeds is about to be closed. */
  lemma FeedsAreSafe(es: seq<Event>)
    requires EnabledRun(Start, es)
    ensures var s := Run(Start, es);
      && !s.panicked
      && (forall b :: 0 <= b < |s.bookies| && s.bookies[b].feeds != {} ==>
            s.bookies[b].market in s.books && s.books[s.bookies[b].market] == b)
      && (forall m :: m in s.books ==> m in s.last && s.last[m] == Subscribe)
      && (forall f :: 0 <= f < |s.feeds| ==> s.feeds[f].sent != [] && s.feeds[f].sent[0].FreshBook?)
      && (forall m :: m in s.books ==> BookOk(s, m))
  {
    RunKeepsInv(Start, es);
    var s := Run(Start, es);
    forall b | 0 <= b < |s.bookies| && s.bookies[b].feeds != {}
      ensures s.bookies[b].market in s.books && s.books[s.bookies[b].market] == b
    {
      var f :| f in s.bookies[b].feeds;
      assert FeedOk(s, b, f);
    }
    forall m | m in s.books
      ensures m in s.last && s.last[m] == Subscribe
    {
      assert BookOk(s, m);
    }
    forall f | 0 <= f < |s.feeds|
      ensures s.feeds[f].sent != [] && s.feeds[f].sent[0].FreshBook?
    {
      assert FeedBorn(s, f);
    }
  }

  // ---------- the connection ----------

  class Connection {
    var books: map<string, nat>
    var bookies: seq<Bookie>
    var feeds: seq<Feed>
    var sync: Sync
    var arming: multiset<nat>
    var firing: multiset<nat>
    var stops: multiset<string>
    var handlers: seq<Handler>
    var last: map<string, Action>
    var panicked: bool

    ghost function Value(): State
      reads this
    {
      State(books, bookies, feeds, sync, arming, firing, stops, handlers, last, panicked)
    }

    constructor ()
      ensures Value() == Start
    {
      books, bookies, feeds, sync := map[], [], [], Idle;
      arming, firing, stops := multiset{}, multiset{}, multiset{};
      handlers, last, panicked := [], map[], false;
    }

    /** Close the channels of a bookie's feeds and forget the feeds. */
    method CloseFeeds(b: nat)
      requires b < |bookies| && forall f :: f in bookies[b].feeds ==> f < |feeds|
      modifies this`bookies, this`feeds, this`panicked
      ensures bookies == old(bookies)[b := old(bookies)[b].(feeds := {})]
      ensures feeds == CloseAll(old(feeds), old(bookies)[b].feeds)
      ensures panicked <==> old(panicked) || !AllOpen(old(feeds), old(bookies)[b].feeds)
    {
      ghost var all, was := bookies[b].feeds, feeds;
      var todo := bookies[b].feeds;
      while todo != {}
        invariant todo <= all && |feeds| == |was| && bookies == old(bookies)
        invariant forall f :: 0 <= f < |feeds| ==>
                    feeds[f] == if f in all && f !in todo then was[f].(open := false) else was[f]
        invariant panicked <==> old(panicked) || !AllOpen(was, all - todo)
        decreases todo
      {
        var f :| f in todo;
        if !feeds[f].open {
          panicked := true;
        }
        feeds := feeds[f := feeds[f].(open := false)];
        assert all - (todo - {f}) == (all - todo) + {f};
        todo := todo - {f};
      }
      assert all - todo == all;
      bookies := bookies[b := bookies[b].(feeds := {})];
    }

    /** Send a message to every feed of a bookie that is not blocking. */
    method Send(b: nat, m: Msg, blocking: set<nat>)
      requires b < |bookies| && forall f :: f in bookies[b].feeds ==> f < |feeds|
      modifies this`feeds, this`panicked
      ensures feeds == Deliver(old(feeds), bookies[b].feeds - blocking, m)
      ensures panicked <==> old(panicked) || !AllOpen(old(feeds), bookies[b].feeds - blocking)
    {
      ghost var all, was := bookies[b].feeds, feeds;
      var todo := bookies[b].feeds;
      while todo != {}
        invariant todo <= all && |feeds| == |was|
        invariant forall f :: 0 <= f < |feeds| ==>
          feeds[f] == if f in all - blocking && f !in todo then was[f].(sent := was[f].sent + [m]) else was[f]
        invariant panicked <==> old(panicked) || !AllOpen(was, (all - todo) - blocking)
        decreases todo
      {
        var f :| f in todo;
        if f !in blocking {
          if !feeds[f].open {
            panicked := true;
          }
          feeds := feeds[f := feeds[f].(sent := feeds[f].sent + [m])];
        }
        assert (all - (todo - {f})) - blocking == ((all - todo) - blocking) + ({f} - blocking);
        todo := todo - {f};
      }
      assert all - todo == all;
    }

    /** The first part of a sync, up to having the market's bookie. */
    method BeginSync(market: string, answer: Answer) returns (ok: bool)
      requires Enabled(Value(), SyncBook(market, answer))
      modifies this
      ensures Value() == Next(old(Value()), SyncBook(market, answer))
      ensures ok <==> market in books
    {
      if market !in books {
        if answer == UnknownMarket {
          return false;
        }
        if answer == CannotSubscribe {
          last := last[market := SubscribeFailed];
          return false;
        }
        last := last[market := Subscribe];
        if answer == BadSnapshot {
          return false;
        }
        books := books[market := |bookies|];
        bookies := bookies + [Bookie(market, {}, NoTimer, 0, {})];
      }
      sync := HasBook(books[market]);
      ok := true;
    }

    /** Register a feed that starts with the book. */
    method NewFeed() returns (f: nat)
      requires Enabled(Value(), AddFeed)
      modifies this
      ensures Value() == Next(old(Value()), AddFeed)
      ensures f == |old(feeds)| < |feeds| && feeds[f].sent == [FreshBook(old(sync).version)]
    {
      f := |feeds|;
      feeds := feeds + [Feed(sync.b, true, [FreshBook(sync.version)])];
      bookies := bookies[sync.b := bookies[sync.b].(feeds := bookies[sync.b].feeds + {f})];
      sync := Idle;
    }

    /** Forget a feed; if it was the last, a timer is to be set. */
    method ForgetFeed(f: nat)
      requires Enabled(Value(), CloseFeed(f))
      modifies this`bookies, this`arming
      ensures Value() == Next(old(Value()), CloseFeed(f))
    {
      var b := feeds[f].bookie;
      bookies := bookies[b := bookies[b].(feeds := bookies[b].feeds - {f})];
      if bookies[b].feeds == {} {
        arming := arming + multiset{b};
      }
    }

    /** Unsubscribe and forget the market's bookie, unless it has feeds. */
    method StopMarket(market: string)
      requires Enabled(Value(), StopBook(market))
      modifies this
      ensures Value() == Next(old(Value()), StopBook(market))
    {
      stops := stops - multiset{market};
      if market in books {
        if bookies[books[market]].feeds != {} {
          return;
        }
        books := books - {market};
      }
      last := last[market := Unsubscribe];
      assert old(books) - {market} == books;
    }

    /** Close a bookie's feeds and stop its timer. */
    method EmptyBookie(b: nat)
      requires b < |bookies| && forall f :: f in bookies[b].feeds ==> f < |feeds|
      modifies this`bookies, this`feeds, this`panicked
      ensures bookies == old(bookies)[b := Emptied(old(bookies)[b])]
      ensures feeds == CloseAll(old(feeds), old(bookies)[b].feeds)
      ensures panicked <==> old(panicked) || !AllOpen(old(feeds), old(bookies)[b].feeds)
    {
      CloseFeeds(b);
      bookies := bookies[b := bookies[b].(timer := Stopped(bookies[b].timer))];
    }

    /** The timer's function: with no feeds, the market is to be stopped. */
    method CheckFeeds(b: nat)
      requires Enabled(Value(), TimerChecks(b))
      modifies this`firing, this`stops
      ensures Value() == Next(old(Value()), TimerChecks(b))
    {
      firing := firing - multiset{b};
      if bookies[b].feeds == {} {
        stops := stops + multiset{bookies[b].market};
      }
    }

    /** Stopping the connection, per market: close the feeds, stop the timer. */
    method CloseMarketFeeds(market: string)
      requires Inv(Value()) && Enabled(Value(), CloseMarket(market))
      modifies this
      ensures Value() == Next(old(Value()), CloseMarket(market))
    {
      if market in books {
        var b := books[market];
        RegisteredFeedsAreOpen(Value(), b);
        EmptyBookie(b);
      }
      stops := stops + multiset{market};
    }

    /** One round of the loop below. */
    method CloseBook(m: string, ghost s: State, ghost done: set<nat>)
      requires Inv(s) && m in books && Closing(s, books, bookies, feeds, panicked, done)
      modifies this`books, this`bookies, this`feeds, this`panicked
      ensures books == old(books) - {m}
      ensures Closing(s, books, bookies, feeds, panicked, done + {s.books[m]})
    {
      var b := books[m];
      ClosingStep(s, books, bookies, feeds, done, m);
      EmptyBookie(b);
      books := books - {m};
    }

    /** A new certificate: close every feed, stop every timer, forget every book. */
    method CloseAllBooks()
      requires Inv(Value()) && Enabled(Value(), UpdateCert)
      modifies this`books, this`bookies, this`feeds, this`panicked
      ensures Value() == Next(old(Value()), UpdateCert)
    {
      ghost var s := Value();
      ghost var done: set<nat> := {};
      while books != map[]
        invariant Closing(s, books, bookies, feeds, panicked, done)
        decreases books.Keys
      {
        var m :| m in books;
        CloseBook(m, s, done);
        done := done + {s.books[m]};
      }
      ClosingEnds(s, bookies, feeds, panicked, done);
    }
  }

  /** Midway through closing all books: the bookies in done are closed. */
  ghost predicate Closing(s: State, books: map<string, nat>, bookies: seq<Bookie>, feeds: seq<Feed>,
          panicked: bool, done: set<nat>) {
    !panicked && ClosingBooks(s, books, done) && ClosingBookies(s, bookies, done) && ClosingFeeds(s, feeds, done)
  }

  ghost predicate ClosingBooks(s: State, books: map<string, nat>, done: set<nat>) {
    && (forall m :: m in books ==> m in s.books && books[m] == s.books[m])
    && (forall m :: m in s.books && m !in books ==> s.books[m] in done)
    && (forall b :: b in done ==> exists m :: m in s.books && m !in books && s.books[m] == b)
  }

  ghost predicate ClosingBookies(s: State, bookies: seq<Bookie>, done: set<nat>) {
    && |bookies| == |s.bookies|
    && forall b :: 0 <= b < |bookies| ==> bookies[b] == if b in done then Emptied(s.bookies[b]) else s.bookies[b]
  }

  ghost predicate ClosingFeeds(s: State, feeds: seq<Feed>, done: set<nat>) {
    && |feeds| == |s.feeds|
    && forall f :: 0 <= f < |feeds| ==>
         feeds[f] == if ClosedBy(s, f, done) then s.feeds[f].(open := false) else s.feeds[f]
  }

  lemma ClosingBooksStep(s: State, books: map<string, nat>, done: set<nat>, m: string)
    requires Inv(s) && m in books && ClosingBooks(s, books, done)
    ensures books[m] !in done && ClosingBooks(s, books - {m}, done + {books[m]})
  {
    BookieHasOneMarket(s, m);
    var books' := books - {m};
    forall b | b in done + {books[m]}
      ensures exists n :: n in s.books && n !in books' && s.books[n] == b
    {
      if b == books[m] {
        assert m in s.books && m !in books' && s.books[m] == b;
      } else {
        var n :| n in s.books && n !in books && s.books[n] == b;
        assert n !in books';
      }
    }
  }

  lemma ClosingFeedsStep(s: State, feeds: seq<Feed>, done: set<nat>, b: nat)
    requires Inv(s) && b < |s.bookies| && b !in done && ClosingFeeds(s, feeds, done)
    ensures AllOpen(feeds, s.bookies[b].feeds)
    ensures ClosingFeeds(s, CloseAll(feeds, s.bookies[b].feeds), done + {b})
  {
    FeedsHaveOneBookie(s, b, done);
  }

  lemma ClosingStep(s: State, books: map<string, nat>, bookies: seq<Bookie>, feeds: seq<Feed>, done: set<nat>,
          m: string)
    requires Inv(s) && m in books && Closing(s, books, bookies, feeds, false, done)
    ensures books[m] < |bookies| && AllOpen(feeds, bookies[books[m]].feeds)
    ensures var b := books[m];
      Closing(s, books - {m}, bookies[b := Emptied(bookies[b])], CloseAll(feeds, bookies[b].feeds), false, done + {b})
  {
    BookieHasOneMarket(s, m);
    ClosingBooksStep(s, books, done, m);
    ClosingFeedsStep(s, feeds, done, books[m]);
  }

  lemma ClosingEnds(s: State, bookies: seq<Bookie>, feeds: seq<Feed>, panicked: bool, done: set<nat>)
    requires Inv(s) && Enabled(s, UpdateCert) && Closing(s, map[], bookies, feeds, panicked, done)
    ensures s.(books := map[], bookies := bookies, feeds := feeds, panicked := panicked) == Next(s, UpdateCert)
  {
    assert done == Booked(s);
    BookedFeedsAreClosed(s);
    var t := Next(s, UpdateCert);
    assert feeds == t.feeds;
    assert bookies == t.bookies;
  }

  /** The feed is registered with one of the bookies. */
  predicate ClosedBy(s: State, f: nat, done: set<nat>)
    requires f < |s.feeds|
  {
    s.feeds[f].bookie in done && s.feeds[f].bookie < |s.bookies| && f in s.bookies[s.feeds[f].bookie].feeds
  }

  lemma BookieHasOneMarket(s: State, m: string)
    requires Inv(s) && m in s.books
    ensures s.books[m] < |s.bookies|
    ensures forall n :: n in s.books && s.books[n] == s.books[m] ==> n == m
  {
    assert BookOk(s, m);
    forall n | n in s.books && s.books[n] == s.books[m]
      ensures n == m
    {
      assert BookOk(s, n);
    }
  }

  lemma FeedsHaveOneBookie(s: State, b: nat, done: set<nat>)
    requires Inv(s) && b < |s.bookies| && b !in done
    ensures forall f :: f in s.bookies[b].feeds ==>
              f < |s.feeds| && s.feeds[f].open && !ClosedBy(s, f, done) && ClosedBy(s, f, done + {b})
    ensures forall f :: 0 <= f < |s.feeds| && f !in s.bookies[b].feeds ==>
              (ClosedBy(s, f, done + {b}) <==> ClosedBy(s, f, done))
  {
    forall f | f in s.bookies[b].feeds
      ensures f < |s.feeds| && s.feeds[f].open && !ClosedBy(s, f, done) && ClosedBy(s, f, done + {b})
    {
      assert FeedOk(s, b, f);
    }
  }

  lemma BookedFeedsAreClosed(s: State)
    requires Inv(s)
    ensures forall f :: 0 <= f < |s.feeds| ==> (f in BookedFeeds(s) <==> ClosedBy(s, f, Booked(s)))
    ensures AllOpen(s.feeds, BookedFeeds(s))
  {
    forall f | f in BookedFeeds(s)
      ensures f < |s.feeds| && s.feeds[f].open && ClosedBy(s, f, Booked(s))
    {
      var b :| b in Booked(s) && b < |s.bookies| && f in s.bookies[b].feeds;
      assert FeedOk(s, b, f);
    }
  }
}
