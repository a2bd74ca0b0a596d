/** The promise of rotation over whole runs: the tier of an account never drops
    below its target. Every event is one critical section. A rotation is two of
    them, the screening that says how much to post and the posting, and
    anything may happen in between. */
module TimedRotation {
  import opened Basics
  import opened Bonds
  import opened BondTiming
  import opened BondLedger
  import opened BondRotation

  /** What an account rotates for. */
  datatype Plan = Plan(net: Network, server: ServerConfig, target: nat, comps: nat)

  datatype Timed = At(time: int, step: Step)

  function Cfg(p: Plan, now: int): BondCfg {
    DexBondConfig(p.net, now, Some(p.server))
  }

  /** The server expires a bond no earlier than its expiry, and so does the
      screening of the lists. */
  ghost predicate EnabledTimed(p: Plan, a: Account, e: Timed) {
    && Enabled(a, e.step)
    && (e.step.Screened? ==> ServerExpires(e.step.lockTimeThresh, p.server.bondExpiry, e.time))
    && (e.step.ServerExpired? ==>
          forall b :: b in a.ledger.live && KeyOf(b) == e.step.key ==>
            ServerExpires(b.lockTime, p.server.bondExpiry, e.time))
  }

  function RunTimed(a: Account, run: seq<Timed>): Account
    decreases |run|
  {
    if run == [] then a else RunTimed(Next(a, run[0].step), run[1..])
  }

  ghost predicate EnabledTimedRun(p: Plan, a: Account, run: seq<Timed>)
    decreases |run|
  {
    run == [] || (EnabledTimed(p, a, run[0]) && EnabledTimedRun(p, Next(a, run[0].step), run[1..]))
  }

  /** The state after the first n events. */
  function StateAt(a: Account, run: seq<Timed>, n: nat): Account
    requires n <= |run|
  {
    RunTimed(a, run[..n])
  }

  ghost predicate TimeOrdered(run: seq<Timed>) {
    forall i, j :: 0 <= i < j < |run| ==> run[i].time <= run[j].time
  }

  lemma {:induction false} AfterEvent(a: Account, run: seq<Timed>, i: nat)
    requires i < |run|
    ensures StateAt(a, run, i + 1) == Next(StateAt(a, run, i), run[i].step)
    decreases i
  {
    assert run[..i + 1][0] == run[0] && run[..i + 1][1..] == run[1..][..i];
    if i == 0 {
      assert run[..0] == [] && run[1..][..0] == [];
      assert RunTimed(Next(a, run[0].step), []) == Next(a, run[0].step);
    } else {
      AfterEvent(Next(a, run[0].step), run[1..], i - 1);
      assert run[..i][0] == run[0] && run[..i][1..] == run[1..][..i - 1];
    }
  }

  /** Every event of a run finds a valid account and is enabled there. */
  lemma {:induction false} StatesAreValid(p: Plan, a: Account, run: seq<Timed>, i: nat)
    requires i <= |run| && Valid(a) && EnabledTimedRun(p, a, run)
    ensures Valid(StateAt(a, run, i))
    ensures i < |run| ==> EnabledTimed(p, StateAt(a, run, i), run[i])
    decreases i
  {
    if i == 0 {
      assert run[..0] == [];
    } else {
      StepKeepsValid(a, run[0].step);
      StatesAreValid(p, Next(a, run[0].step), run[1..], i - 1);
      assert run[..i][0] == run[0] && run[..i][1..] == run[1..][..i - 1];
    }
  }

  // ---------- bonds stay until they expire ----------

  function Held(l: Ledger, r: Bond): nat {
    Copies(l.pending, r) + Copies(l.live, r)
  }

  lemma {:induction false} CopiesAreCounted(bs: seq<Bond>, r: Bond)
    ensures Copies(bs, r) <= Count(bs, KeyOf(r))
  {
    if bs != [] {
      CopiesAreCounted(bs[1..], r);
      assert KeyOf(Record(bs[0])) == KeyOf(bs[0]);
    }
  }

  /** Posting adds the bond posted. */
  lemma PostingAdds(l: Ledger, b: Bond, r: Bond)
    ensures Held(Post(l, b), r) == Held(l, r) + Copies([b], r)
  {
    CopiesConcat(l.pending, [b], r);
  }

  /** No step takes away a bond before the server would expire it. */
  lemma UnexpiredBondsStay(p: Plan, a: Account, e: Timed, r: Bond)
    requires EnabledTimed(p, a, e)
    requires !ServerExpires(r.lockTime, p.server.bondExpiry, e.time)
    ensures Held(Next(a, e.step).ledger, r) >= Held(a.ledger, r)
  {
    var l := a.ledger;
    match e.step {
      case Posted(b) => PostingAdds(l, b, r);
      case Confirmed(k) => ConfirmCounts(l, k, k, r);
      case Screened(thresh) => ScreenCopies(l, thresh, r);
      case ServerExpired(k) =>
        ExpireCounts(l, k, k, r);
        var i := IndexOf(l.live, k);
        if i < |l.live| {
          assert l.live[i] in l.live;
          assert Record(l.live[i]).lockTime == l.live[i].lockTime;
        }
      case Refunded(_) =>
      case Resorted(_) =>
    }
  }

  lemma {:induction false} UnexpiredBondsStayInRun(p: Plan, a: Account, run: seq<Timed>, i: nat, n: nat, r: Bond,
          t: int)
    requires Valid(a) && EnabledTimedRun(p, a, run)
    requires i <= n <= |run| && forall j :: i <= j < n ==> run[j].time <= t
    requires !ServerExpires(r.lockTime, p.server.bondExpiry, t)
    ensures Held(StateAt(a, run, n).ledger, r) >= Held(StateAt(a, run, i).ledger, r)
    decreases n - i
  {
    if i < n {
      StatesAreValid(p, a, run, i);
      AfterEvent(a, run, i);
      UnexpiredBondsStay(p, StateAt(a, run, i), run[i], r);
      UnexpiredBondsStayInRun(p, a, run, i + 1, n, r, t);
    }
  }

  // ---------- rotations ----------

  /** What must be posted, as the screening at event i finds it. */
  function DueAt(p: Plan, a: Account, run: seq<Timed>, i: nat, deficit: int): nat
    requires i < |run|
  {
    MustPost(Strong(StateAt(a, run, i).ledger, Cfg(p, run[i].time)), p.target, deficit, p.comps)
  }

  /** A rotation in full: event i screens the lists, and event j posts all that
      must be posted as one bond that is not weak; or there is nothing to post. */
  predicate FullRotation(p: Plan, a: Account, run: seq<Timed>, i: nat, j: nat, deficit: int) {
    && i <= j < |run|
    && run[i].step == Screened(Cfg(p, run[i].time).lockTimeThresh)
    && if i == j then DueAt(p, a, run, i, deficit) == 0
       else
         && run[j].step.Posted?
         && run[j].step.bond.lockTime > Cfg(p, run[i].time).replaceThresh
         && StrengthOf(run[j].step.bond, p.server.assets) == DueAt(p, a, run, i, deficit)
  }

  /** The bonds a full rotation relies on: those that were not weak, and the new one. */
  function Pillars(p: Plan, a: Account, run: seq<Timed>, i: nat, j: nat): seq<Bond>
    requires i <= j < |run| && (i < j ==> run[j].step.Posted?)
  {
    var l := StateAt(a, run, i).ledger;
    Above(l.live + l.pending, Cfg(p, run[i].time).replaceThresh)
      + if i < j then [run[j].step.bond] else []
  }

  /** Together they are worth the target. */
  lemma PillarsCarryTarget(p: Plan, a: Account, run: seq<Timed>, i: nat, j: nat, deficit: int)
    requires FullRotation(p, a, run, i, j, deficit)
    ensures SumStrengths(Pillars(p, a, run, i, j), p.server.assets) >= p.target
  {
    var l := StateAt(a, run, i).ledger;
    var strong := Above(l.live + l.pending, Cfg(p, run[i].time).replaceThresh);
    var extra := if i < j then [run[j].step.bond] else [];
    SumStrengthsConcat(strong, extra, p.server.assets);
    assert i < j ==> extra[1..] == [];
  }

  lemma PillarsAreLocked(p: Plan, a: Account, run: seq<Timed>, i: nat, j: nat, deficit: int, r: Bond)
    requires FullRotation(p, a, run, i, j, deficit) && Copies(Pillars(p, a, run, i, j), r) > 0
    ensures r.lockTime > Cfg(p, run[i].time).replaceThresh
  {
    var l := StateAt(a, run, i).ledger;
    var thresh := Cfg(p, run[i].time).replaceThresh;
    var strong := Above(l.live + l.pending, thresh);
    SelectedCopies(l.live + l.pending, thresh, r);
    if i < j {
      CopiesConcat(strong, [run[j].step.bond], r);
      Single(run[j].step.bond, KeyOf(r), r);
      assert Record(run[j].step.bond).lockTime == run[j].step.bond.lockTime;
    } else {
      assert strong + [] == strong;
    }
  }

  /** They are held after the posting, whatever happened since the screening. */
  lemma PillarsAreHeld(p: Plan, a: Account, run: seq<Timed>, i: nat, j: nat, deficit: int, r: Bond, t: int)
    requires Valid(a) && EnabledTimedRun(p, a, run) && FullRotation(p, a, run, i, j, deficit)
    requires forall k :: i <= k <= j ==> run[k].time <= t
    requires !ServerExpires(r.lockTime, p.server.bondExpiry, t)
    ensures Copies(Pillars(p, a, run, i, j), r) <= Held(StateAt(a, run, j + 1).ledger, r)
  {
    var l := StateAt(a, run, i).ledger;
    var thresh := Cfg(p, run[i].time).replaceThresh;
    var strong := Above(l.live + l.pending, thresh);
    SelectedCopies(l.live + l.pending, thresh, r);
    CopiesConcat(l.live, l.pending, r);
    AfterEvent(a, run, j);
    if i < j {
      UnexpiredBondsStayInRun(p, a, run, i, j, r, t);
      PostingAdds(StateAt(a, run, j).ledger, run[j].step.bond, r);
      CopiesConcat(strong, [run[j].step.bond], r);
    } else {
      UnexpiredBondsStayInRun(p, a, run, i, i + 1, r, t);
      assert strong + [] == strong;
    }
  }

  // ---------- the tier ----------

  /** The bonds of the list that the server has not expired at t. */
  function Unexpired(bs: seq<Bond>, bondExpiry: nat, t: int): seq<Bond> {
    if bs == [] then []
    else (if ServerExpires(bs[0].lockTime, bondExpiry, t) then [] else [bs[0]]) + Unexpired(bs[1..], bondExpiry, t)
  }

  /** Strength of the confirmed bonds that the server has not expired at t. */
  function TierAt(p: Plan, l: Ledger, t: int): nat {
    SumStrengths(Unexpired(l.live, p.server.bondExpiry, t), p.server.assets)
  }

  lemma {:induction false} UnexpiredCopies(bs: seq<Bond>, bondExpiry: nat, t: int, r: Bond)
    ensures Copies(Unexpired(bs, bondExpiry, t), r) ==
      if ServerExpires(r.lockTime, bondExpiry, t) then 0 else Copies(bs, r)
  {
    if bs != [] {
      UnexpiredCopies(bs[1..], bondExpiry, t, r);
      assert Record(bs[0]).lockTime == bs[0].lockTime;
      Single(bs[0], KeyOf(r), r);
      if ServerExpires(bs[0].lockTime, bondExpiry, t) {
        assert Unexpired(bs, bondExpiry, t) == Unexpired(bs[1..], bondExpiry, t);
      } else {
        CopiesConcat([bs[0]], Unexpired(bs[1..], bondExpiry, t), r);
      }
    }
  }

  lemma KnownBondsAreNotPending(a: Account, pending: seq<Bond>, r: Bond)
    requires Valid(a) && Held(a.ledger, r) > 0
    requires forall b :: b in pending ==> KeyOf(b) !in a.known
    ensures Copies(pending, r) == 0
  {
    CopiesAreCounted(a.ledger.pending, r);
    CopiesAreCounted(a.ledger.live, r);
    assert Places(a.ledger, KeyOf(r)) > 0;
    CopiesAreCounted(pending, r);
    CountMember(pending, KeyOf(r));
    assert forall i :: 0 <= i < |pending| ==> pending[i] in pending;
  }

  lemma KnownBondsCount(a: Account, l: Ledger, bondExpiry: nat, t: int, r: Bond)
    requires Valid(a) && Held(a.ledger, r) <= Held(l, r) && !ServerExpires(r.lockTime, bondExpiry, t)
    requires forall b :: b in l.pending ==> KeyOf(b) !in a.known
    ensures Held(a.ledger, r) <= Copies(Unexpired(l.live, bondExpiry, t), r)
  {
    if Held(a.ledger, r) > 0 {
      KnownBondsAreNotPending(a, l.pending, r);
      UnexpiredCopies(l.live, bondExpiry, t, r);
    }
  }

  /** Bonds that were known when event i ended, at least `confirm` seconds ago,
      are no longer pending after n events. */
  ghost predicate ConfirmedInTime(a: Account, run: seq<Timed>, n: nat, t: int, confirm: nat)
    requires n <= |run|
  {
    forall i :: 0 <= i < n && run[i].time + confirm <= t ==> NonePending(a, run, i, n)
  }

  ghost predicate NonePending(a: Account, run: seq<Timed>, i: nat, n: nat)
    requires i < n <= |run|
  {
    forall b :: b in StateAt(a, run, n).ledger.pending ==> KeyOf(b) !in StateAt(a, run, i + 1).known
  }

  /** What is held after event j and unexpired at t is confirmed by then. */
  lemma HeldBondsCount(p: Plan, a: Account, run: seq<Timed>, j: nat, n: nat, t: int, r: Bond)
    requires Valid(a) && EnabledTimedRun(p, a, run)
    requires j < n <= |run| && forall k :: 0 <= k < n ==> run[k].time <= t
    requires !ServerExpires(r.lockTime, p.server.bondExpiry, t) && NonePending(a, run, j, n)
    ensures Held(StateAt(a, run, j + 1).ledger, r)
         <= Copies(Unexpired(StateAt(a, run, n).ledger.live, p.server.bondExpiry, t), r)
  {
    var known, l := StateAt(a, run, j + 1), StateAt(a, run, n).ledger;
    assert Held(known.ledger, r) <= Held(l, r) by {
      UnexpiredBondsStayInRun(p, a, run, j + 1, n, r, t);
    }
    assert Valid(known) by {
      StatesAreValid(p, a, run, j + 1);
    }
    KnownBondsCount(known, l, p.server.bondExpiry, t, r);
  }

  /** At t, each bond that the rotation relies on is confirmed and unexpired. */
  lemma PillarsCount(p: Plan, a: Account, run: seq<Timed>, i: nat, j: nat, deficit: int, n: nat, t: int, r: Bond)
    requires Valid(a) && EnabledTimedRun(p, a, run) && FullRotation(p, a, run, i, j, deficit)
    requires j < n <= |run| && forall k :: 0 <= k < n ==> run[k].time <= t
    requires t <= run[i].time + PendingBuffer(p.net) && NonePending(a, run, j, n)
    ensures Copies(Pillars(p, a, run, i, j), r)
         <= Copies(Unexpired(StateAt(a, run, n).ledger.live, p.server.bondExpiry, t), r)
  {
    if Copies(Pillars(p, a, run, i, j), r) > 0 {
      PillarsAreLocked(p, a, run, i, j, deficit, r);
      PillarsAreHeld(p, a, run, i, j, deficit, r, t);
      HeldBondsCount(p, a, run, j, n, t, r);
    }
  }

  /** A full rotation that started no longer than the pending buffer ago and
      whose bond has had time to confirm carries the tier. */
  lemma RotationCarriesTier(p: Plan, a: Account, run: seq<Timed>, i: nat, j: nat, deficit: int, n: nat, t: int,
          confirm: nat)
    requires Valid(a) && EnabledTimedRun(p, a, run) && FullRotation(p, a, run, i, j, deficit)
    requires j < n <= |run| && forall k :: 0 <= k < n ==> run[k].time <= t
    requires t - PendingBuffer(p.net) <= run[i].time && run[j].time + confirm <= t
    requires ConfirmedInTime(a, run, n, t, confirm)
    ensures TierAt(p, StateAt(a, run, n).ledger, t) >= p.target
  {
    var tier := Unexpired(StateAt(a, run, n).ledger.live, p.server.bondExpiry, t);
    assert NonePending(a, run, j, n);
    forall r
      ensures Copies(Pillars(p, a, run, i, j), r) <= Copies(tier, r)
    {
      PillarsCount(p, a, run, i, j, deficit, n, t, r);
    }
    StrengthGrows(Pillars(p, a, run, i, j), tier, p.server.assets);
    PillarsCarryTarget(p, a, run, i, j, deficit);
  }

  // ---------- every run, every instant ----------

  /** At t exactly the first n events have happened. */
  predicate Instant(run: seq<Timed>, n: nat, t: int) {
    && n <= |run|
    && (n > 0 ==> run[n - 1].time <= t)
    && (n < |run| ==> t < run[n].time)
  }

  /** Where the rotations of a run begin and end, and the deficit each finds. */
  datatype Rotation = Rotation(start: nat, end: nat, deficit: int)

  /** The rotations are in full; each posts within `post` seconds of its start,
      and the next starts within `gap` seconds. */
  ghost predicate Regular(p: Plan, a: Account, run: seq<Timed>, rots: seq<Rotation>, gap: nat, post: nat) {
    && (forall k :: 0 <= k < |rots| ==>
          && FullRotation(p, a, run, rots[k].start, rots[k].end, rots[k].deficit)
          && run[rots[k].end].time <= run[rots[k].start].time + post)
    && (forall k :: 0 < k < |rots| ==> run[rots[k].start].time <= run[rots[k - 1].start].time + gap)
  }

  /** The last rotation that started by u. */
  lemma {:induction false} LastStarted(p: Plan, a: Account, run: seq<Timed>, rots: seq<Rotation>, gap: nat,
          post: nat, u: int)
    returns (k: nat)
    requires Regular(p, a, run, rots, gap, post) && rots != [] && run[rots[0].start].time <= u
    ensures k < |rots| && run[rots[k].start].time <= u
    ensures k == |rots| - 1 || u - gap < run[rots[k].start].time
    decreases |rots|
  {
    var n := |rots| - 1;
    if n == 0 || run[rots[n].start].time <= u {
      return n;
    }
    k := LastStarted(p, a, run, rots[..n], gap, post, u);
    if k == n - 1 {
      assert run[rots[n].start].time <= run[rots[n - 1].start].time + gap;
    }
  }

  lemma HappenedBefore(run: seq<Timed>, n: nat, t: int, i: nat)
    requires TimeOrdered(run) && Instant(run, n, t) && i < |run|
    ensures run[i].time <= t <==> i < n
  {
    if i < n - 1 {
      assert run[i].time <= run[n - 1].time;
    } else if i > n {
      assert run[n].time <= run[i].time;
    }
  }

  /** From the time the first rotation has had to post and confirm, until the
      next rotation after the last should have. */
  predicate InWindow(run: seq<Timed>, rots: seq<Rotation>, gap: nat, wait: nat, t: int)
    requires rots != [] && rots[0].start < |run| && rots[|rots| - 1].start < |run|
  {
    run[rots[0].start].time + wait <= t <= run[rots[|rots| - 1].start].time + gap + wait
  }

  /** The promise of rotation. In every run, if full rotations start at most
      `gap` seconds apart and post within `post`, bonds confirm within
      `confirm`, and the three fit into the pending buffer together, then at
      every instant of that time the confirmed, unexpired strength is at least
      the target. */
  lemma RotationNeverDropsTier(p: Plan, a: Account, run: seq<Timed>, rots: seq<Rotation>, gap: nat, post: nat,
          confirm: nat)
    requires Valid(a) && EnabledTimedRun(p, a, run) && TimeOrdered(run)
    requires Regular(p, a, run, rots, gap, post) && rots != []
    requires gap + post + confirm <= PendingBuffer(p.net)
    requires forall n, t :: Instant(run, n, t) ==> ConfirmedInTime(a, run, n, t, confirm)
    ensures forall n, t :: Instant(run, n, t) && InWindow(run, rots, gap, post + confirm, t) ==>
                             TierAt(p, StateAt(a, run, n).ledger, t) >= p.target
  {
    forall n: nat, t | Instant(run, n, t) && InWindow(run, rots, gap, post + confirm, t)
      ensures TierAt(p, StateAt(a, run, n).ledger, t) >= p.target
    {
      var k := LastStarted(p, a, run, rots, gap, post, t - post - confirm);
      var rot := rots[k];
      HappenedBefore(run, n, t, rot.end);
      forall i | 0 <= i < n
        ensures run[i].time <= t
      {
        HappenedBefore(run, n, t, i);
      }
      RotationCarriesTier(p, a, run, rot.start, rot.end, rot.deficit, n, t, confirm);
    }
  }
}
