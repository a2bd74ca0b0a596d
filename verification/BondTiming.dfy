/** The timing of bond rotation: how long a bond is locked, when it needs a
    replacement, and why replacing it then never leaves a gap and never needs
    more than two bonds' worth of funds. Times are Unix seconds. */
module BondTiming {
  import opened Basics
  import opened Bonds

  /** Seconds before expiry at which a replacement is posted. */
  function PendingBuffer(net: Network): (s: nat)
    ensures s >= 90
  {
    match net
    case Mainnet => 90 * 60
    case Testnet => 20 * 60
    case Simnet => 90
  }

  /** A high estimate of the seconds from lock time to spendable. */
  function SpendableDelay(net: Network): nat {
    3 * PendingBuffer(net)
  }

  function MinBondLifetime(net: Network, bondExpiry: nat): nat {
    2 * (PendingBuffer(net) + bondExpiry) + SpendableDelay(net)
  }

  /** The server counts a bond as active until its expiry before the lock time. */
  predicate ServerExpires(lockTime: int, bondExpiry: nat, t: int) {
    lockTime - bondExpiry <= t
  }

  // ---------- an unbounded chain of bonds, each replacing the one before ----------

  /** When bond k of the chain is posted, confirmed and refunded. */
  datatype Chain = Chain(posted: nat -> int, confirmed: nat -> int, refunded: nat -> int)

  /** The instant from which bond k counts as weak: its lock time less expiry and buffer. */
  function WeakAt(c: Chain, life: int, bondExpiry: nat, net: Network, k: nat): int {
    c.posted(k) + life - bondExpiry - PendingBuffer(net)
  }

  /** Bond k is confirmed and the server has not expired it. */
  predicate CoversAt(c: Chain, life: int, bondExpiry: nat, k: nat, t: int) {
    c.confirmed(k) <= t < c.posted(k) + life - bondExpiry
  }

  predicate OutstandingAt(c: Chain, k: nat, t: int) {
    c.posted(k) <= t < c.refunded(k)
  }

  /** Bond k is replaced once it is weak; posting delay and confirmation of the
      replacement together take at most the pending buffer; funds come back
      within the spendable delay after the lock time. */
  ghost predicate AdmissibleAt(c: Chain, life: int, bondExpiry: nat, net: Network, k: nat) {
    && c.posted(k) <= c.confirmed(k)
    && WeakAt(c, life, bondExpiry, net, k) <= c.posted(k + 1)
    && c.confirmed(k + 1) <= WeakAt(c, life, bondExpiry, net, k) + PendingBuffer(net)
    && c.posted(k) + life <= c.refunded(k) <= c.posted(k) + life + SpendableDelay(net)
  }

  ghost predicate Admissible(c: Chain, life: int, bondExpiry: nat, net: Network) {
    forall k: nat :: AdmissibleAt(c, life, bondExpiry, net, k)
  }

  /** Bond k's funds are back when bond k+1 turns weak, that is when bond k+2 is due. */
  ghost predicate FundsBackInTime(c: Chain, life: int, bondExpiry: nat, net: Network) {
    forall k: nat :: BackInTime(c, life, bondExpiry, net, k)
  }

  predicate BackInTime(c: Chain, life: int, bondExpiry: nat, net: Network, k: nat) {
    c.refunded(k) <= WeakAt(c, life, bondExpiry, net, k + 1)
  }

  /** No gap: from the first confirmation on, some bond of the chain is
      confirmed and unexpired at every instant. */
  lemma {:induction false} ChainHasNoGap(c: Chain, life: int, bondExpiry: nat, net: Network, k: nat, t: int)
    returns (n: nat)
    requires Admissible(c, life, bondExpiry, net)
    requires life > bondExpiry + PendingBuffer(net)
    requires c.confirmed(k) <= t
    ensures n >= k && CoversAt(c, life, bondExpiry, n, t)
    decreases Max(0, t + 1 - c.posted(k))
  {
    if t < c.posted(k) + life - bondExpiry {
      n := k;
    } else {
      assert AdmissibleAt(c, life, bondExpiry, net, k);
      assert AdmissibleAt(c, life, bondExpiry, net, k + 1);
      n := ChainHasNoGap(c, life, bondExpiry, net, k + 1, t);
    }
  }

  lemma {:induction false} LaterBondsArePostedLater(c: Chain, life: int, bondExpiry: nat, net: Network, i: nat, j: nat)
    requires Admissible(c, life, bondExpiry, net)
    requires life >= bondExpiry + PendingBuffer(net)
    requires i <= j
    ensures c.posted(i) <= c.posted(j)
    decreases j
  {
    if i < j {
      LaterBondsArePostedLater(c, life, bondExpiry, net, i, j - 1);
      assert AdmissibleAt(c, life, bondExpiry, net, j - 1);
    }
  }

  /** The funds of bond k are back when bond k+2 is due. */
  lemma LongEnoughLifeBringsFundsBack(c: Chain, life: int, bondExpiry: nat, net: Network, k: nat)
    requires Admissible(c, life, bondExpiry, net)
    requires life >= MinBondLifetime(net, bondExpiry)
    ensures c.refunded(k) <= WeakAt(c, life, bondExpiry, net, k + 1) <= c.posted(k + 2)
  {
    assert AdmissibleAt(c, life, bondExpiry, net, k);
    assert AdmissibleAt(c, life, bondExpiry, net, k + 1);
  }

  /** With the minimum lifetime, two outstanding bonds are always neighbours in
      the chain: funds for two bonds sustain the rotation forever. */
  lemma AtMostTwoOutstanding(c: Chain, bondExpiry: nat, net: Network, i: nat, j: nat, t: int)
    requires Admissible(c, MinBondLifetime(net, bondExpiry), bondExpiry, net)
    requires i <= j && OutstandingAt(c, i, t) && OutstandingAt(c, j, t)
    ensures j <= i + 1
  {
    LongEnoughLifeBringsFundsBack(c, MinBondLifetime(net, bondExpiry), bondExpiry, net, i);
    if j >= i + 2 {
      LaterBondsArePostedLater(c, MinBondLifetime(net, bondExpiry), bondExpiry, net, i + 2, j);
      assert false;
    }
  }

  /** A chain in which a shorter lifetime does not bring the funds back in time. */
  lemma ShortLifeComesTooLate(life: nat, bondExpiry: nat, net: Network) returns (c: Chain)
    requires bondExpiry + PendingBuffer(net) <= life < MinBondLifetime(net, bondExpiry)
    ensures Admissible(c, life, bondExpiry, net) && !FundsBackInTime(c, life, bondExpiry, net)
  {
    var gap := life - bondExpiry - PendingBuffer(net);
    var delay := SpendableDelay(net);
    c := Chain(k => k * gap, k => k * gap, k => k * gap + life + delay);
    SteadyChainIsAdmissible(c, life, bondExpiry, net, gap, delay);
    assert c.refunded(0) == life + delay;
    assert WeakAt(c, life, bondExpiry, net, 0 + 1) == c.posted(1) + gap == gap + gap;
    assert !BackInTime(c, life, bondExpiry, net, 0);
  }

  ghost predicate AlwaysBackInTime(life: nat, bondExpiry: nat, net: Network) {
    forall c :: Admissible(c, life, bondExpiry, net) ==> FundsBackInTime(c, life, bondExpiry, net)
  }

  lemma LongEnoughIsAlwaysInTime(c: Chain, life: nat, bondExpiry: nat, net: Network)
    requires life >= MinBondLifetime(net, bondExpiry)
    requires Admissible(c, life, bondExpiry, net)
    ensures FundsBackInTime(c, life, bondExpiry, net)
  {
    forall k: nat
      ensures BackInTime(c, life, bondExpiry, net, k)
    {
      LongEnoughLifeBringsFundsBack(c, life, bondExpiry, net, k);
    }
  }

  /** The minimum lifetime is exact. Among lifetimes that reach the weak point
      at all, funds are back in time in every admissible chain if and only if
      the lifetime is at least twice expiry plus buffer, plus the spendable delay. */
  lemma MinBondLifetimeIsExact(life: nat, bondExpiry: nat, net: Network)
    requires life >= bondExpiry + PendingBuffer(net)
    ensures AlwaysBackInTime(life, bondExpiry, net) <==> life >= MinBondLifetime(net, bondExpiry)
  {
    if life >= MinBondLifetime(net, bondExpiry) {
      forall c | Admissible(c, life, bondExpiry, net)
        ensures FundsBackInTime(c, life, bondExpiry, net)
      {
        LongEnoughIsAlwaysInTime(c, life, bondExpiry, net);
      }
    } else {
      var c := ShortLifeComesTooLate(life, bondExpiry, net);
      assert !AlwaysBackInTime(life, bondExpiry, net);
    }
  }

  lemma SteadyChainIsAdmissible(c: Chain, life: nat, bondExpiry: nat, net: Network, gap: nat, delay: nat)
    requires gap == life - bondExpiry - PendingBuffer(net) && delay == SpendableDelay(net)
    requires forall k: nat :: c.posted(k) == k * gap
    requires forall k: nat :: c.confirmed(k) == k * gap
    requires forall k: nat :: c.refunded(k) == k * gap + life + delay
    ensures Admissible(c, life, bondExpiry, net)
  {
    forall k: nat
      ensures AdmissibleAt(c, life, bondExpiry, net, k)
    {
      assert (k + 1) * gap == k * gap + gap;
    }
  }

  /** The chain's notions are the server's: a bond covers while it is confirmed
      and the server has not expired it, and is weak once the server will have
      expired it a pending buffer later. */
  lemma ChainFollowsServer(c: Chain, life: int, bondExpiry: nat, net: Network, k: nat, t: int)
    ensures var lockTime := c.posted(k) + life;
      && (CoversAt(c, life, bondExpiry, k, t) <==> c.confirmed(k) <= t && !ServerExpires(lockTime, bondExpiry, t))
      && (WeakAt(c, life, bondExpiry, net, k) <= t <==> ServerExpires(lockTime, bondExpiry, t + PendingBuffer(net)))
  {
  }

  // ---------- thresholds and the lock time of a new bond ----------

  /** A bond is expired once its lock time is at or below this. */
  function LockTimeThresh(now: int, bondExpiry: nat): int {
    now + bondExpiry
  }

  /** A bond is weak, and needs a replacement, once its lock time is at or below this. */
  function ReplaceThresh(net: Network, now: int, bondExpiry: nat): int {
    LockTimeThresh(now, bondExpiry) + PendingBuffer(net)
  }

  const NANOS: nat := 1_000_000_000
  /** The longest lock a new bond may have: 120 days. */
  const LOCK_TIME_LIMIT: nat := 120 * 24 * 60 * 60

  datatype LockTime = LockAt(seconds: int) | TooSoon | Excessive

  /** The latest lock time of the list beyond the threshold, or the default. */
  function BestMergeable(live: seq<Bond>, thresh: int, best: int): int {
    if live == [] then best
    else
      var better := live[0].lockTime > thresh && (best == 0 || live[0].lockTime > best);
      BestMergeable(live[1..], thresh, if better then live[0].lockTime else best)
  }

  lemma {:induction false} BestMergeableIsMax(live: seq<Bond>, thresh: nat, best: nat)
    requires best == 0 || best > thresh
    ensures var r := BestMergeable(live, thresh, best);
      && (r == best || (r > thresh && exists i :: 0 <= i < |live| && live[i].lockTime == r))
      && r >= best
      && (forall i :: 0 <= i < |live| && live[i].lockTime > thresh ==> live[i].lockTime <= r)
  {
    if live != [] {
      var b := if live[0].lockTime > thresh && (best == 0 || live[0].lockTime > best) then live[0].lockTime else best;
      BestMergeableIsMax(live[1..], thresh, b);
    }
  }

  function DefaultLock(net: Network, bondExpiry: nat, t1: nat): nat {
    t1 / NANOS + MinBondLifetime(net, bondExpiry)
  }

  /** Only lock times beyond this are worth joining. */
  function MergeThresh(net: Network, bondExpiry: nat, t4: nat): nat {
    t4 / NANOS + bondExpiry * 5 / 4 + PendingBuffer(net)
  }

  /** The lock time of a new bond, as a function of the bonds held and of the
      four readings of the clock (in nanoseconds) that the choice makes. */
  function ChooseLockTime(net: Network, bondExpiry: nat, live: seq<Bond>, t1: nat, t2: nat, t3: nat,
          t4: nat): LockTime {
    var lock := DefaultLock(net, bondExpiry, t1);
    if (lock - bondExpiry) * NANOS - t2 < 60 * NANOS then TooSoon
    else if lock * NANOS - t3 > LOCK_TIME_LIMIT * NANOS then Excessive
    else
      var best := BestMergeable(live, MergeThresh(net, bondExpiry, t4), 0);
      LockAt(if best > 0 then best else lock)
  }

  method CalculateMergingLockTime(net: Network, bondExpiry: nat, live: seq<Bond>, t1: nat, t2: nat, t3: nat, t4: nat)
    returns (r: LockTime)
    ensures r == ChooseLockTime(net, bondExpiry, live, t1, t2, t3, t4)
  {
    var lockDur := MinBondLifetime(net, bondExpiry);
    var lockTime := (t1 + lockDur * NANOS) / NANOS;
    TruncateSeconds(t1, lockDur);
    var expireTime := lockTime - bondExpiry;
    if expireTime * NANOS - t2 < 60 * NANOS {
      return TooSoon;
    }
    if lockTime * NANOS - t3 > LOCK_TIME_LIMIT * NANOS {
      return Excessive;
    }
    var mergeableLocktimeThresh := MergeThresh(net, bondExpiry, t4);
    var bestMergeableLocktime := 0;
    var i := 0;
    assert live[0..] == live;
    while i < |live|
      invariant i <= |live|
      invariant BestMergeable(live[i..], mergeableLocktimeThresh, bestMergeableLocktime) ==
          BestMergeable(live, mergeableLocktimeThresh, 0)
    {
      assert live[i..][1..] == live[i + 1..];
      var b := live[i];
      if b.lockTime > mergeableLocktimeThresh && (bestMergeableLocktime == 0 || b.lockTime > bestMergeableLocktime) {
        bestMergeableLocktime := b.lockTime;
      }
      i := i + 1;
    }
    if bestMergeableLocktime > 0 {
      lockTime := bestMergeableLocktime;
    }
    r := LockAt(lockTime);
  }

  lemma TruncateSeconds(t: nat, dur: nat)
    ensures (t + dur * NANOS) / NANOS == t / NANOS + dur
  {
  }

  /** What is chosen: the latest lock time among the live bonds beyond the
      merging threshold, and the default only if there is none. */
  lemma ChosenLockIsLatestTrack(net: Network, bondExpiry: nat, live: seq<Bond>, t1: nat, t2: nat, t3: nat, t4: nat)
    requires ChooseLockTime(net, bondExpiry, live, t1, t2, t3, t4).LockAt?
    ensures var lock := ChooseLockTime(net, bondExpiry, live, t1, t2, t3, t4).seconds;
      var thresh := MergeThresh(net, bondExpiry, t4);
      if exists i :: 0 <= i < |live| && live[i].lockTime > thresh then
        && lock > thresh
        && (exists i :: 0 <= i < |live| && live[i].lockTime == lock)
        && (forall i :: 0 <= i < |live| ==> live[i].lockTime <= lock)
      else lock == DefaultLock(net, bondExpiry, t1)
  {
    var thresh := MergeThresh(net, bondExpiry, t4);
    BestMergeableIsMax(live, thresh, 0);
    if exists i :: 0 <= i < |live| && live[i].lockTime > thresh {
      var i :| 0 <= i < |live| && live[i].lockTime > thresh;
      assert live[i].lockTime <= BestMergeable(live, thresh, 0);
    }
  }

  /** A track is joined if it turns weak more than a quarter of the expiry from
      now; the latest such track is, and without one the default is used. */
  lemma JoinsLatestTrackWithTime(net: Network, bondExpiry: nat, live: seq<Bond>, t1: nat, t2: nat, t3: nat, t4: nat)
    requires ChooseLockTime(net, bondExpiry, live, t1, t2, t3, t4).LockAt?
    ensures var lock := ChooseLockTime(net, bondExpiry, live, t1, t2, t3, t4).seconds;
      var latest := t4 / NANOS + bondExpiry + PendingBuffer(net);
      if exists i :: 0 <= i < |live| && 4 * (live[i].lockTime - latest) > bondExpiry then
        && 4 * (lock - latest) > bondExpiry
        && (exists i :: 0 <= i < |live| && live[i].lockTime == lock)
        && (forall i :: 0 <= i < |live| ==> live[i].lockTime <= lock)
      else lock == t1 / NANOS + 2 * (PendingBuffer(net) + bondExpiry) + SpendableDelay(net)
  {
    ChosenLockIsLatestTrack(net, bondExpiry, live, t1, t2, t3, t4);
    var latest := t4 / NANOS + bondExpiry + PendingBuffer(net);
    forall i | 0 <= i < |live|
      ensures live[i].lockTime > MergeThresh(net, bondExpiry, t4) <==> 4 * (live[i].lockTime - latest) > bondExpiry
    {
      QuarterLeft(live[i].lockTime - latest, bondExpiry);
    }
    if exists i :: 0 <= i < |live| && 4 * (live[i].lockTime - latest) > bondExpiry {
      QuarterLeft(ChooseLockTime(net, bondExpiry, live, t1, t2, t3, t4).seconds - latest, bondExpiry);
    }
  }

  lemma QuarterLeft(left: int, bondExpiry: nat)
    ensures left + bondExpiry > bondExpiry * 5 / 4 <==> 4 * left > bondExpiry
  {
  }

  /** No lock time is chosen exactly when the choice has taken so long that the
      default would expire within a minute, or the default is beyond the limit. */
  lemma NoLockExactlyWhen(net: Network, bondExpiry: nat, live: seq<Bond>, t1: nat, t2: nat, t3: nat, t4: nat)
    ensures var now, r := t1 / NANOS, ChooseLockTime(net, bondExpiry, live, t1, t2, t3, t4);
      && (r == TooSoon <==> t2 > (now + bondExpiry + 5 * PendingBuffer(net) - 60) * NANOS)
      && (r == Excessive <==>
            r != TooSoon && (now + 2 * bondExpiry + 5 * PendingBuffer(net)) * NANOS > t3 + 120 * 24 * 3600 * NANOS)
  {
  }

  /** A new bond, whether it gets the default lock time or joins an existing
      track, is neither weak nor expired by the thresholds of any instant up to
      the choice, in particular those of the same rotation. */
  lemma NewBondsAreStrong(net: Network, bondExpiry: nat, live: seq<Bond>, t1: nat, t2: nat, t3: nat, t4: nat, now: int)
    requires ChooseLockTime(net, bondExpiry, live, t1, t2, t3, t4).LockAt?
    requires now <= t1 / NANOS && t1 <= t4
    ensures ChooseLockTime(net, bondExpiry, live, t1, t2, t3, t4).seconds > ReplaceThresh(net, now, bondExpiry)
    ensures ReplaceThresh(net, now, bondExpiry) > LockTimeThresh(now, bondExpiry)
  {
    ChosenLockIsLatestTrack(net, bondExpiry, live, t1, t2, t3, t4);
    LaterNanosLaterSeconds(t1, t4);
  }

  lemma LaterNanosLaterSeconds(t: nat, u: nat)
    requires t <= u
    ensures t / NANOS <= u / NANOS
  {
  }

  predicate WithinLimit(lock: int, t: int) {
    lock * NANOS - t <= LOCK_TIME_LIMIT * NANOS
  }

  /** The limit on lock times is checked for the default only. The chosen lock
      time respects it exactly when every live bond worth joining does. */
  lemma ChosenLockWithinLimit(net: Network, bondExpiry: nat, live: seq<Bond>, t1: nat, t2: nat, t3: nat, t4: nat)
    requires ChooseLockTime(net, bondExpiry, live, t1, t2, t3, t4).LockAt?
    ensures WithinLimit(ChooseLockTime(net, bondExpiry, live, t1, t2, t3, t4).seconds, t3)
       <==> forall i :: 0 <= i < |live| && live[i].lockTime > MergeThresh(net, bondExpiry, t4) ==>
              WithinLimit(live[i].lockTime, t3)
  {
    ChosenLockIsLatestTrack(net, bondExpiry, live, t1, t2, t3, t4);
    var lock := ChooseLockTime(net, bondExpiry, live, t1, t2, t3, t4).seconds;
    forall i | 0 <= i < |live| && WithinLimit(lock, t3) && live[i].lockTime > MergeThresh(net, bondExpiry, t4)
      ensures WithinLimit(live[i].lockTime, t3)
    {
      assert live[i].lockTime <= lock;
    }
  }

  /** Joining a track can lengthen the lock instead of shortening it, and pass the limit. */
  lemma MergingCanPassLimit(net: Network) returns (live: seq<Bond>)
    ensures ChooseLockTime(net, 3600, live, 0, 0, 0, 0) == LockAt(LOCK_TIME_LIMIT + 1)
    ensures DefaultLock(net, 3600, 0) < LOCK_TIME_LIMIT
  {
    var b := Bond(42, "coin", 1, LOCK_TIME_LIMIT + 1, 7, "tx", true, false, 1);
    live := [b];
    assert live[1..] == [];
    BestMergeableIsMax(live, MergeThresh(net, 3600, 0), 0);
    assert live[0].lockTime <= BestMergeable(live, MergeThresh(net, 3600, 0), 0);
  }
}
