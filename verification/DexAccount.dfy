/** The account of one server as the client keeps it: three bond lists that
    are changed in place, the tick that rotates them, and the server messages
    that move bonds. Wallet, database and server answers are parameters. */
module DexAccount {
  import opened Basics
  import opened Bonds
  import opened BondTiming
  import opened BondLedger
  import opened BondRotation
  import opened TimedRotation
  import BondReserves

  datatype Reputation = Reputation(bondedTier: int, penalties: nat) {
    function EffectiveTier(): int {
      bondedTier - penalties
    }
  }

  /** What rotation needs to know about an account, computed after screening. */
  datatype BondState = BondState(
    liveStrength: nat,
    pendingStrength: nat,
    weakStrength: nat,
    compensation: int,
    toComp: int,
    mustPost: int,
    expired: seq<Bond>,
    inBonds: nat,
    repost: seq<Bond>)

  // ---------- loading ----------

  /** Where a stored bond starts. */
  function Place(l: Ledger, b: Bond, lockTimeThresh: int): Ledger {
    if b.refunded then l
    else if b.lockTime <= lockTimeThresh then l.(expired := l.expired + [b])
    else if b.confirmed then l.(live := l.live + [b])
    else l.(pending := l.pending + [b])
  }

  function Categorize(bs: seq<Bond>, lockTimeThresh: int): Ledger {
    if bs == [] then Ledger([], [], [])
    else Place(Categorize(bs[..|bs| - 1], lockTimeThresh), bs[|bs| - 1], lockTimeThresh)
  }

  function Unrefunded(bs: seq<Bond>, k: Key): nat {
    if bs == [] then 0
    else Unrefunded(bs[..|bs| - 1], k) + One(!bs[|bs| - 1].refunded && KeyOf(bs[|bs| - 1]) == k)
  }

  /** Every stored bond that is not refunded starts in exactly one list. */
  lemma {:induction false} CategorizePlacesEach(bs: seq<Bond>, lockTimeThresh: int, k: Key)
    ensures Places(Categorize(bs, lockTimeThresh), k) == Unrefunded(bs, k)
  {
    if bs != [] {
      CategorizePlacesEach(bs[..|bs| - 1], lockTimeThresh, k);
      PlacedOnce(Categorize(bs[..|bs| - 1], lockTimeThresh), bs[|bs| - 1], lockTimeThresh, k);
    }
  }

  /** Which list a stored bond starts in is decided by its flags and lock time. */
  lemma {:induction false} CategorizeByState(bs: seq<Bond>, lockTimeThresh: int, b: Bond)
    ensures var l := Categorize(bs, lockTimeThresh);
      && (b in l.expired <==> b in bs && !b.refunded && b.lockTime <= lockTimeThresh)
      && (b in l.live <==> b in bs && !b.refunded && b.lockTime > lockTimeThresh && b.confirmed)
      && (b in l.pending <==> b in bs && !b.refunded && b.lockTime > lockTimeThresh && !b.confirmed)
  {
    if bs != [] {
      CategorizeByState(bs[..|bs| - 1], lockTimeThresh, b);
      assert bs == bs[..|bs| - 1] + [bs[|bs| - 1]];
    }
  }

  lemma PlacedOnce(l: Ledger, b: Bond, lockTimeThresh: int, k: Key)
    ensures Places(Place(l, b, lockTimeThresh), k) == Places(l, k) + One(!b.refunded && KeyOf(b) == k)
  {
    Single(b, k, b);
    CountConcat(l.expired, [b], k);
    CountConcat(l.live, [b], k);
    CountConcat(l.pending, [b], k);
  }

  lemma {:induction false} UnrefundedOnce(bs: seq<Bond>, k: Key)
    requires Unique(bs)
    ensures Unrefunded(bs, k) <= 1
    ensures Unrefunded(bs, k) > 0 ==> exists b :: b in bs && KeyOf(b) == k
    decreases |bs|
  {
    if bs != [] {
      var before, last := bs[..|bs| - 1], bs[|bs| - 1];
      UnrefundedOnce(before, k);
      assert last in bs && forall b :: b in before ==> b in bs;
      if Unrefunded(before, k) > 0 {
        var b :| b in before && KeyOf(b) == k;
        var i :| 0 <= i < |before| && before[i] == b;
        assert KeyOf(bs[i]) != KeyOf(last);
      }
    }
  }

  /** A loaded account is one that the theorems about runs can start from; what
      is stored as refunded counts as retired. */
  lemma LoadedAccountIsValid(stored: seq<Bond>, lockTimeThresh: int)
    requires Unique(stored)
    ensures Valid(Account(Categorize(stored, lockTimeThresh), set b | b in stored :: KeyOf(b)))
  {
    var known := set b | b in stored :: KeyOf(b);
    forall k
      ensures Places(Categorize(stored, lockTimeThresh), k) <= 1
      ensures Places(Categorize(stored, lockTimeThresh), k) > 0 ==> k in known
    {
      CategorizePlacesEach(stored, lockTimeThresh, k);
      UnrefundedOnce(stored, k);
    }
  }

  // ---------- refunding ----------

  datatype RefundTry = Sent | CoinNotFound | WrongKey | Failed

  /** The answers of wallet and database for one expired bond. */
  datatype RefundEnv = RefundEnv(
    prepaidStored: bool,
    walletConnected: bool,
    walletBonds: bool,
    lockPassed: Option<bool>,
    unlocked: bool,
    backupSent: bool,
    keyDerived: bool,
    refund: RefundTry)

  datatype Verdict = Keep | Spent | Abort

  /** The client and, unless the bond is prepaid, the wallet agree that the lock
      time has passed, and the wallet is ready. */
  predicate Matured(b: Bond, now: int, env: RefundEnv) {
    && b.lockTime <= now
    && (b.assetID != PREPAID_BOND_ID ==>
          env.walletConnected && env.walletBonds && env.lockPassed == Some(true) && env.unlocked)
  }

  /** A transaction went out that pays the bond back: a new one with the bond's
      own key, or the backup if there is no such key or it does not fit. */
  predicate PaidBack(b: Bond, env: RefundEnv) {
    var keyed := b.keyIndex != MAX_KEY_INDEX && env.keyDerived;
    || (keyed && env.refund == Sent)
    || (keyed && env.refund == WrongKey && env.backupSent)
    || (b.keyIndex == MAX_KEY_INDEX && b.refundTx != "" && env.backupSent)
  }

  /** The chain does not have the bond's coin any more. */
  predicate Gone(b: Bond, env: RefundEnv) {
    b.keyIndex != MAX_KEY_INDEX && env.keyDerived && env.refund == CoinNotFound
  }

  /** A matured bond is settled if it was paid back, or is gone, or can never be
      paid back; a prepaid one if that was stored. */
  predicate Settled(b: Bond, now: int, env: RefundEnv) {
    && Matured(b, now, env)
    && if b.assetID == PREPAID_BOND_ID then env.prepaidStored
       else PaidBack(b, env) || Gone(b, env) || Placeholder(b)
  }

  /** A placeholder is exactly a bond that no answer from outside pays back. */
  lemma PlaceholdersAreNeverPaidBack(b: Bond)
    ensures Placeholder(b) <==> forall env :: !PaidBack(b, env)
  {
    var env := RefundEnv(true, true, true, Some(true), true, true, true, Sent);
    assert !Placeholder(b) ==> PaidBack(b, env);
  }

  /** What happens to one expired bond in a refund pass. It counts as spent if
      and only if it is settled, and only a wallet that cannot bond ends the pass. */
  function RefundVerdict(b: Bond, now: int, env: RefundEnv): (v: Verdict)
    ensures v == Spent <==> Settled(b, now, env)
    ensures v == Abort <==> b.lockTime <= now && b.assetID != PREPAID_BOND_ID && env.walletConnected && !env.walletBonds
  {
    if now < b.lockTime then Keep
    else if b.assetID == PREPAID_BOND_ID then (if env.prepaidStored then Spent else Keep)
    else if !env.walletConnected then Keep
    else if !env.walletBonds then Abort
    else if env.lockPassed != Some(true) then Keep
    else if !env.unlocked then Keep
    else if b.keyIndex == MAX_KEY_INDEX then
      (if b.refundTx != "" then (if env.backupSent then Spent else Keep) else Spent)
    else if !env.keyDerived then Keep
    else match env.refund
      case Sent => Spent
      case CoinNotFound => Spent
      case WrongKey => if env.backupSent then Spent else Keep
      case Failed => Keep
  }

  /** The keys a pass over the snapshot reports as spent; none if it aborts. */
  function SpentKeys(snapshot: seq<Bond>, now: int, envs: seq<RefundEnv>): Option<seq<Key>>
    requires |envs| == |snapshot|
  {
    if snapshot == [] then Some([])
    else
      var n := |snapshot| - 1;
      var before := SpentKeys(snapshot[..n], now, envs[..n]);
      if before.None? then None
      else
        match RefundVerdict(snapshot[n], now, envs[n])
        case Abort => None
        case Keep => before
        case Spent => Some(before.value + [KeyOf(snapshot[n])])
  }

  predicate SettledAt(snapshot: seq<Bond>, now: int, envs: seq<RefundEnv>, i: int, k: Key)
    requires |envs| == |snapshot|
  {
    0 <= i < |snapshot| && KeyOf(snapshot[i]) == k && Settled(snapshot[i], now, envs[i])
  }

  /** A pass reports a key if and only if a bond of the snapshot with the key is
      settled. */
  lemma {:induction false} SpentExactlyWhenSettled(snapshot: seq<Bond>, now: int, envs: seq<RefundEnv>, k: Key)
    requires |envs| == |snapshot| && SpentKeys(snapshot, now, envs).Some?
    ensures k in SpentKeys(snapshot, now, envs).value <==> exists i :: SettledAt(snapshot, now, envs, i, k)
    decreases |snapshot|
  {
    if snapshot != [] {
      var n := |snapshot| - 1;
      SpentExactlyWhenSettled(snapshot[..n], now, envs[..n], k);
      if exists i :: SettledAt(snapshot[..n], now, envs[..n], i, k) {
        var i :| SettledAt(snapshot[..n], now, envs[..n], i, k);
        assert SettledAt(snapshot, now, envs, i, k);
      }
      if exists i :: SettledAt(snapshot, now, envs, i, k) {
        var i :| SettledAt(snapshot, now, envs, i, k);
        assert i < n ==> SettledAt(snapshot[..n], now, envs[..n], i, k);
      }
      if KeyOf(snapshot[n]) == k && Settled(snapshot[n], now, envs[n]) {
        assert SettledAt(snapshot, now, envs, n, k);
      }
    }
  }

  // ---------- what a run retires was settled ----------

  /** A pass over a snapshot of the expired list. */
  datatype Pass = Pass(snapshot: seq<Bond>, now: int, envs: seq<RefundEnv>)

  /** A refund step removes what a pass reported. */
  predicate FromPass(s: Step, p: Pass) {
    s.Refunded? ==> |p.envs| == |p.snapshot| && SpentKeys(p.snapshot, p.now, p.envs) == Some(s.spent)
  }

  /** The step retires the bond because it was settled in the pass, or because
      the server expired it and nobody could ever have it paid back. */
  ghost predicate RetiredBy(a: Account, s: Step, p: Pass, k: Key) {
    || (s.Refunded? && PhaseOf(a, k) == Expired && |p.envs| == |p.snapshot|
        && exists i :: SettledAt(p.snapshot, p.now, p.envs, i, k))
    || (s.ServerExpired? && k == s.key && PhaseOf(a, k) == Live
        && exists i :: 0 <= i < |a.ledger.live| && KeyOf(a.ledger.live[i]) == k && Placeholder(a.ledger.live[i]))
  }

  /** In every run whose refunds come from passes, a bond that is retired was
      settled outside, or was a live placeholder. */
  lemma RetiredBondsWereSettled(a: Account, steps: seq<Step>, passes: seq<Pass>, k: Key)
    requires Valid(a) && EnabledRun(a, steps) && |passes| == |steps|
    requires forall n :: 0 <= n < |steps| ==> FromPass(steps[n], passes[n])
    requires PhaseOf(a, k) != Retired && PhaseOf(Run(a, steps), k) == Retired
    ensures exists n :: 0 <= n < |steps| && RetiredBy(Run(a, steps[..n]), steps[n], passes[n], k)
  {
    RunsRetireOnlyRefunded(a, steps, k);
    var n :| 0 <= n < |steps| && MayRetire(Run(a, steps[..n]), steps[n], k);
    var p := passes[n];
    assert FromPass(steps[n], p);
    if steps[n].Refunded? {
      SpentExactlyWhenSettled(p.snapshot, p.now, p.envs, k);
    }
    assert RetiredBy(Run(a, steps[..n]), steps[n], p, k);
  }

  /** And a settled bond that is still expired is retired. */
  lemma SettledBondsAreRetired(a: Account, s: Step, p: Pass, k: Key)
    requires Valid(a) && s.Refunded? && FromPass(s, p) && PhaseOf(a, k) == Expired
    ensures PhaseOf(Next(a, s), k) == Retired <==> exists i :: SettledAt(p.snapshot, p.now, p.envs, i, k)
  {
    StepMovesExactly(a, s, k);
    SpentExactlyWhenSettled(p.snapshot, p.now, p.envs, k);
  }

  // ---------- posting ----------

  /** What posting needs from outside: whether anything may be posted at all,
      which pending bonds are waited for, what the wallet makes of it, and four
      readings of the clock. */
  datatype PostEnv = PostEnv(
    waiting: set<Key>,
    disabled: bool,
    unlocked: bool,
    connected: bool,
    walletReady: bool,
    made: Option<Made>,
    t1: nat, t2: nat, t3: nat, t4: nat)

  /** A bond transaction that the wallet made and the server validated. */
  datatype Made = Made(coinID: CoinID, keyIndex: nat, refundTx: string)

  /** A post goes out exactly when this holds: it is wanted, account, server and
      wallet are ready, an increment fits the limit, and a lock time is found. */
  predicate Posts(net: Network, bondExpiry: nat, live: seq<Bond>, targetTier: nat, mustPost: int, amt: nat,
          bonded: nat, maxBonded: nat, env: PostEnv) {
    && targetTier > 0 && mustPost > 0 && bondExpiry > 0
    && env.unlocked && env.connected && env.walletReady && env.made.Some?
    && (maxBonded == 0 || Fits(1, amt, bonded, maxBonded))
    && ChooseLockTime(net, bondExpiry, live, env.t1, env.t2, env.t3, env.t4).LockAt?
  }

  datatype ExpiryNote = WithReputation(rep: Reputation) | TierOnly(tier: int)

  method SumBondStrengths(bs: seq<Bond>, assets: BondAssets) returns (total: nat)
    ensures total == SumStrengths(bs, assets)
  {
    total := 0;
    var i := 0;
    assert bs[0..] == bs;
    while i < |bs|
      invariant i <= |bs|
      invariant total + SumStrengths(bs[i..], assets) == SumStrengths(bs, assets)
    {
      assert bs[i..][1..] == bs[i + 1..];
      var bond := bs[i];
      i := i + 1;
      if bond.strength > 0 {
        total := total + bond.strength;
        continue;
      }
      if bond.assetID in assets && assets[bond.assetID] > 0 {
        total := total + bond.amount / assets[bond.assetID];
      }
    }
  }

  /** Screen one list: what stays, what is newly expired, and which of what stays is weak. */
  method FilterExpired(bs: seq<Bond>, cfg: BondCfg) returns (live: seq<Bond>, expired: seq<Bond>, weak: seq<Bond>)
    ensures live == Above(bs, cfg.lockTimeThresh)
    ensures expired == UpTo(bs, cfg.lockTimeThresh)
    ensures weak == UpTo(Above(bs, cfg.lockTimeThresh), cfg.replaceThresh)
  {
    live, expired, weak := [], [], [];
    var i := 0;
    while i < |bs|
      invariant i <= |bs|
      invariant live == Above(bs[..i], cfg.lockTimeThresh)
      invariant expired == UpTo(bs[..i], cfg.lockTimeThresh)
      invariant weak == UpTo(live, cfg.replaceThresh)
    {
      var bond := bs[i];
      assert bs[..i + 1] == bs[..i] + [bond] && [bond][1..] == [];
      AboveConcat(bs[..i], [bond], cfg.lockTimeThresh);
      if bond.lockTime <= cfg.lockTimeThresh {
        expired := expired + [bond];
      } else {
        AboveConcat(live, [bond], cfg.replaceThresh);
        if bond.lockTime <= cfg.replaceThresh {
          weak := weak + [bond];
        }
        live := live + [bond];
      }
      i := i + 1;
    }
    assert bs[..i] == bs;
  }

  /** The number of increments to post, penalties to compensate included. */
  method CountIncrements(strongBondedTier: nat, targetTier: nat, expectedServerTier: nat, reportedServerTier: int,
          penaltyComps: nat)
    returns (compensation: int, toComp: int, mustPost: int)
    ensures compensation == Compensation(strongBondedTier, targetTier) == Max(strongBondedTier - targetTier, 0)
    ensures toComp == mustPost - Max(targetTier - strongBondedTier, 0)
    ensures toComp == ToComp(strongBondedTier, targetTier, expectedServerTier - reportedServerTier, penaltyComps)
    ensures mustPost == MustPost(strongBondedTier, targetTier, expectedServerTier - reportedServerTier, penaltyComps)
  {
    mustPost, compensation, toComp := 0, 0, 0;
    if strongBondedTier < targetTier {
      mustPost := targetTier - strongBondedTier;
    } else if strongBondedTier > targetTier {
      compensation := strongBondedTier - targetTier;
    }
    if reportedServerTier < expectedServerTier {
      toComp := expectedServerTier - reportedServerTier;
      var penaltyCompRemainder := Max(penaltyComps - compensation, 0);
      if toComp > penaltyCompRemainder {
        toComp := penaltyCompRemainder;
      }
    }
    mustPost := mustPost + toComp;
  }

  method SumAmounts(bs: seq<Bond>, asset: nat) returns (amt: nat)
    ensures amt == AmountIn(bs, asset)
  {
    amt := 0;
    var i := 0;
    assert bs[0..] == bs;
    while i < |bs|
      invariant i <= |bs|
      invariant amt + AmountIn(bs[i..], asset) == AmountIn(bs, asset)
    {
      assert bs[i..][1..] == bs[i + 1..];
      if bs[i].assetID == asset {
        amt := amt + bs[i].amount;
      }
      i := i + 1;
    }
  }

  /** The bonds of the list that nobody is waiting for. */
  function NotWaiting(bs: seq<Bond>, waiting: set<Key>): seq<Bond> {
    if bs == [] then []
    else NotWaiting(bs[..|bs| - 1], waiting) + if KeyOf(bs[|bs| - 1]) !in waiting then [bs[|bs| - 1]] else []
  }

  lemma {:induction false} NotWaitingMembers(bs: seq<Bond>, waiting: set<Key>, b: Bond)
    ensures b in NotWaiting(bs, waiting) <==> b in bs && KeyOf(b) !in waiting
  {
    if bs != [] {
      NotWaitingMembers(bs[..|bs| - 1], waiting, b);
      assert bs == bs[..|bs| - 1] + [bs[|bs| - 1]];
    }
  }

  /** Pending bonds to post again, if the server has been connected. */
  method CollectReposts(pending: seq<Bond>, haveConnected: bool, waiting: set<Key>) returns (repost: seq<Bond>)
    ensures repost == if haveConnected then NotWaiting(pending, waiting) else []
  {
    repost := [];
    var i := 0;
    while i < |pending|
      invariant i <= |pending|
      invariant repost == if haveConnected then NotWaiting(pending[..i], waiting) else []
    {
      assert pending[..i + 1][..i] == pending[..i];
      if haveConnected && KeyOf(pending[i]) !in waiting {
        repost := repost + [pending[i]];
      }
      i := i + 1;
    }
    assert pending[..i] == pending;
  }

  // ---------- a rotation as events of the timed runs ----------

  function Deficit(p: Plan, before: Ledger, now: int, effectiveTier: int): int {
    SumStrengths(Screen(before, LockTimeThresh(now, p.server.bondExpiry)).live, p.server.assets) - effectiveTier
  }

  function Required(p: Plan, before: Ledger, now: int, effectiveTier: int): nat {
    MustPost(Strong(before, Cfg(p, now)), p.target, Deficit(p, before, now, effectiveTier), p.comps)
  }

  /** The lists after a rotation: screened, then without the spent bonds, then
      with the new bond; only screened if the refund pass aborts. */
  function Rotated(before: Ledger, lockTimeThresh: int, now: int, envs: seq<RefundEnv>, posted: Option<Bond>): Ledger
    requires |envs| == |Screen(before, lockTimeThresh).expired|
  {
    var screened := Screen(before, lockTimeThresh);
    match SpentKeys(screened.expired, now, envs)
    case None => screened
    case Some(keys) =>
      var refunded := screened.(expired := CutSpent(screened.expired, keys));
      if posted.Some? then Post(refunded, posted.value) else refunded
  }

  /** Strength of all bonds on the lists, expired ones included. */
  function HeldStrength(l: Ledger, assets: BondAssets): nat {
    SumStrengths(l.pending, assets) + SumStrengths(l.live, assets) + SumStrengths(l.expired, assets)
  }

  /** What is bonded when a rotation comes to post: the refunded bonds are gone. */
  function Bonded(before: Ledger, server: ServerConfig, now: int, envs: seq<RefundEnv>, amt: nat): nat
    requires |envs| == |Screen(before, LockTimeThresh(now, server.bondExpiry)).expired|
  {
    HeldStrength(Rotated(before, LockTimeThresh(now, server.bondExpiry), now, envs, None), server.assets) * amt
  }

  /** When a rotation posts a bond. */
  predicate Due(net: Network, server: ServerConfig, before: Ledger, now: int, envs: seq<RefundEnv>, env: PostEnv,
    targetTier: nat, penaltyComps: nat, rep: Reputation, bondAsset: nat, maxBonded: nat)
    requires |envs| == |Screen(before, LockTimeThresh(now, server.bondExpiry)).expired|
  {
    var screened := Screen(before, LockTimeThresh(now, server.bondExpiry));
    && !env.disabled && bondAsset in server.assets
    && SpentKeys(screened.expired, now, envs).Some?
    && Posts(net, server.bondExpiry, screened.live, targetTier,
             Required(Plan(net, server, targetTier, penaltyComps), before, now, rep.EffectiveTier()),
             server.assets[bondAsset], Bonded(before, server, now, envs, server.assets[bondAsset]), maxBonded, env)
  }

  /** The critical sections of a rotation, as events of the timed runs. */
  function RotationSteps(p: Plan, now: int, keys: seq<Key>, posted: Option<Bond>): seq<Timed> {
    [At(now, Screened(LockTimeThresh(now, p.server.bondExpiry))), At(now, Refunded(keys))]
      + if posted.Some? then [At(now, Posted(posted.value))] else []
  }

  /** A rotation that is not interrupted, and whose refund pass does not abort,
      is its critical sections in a row. It is in full exactly when the bond is
      for all that is required. */
  lemma RotationIsARun(p: Plan, a: Account, now: int, effectiveTier: int, envs: seq<RefundEnv>, posted: Option<Bond>)
    requires |envs| == |Screen(a.ledger, LockTimeThresh(now, p.server.bondExpiry)).expired|
    requires SpentKeys(Screen(a.ledger, LockTimeThresh(now, p.server.bondExpiry)).expired, now, envs).Some?
    requires posted.Some? ==>
      && KeyOf(posted.value) !in a.known
      && posted.value.lockTime > ReplaceThresh(p.net, now, p.server.bondExpiry)
      && posted.value.strength > 0
    ensures var thresh, deficit := LockTimeThresh(now, p.server.bondExpiry), Deficit(p, a.ledger, now, effectiveTier);
      var run := RotationSteps(p, now, SpentKeys(Screen(a.ledger, thresh).expired, now, envs).value, posted);
      && EnabledTimedRun(p, a, run)
      && RunTimed(a, run).ledger == Rotated(a.ledger, thresh, now, envs, posted)
      && (FullRotation(p, a, run, 0, if posted.Some? then 2 else 0, deficit)
          <==> Required(p, a.ledger, now, effectiveTier) == if posted.Some? then posted.value.strength else 0)
  {
    var thresh := LockTimeThresh(now, p.server.bondExpiry);
    var keys := SpentKeys(Screen(a.ledger, thresh).expired, now, envs).value;
    var run := RotationSteps(p, now, keys, posted);
    var a1 := Next(a, Screened(thresh));
    var a2 := Next(a1, Refunded(keys));
    assert run[..0] == [] && StateAt(a, run, 0) == a;
    assert run[1..][0] == At(now, Refunded(keys));
    var rest := run[1..][1..];
    if posted.Some? {
      assert rest == [At(now, Posted(posted.value))] && rest[1..] == [];
      assert RunTimed(a2, rest) == Next(a2, Posted(posted.value));
      assert EnabledTimedRun(p, a2, rest);
    } else {
      assert rest == [];
    }
    assert RunTimed(a1, run[1..]) == RunTimed(a2, rest) && EnabledTimedRun(p, a1, run[1..]);
  }

  class DexAccount {
    var pendingBonds: seq<Bond>
    var bonds: seq<Bond>
    var expiredBonds: seq<Bond>
    var rep: Reputation
    var targetTier: nat
    var maxBondedAmt: nat
    var penaltyComps: nat
    var bondAsset: nat

    ghost function Lists(): Ledger
      reads this
    {
      Ledger(pendingBonds, bonds, expiredBonds)
    }

    /** Load an account: stored bonds go to the list their state calls for. */
    constructor (stored: seq<Bond>, lockTimeThresh: int, rep: Reputation, targetTier: nat, maxBondedAmt: nat,
            penaltyComps: nat, bondAsset: nat)
      ensures Lists() == Categorize(stored, lockTimeThresh)
      ensures this.rep == rep && this.targetTier == targetTier && this.maxBondedAmt == maxBondedAmt
      ensures this.penaltyComps == penaltyComps && this.bondAsset == bondAsset
    {
      this.rep, this.targetTier, this.maxBondedAmt := rep, targetTier, maxBondedAmt;
      this.penaltyComps, this.bondAsset := penaltyComps, bondAsset;
      pendingBonds, bonds, expiredBonds := [], [], [];
      new;
      var i := 0;
      while i < |stored|
        modifies this`pendingBonds, this`bonds, this`expiredBonds
        invariant i <= |stored|
        invariant Lists() == Categorize(stored[..i], lockTimeThresh)
      {
        var b := stored[i];
        assert stored[..i + 1][..i] == stored[..i] && stored[..i + 1][i] == b;
        i := i + 1;
        if b.refunded {
          continue;
        }
        if b.lockTime <= lockTimeThresh {
          expiredBonds := expiredBonds + [b];
          continue;
        }
        if b.confirmed {
          bonds := bonds + [b];
          continue;
        }
        pendingBonds := pendingBonds + [b];
      }
      assert stored[..i] == stored;
    }

    /** What the account's bonds in one asset amount to. */
    method BondTotal(asset: nat) returns (total: nat)
      ensures total == AmountIn(bonds, asset) + AmountIn(pendingBonds, asset) + AmountIn(expiredBonds, asset)
    {
      var active := SumAmounts(bonds, asset);
      var pending := SumAmounts(pendingBonds, asset);
      var expired := SumAmounts(expiredBonds, asset);
      total := active + pending + expired;
    }

    /** Move what has expired to the expired list, and list what is weak. */
    method ScreenLists(cfg: BondCfg) returns (weakBonds: seq<Bond>)
      modifies this`pendingBonds, this`bonds, this`expiredBonds
      ensures Lists() == Screen(old(Lists()), cfg.lockTimeThresh)
      ensures weakBonds == UpTo(bonds, cfg.replaceThresh) + UpTo(pendingBonds, cfg.replaceThresh)
    {
      var live, newlyExpired, weak := FilterExpired(bonds, cfg);
      bonds, expiredBonds := live, expiredBonds + newlyExpired;
      var pending, expiredToo, weakToo := FilterExpired(pendingBonds, cfg);
      pendingBonds, expiredBonds := pending, expiredBonds + expiredToo;
      weakBonds := weak + weakToo;
    }

    /** Screen the lists and compute what must be posted. The total is taken
        before the screening, which does not change it. */
    method BondStateOfDEX(cfg: BondCfg, waiting: set<Key>) returns (state: BondState)
      requires cfg.lockTimeThresh <= cfg.replaceThresh
      modifies this`pendingBonds, this`bonds, this`expiredBonds
      ensures Lists() == Screen(old(Lists()), cfg.lockTimeThresh)
      ensures state.expired == expiredBonds
      ensures state.liveStrength == SumStrengths(bonds, cfg.assets)
      ensures state.pendingStrength == SumStrengths(pendingBonds, cfg.assets)
      ensures state.liveStrength + state.pendingStrength - state.weakStrength == Strong(old(Lists()), cfg) ==
          Strong(Lists(), cfg)
      ensures var strong, deficit := Strong(Lists(), cfg), state.liveStrength - rep.EffectiveTier();
        && state.compensation == Compensation(strong, targetTier)
        && state.toComp == ToComp(strong, targetTier, deficit, penaltyComps)
        && state.mustPost == MustPost(strong, targetTier, deficit, penaltyComps)
      ensures state.inBonds == AmountIn(bonds, bondAsset) + AmountIn(pendingBonds, bondAsset) +
          AmountIn(expiredBonds, bondAsset)
      ensures state.repost == if cfg.haveConnected then NotWaiting(pendingBonds, waiting) else []
    {
      var inBonds := BondTotal(bondAsset);
      ScreeningKeepsAmounts(Lists(), cfg.lockTimeThresh, bondAsset);
      StrongIsWhatIsNotWeak(Lists(), cfg);
      var weak := ScreenLists(cfg);
      var pendingStrength := SumBondStrengths(pendingBonds, cfg.assets);
      var weakStrength := SumBondStrengths(weak, cfg.assets);
      var liveStrength := SumBondStrengths(bonds, cfg.assets);
      var compensation, toComp, mustPost := CountIncrements(
        liveStrength + pendingStrength - weakStrength, targetTier, liveStrength, rep.EffectiveTier(), penaltyComps);
      var repost := CollectReposts(pendingBonds, cfg.haveConnected, waiting);
      state := BondState(liveStrength, pendingStrength, weakStrength, compensation, toComp, mustPost, expiredBonds,
          inBonds, repost);
    }

    /** Refund what can be refunded of a snapshot of the expired list, then
        remove what was spent from the list as it is by then. */
    method RefundExpiredBonds(snapshot: seq<Bond>, now: int, envs: seq<RefundEnv>, assets: BondAssets)
      returns (ok: bool, expiredStrength: nat)
      requires |envs| == |snapshot|
      modifies this`expiredBonds
      ensures ok <==> SpentKeys(snapshot, now, envs).Some?
      ensures !ok ==> expiredBonds == old(expiredBonds)
      ensures ok ==> expiredBonds == CutSpent(old(expiredBonds), SpentKeys(snapshot, now, envs).value)
      ensures ok ==> expiredStrength == SumStrengths(expiredBonds, assets)
    {
      var spent: seq<Key> := [];
      var i := 0;
      while i < |snapshot|
        invariant i <= |snapshot|
        invariant SpentKeys(snapshot[..i], now, envs[..i]) == Some(spent)
        invariant SpentKeys(snapshot, now, envs).Some? ==> SpentKeys(snapshot[..i], now, envs[..i]).Some?
      {
        assert snapshot[..i + 1][..i] == snapshot[..i] && envs[..i + 1][..i] == envs[..i];
        var verdict := RefundVerdict(snapshot[i], now, envs[i]);
        if verdict == Abort {
          AbortEndsPass(snapshot, now, envs, i);
          return false, 0;
        }
        if verdict == Spent {
          spent := spent + [KeyOf(snapshot[i])];
        }
        i := i + 1;
      }
      assert snapshot[..i] == snapshot && envs[..i] == envs;
      var n := 0;
      ghost var all := expiredBonds;
      assert spent[0..] == spent;
      while n < |spent|
        modifies this`expiredBonds
        invariant n <= |spent|
        invariant CutSpent(expiredBonds, spent[n..]) == CutSpent(all, spent)
      {
        assert spent[n..][1..] == spent[n + 1..];
        var at := FindBond(expiredBonds, spent[n]);
        if at < |expiredBonds| {
          expiredBonds := Cut(expiredBonds, at);
        }
        n := n + 1;
      }
      expiredStrength := SumBondStrengths(expiredBonds, assets);
      ok := true;
    }

    /** Post a bond for what must be posted, within the limit, at the lock time
        that suits the bonds held. */
    method PostRequiredBonds(net: Network, cfg: BondCfg, state: BondState, amt: nat, expiredStrength: nat, env: PostEnv)
      returns (posted: Option<Bond>, toPost: nat)
      requires amt > 0
      modifies this`pendingBonds
      ensures var bonded := (state.pendingStrength + state.liveStrength + expiredStrength) * amt;
        && (posted.Some? <==>
              Posts(net, cfg.bondExpiry, bonds, targetTier, state.mustPost, amt, bonded, maxBondedAmt, env))
        && (posted.Some? ==> toPost > 0 && Capped(toPost, state.mustPost, amt, bonded, maxBondedAmt))
      ensures posted == None ==> pendingBonds == old(pendingBonds)
      ensures posted.Some? ==> Lists() == Post(old(Lists()), posted.value)
      ensures posted.Some? ==> posted.value.amount == toPost * amt && posted.value.strength == toPost % 0x1_0000_0000
      ensures posted.Some? ==> KeyOf(posted.value) == Key(bondAsset, env.made.value.coinID)
      ensures posted.Some? ==>
        LockAt(posted.value.lockTime) == ChooseLockTime(net, cfg.bondExpiry, bonds, env.t1, env.t2, env.t3, env.t4)
    {
      posted, toPost := None, 0;
      if targetTier == 0 || state.mustPost <= 0 || cfg.bondExpiry <= 0 {
        return;
      }
      if !env.unlocked || !env.connected || !env.walletReady {
        return;
      }
      var currentlyBondedAmt := (state.pendingStrength + state.liveStrength + expiredStrength) * amt;
      toPost := CapPosting(state.mustPost, amt, currentlyBondedAmt, maxBondedAmt);
      CappedIsPositive(toPost, state.mustPost, amt, currentlyBondedAmt, maxBondedAmt);
      if toPost == 0 {
        return;
      }
      var lockTime := CalculateMergingLockTime(net, cfg.bondExpiry, bonds, env.t1, env.t2, env.t3, env.t4);
      if !lockTime.LockAt? || env.made.None? {
        return;
      }
      ChosenLockIsPositive(net, cfg.bondExpiry, bonds, env.t1, env.t2, env.t3, env.t4);
      DivMul(toPost, amt);
      var bond := MakeAndPostBond(toPost * amt, lockTime.seconds, amt, env.made.value);
      posted := Some(bond);
    }

    /** Record a new bond as pending. */
    method MakeAndPostBond(amount: nat, lockTime: nat, amt: nat, made: Made) returns (bond: Bond)
      requires amt > 0
      modifies this`pendingBonds
      ensures bond == Bond(bondAsset, made.coinID, amount, lockTime, made.keyIndex, made.refundTx, false, false,
          RecordedStrength(amount, amt))
      ensures Lists() == Post(old(Lists()), bond)
    {
      bond := Bond(bondAsset, made.coinID, amount, lockTime, made.keyIndex, made.refundTx, false, false,
          RecordedStrength(amount, amt));
      pendingBonds := pendingBonds + [bond];
    }

    /** The server confirmed a bond. */
    method BondConfirmed(key: Key, newRep: Reputation) returns (foundPending: bool, foundConfirmed: bool)
      modifies this`pendingBonds, this`bonds, this`rep
      ensures Lists() == Confirm(old(Lists()), key)
      ensures rep == newRep
      ensures foundPending <==> Count(old(pendingBonds), key) > 0
      ensures foundConfirmed <==> !foundPending && Count(old(bonds), key) > 0
    {
      foundPending, foundConfirmed := false, false;
      IndexOfFound(pendingBonds, key);
      IndexOfFound(bonds, key);
      var i := FindBond(pendingBonds, key);
      if i < |pendingBonds| {
        var bond := pendingBonds[i];
        pendingBonds := Cut(pendingBonds, i);
        bonds := bonds + [bond.(confirmed := true)];
        foundPending := true;
      }
      if !foundPending {
        var j := FindBond(bonds, key);
        foundConfirmed := j < |bonds|;
      }
      rep := newRep;
    }

    /** The server expired a bond. */
    method BondExpired(key: Key, note: ExpiryNote) returns (found: bool)
      modifies this`bonds, this`expiredBonds, this`rep
      ensures Lists() == Expire(old(Lists()), key)
      ensures found <==> Count(old(bonds), key) + Count(old(expiredBonds), key) > 0
      ensures note.WithReputation? ==> rep == note.rep
      ensures note.TierOnly? ==> rep == Reputation(note.tier + old(rep).penalties, old(rep).penalties)
      ensures note.TierOnly? ==> rep.EffectiveTier() == note.tier
    {
      found := false;
      IndexOfFound(bonds, key);
      IndexOfFound(expiredBonds, key);
      var i := FindBond(bonds, key);
      if i < |bonds| {
        var bond := bonds[i];
        bonds := Cut(bonds, i);
        if |bond.refundTx| > 0 || bond.keyIndex != MAX_KEY_INDEX {
          expiredBonds := expiredBonds + [bond];
        }
        found := true;
      }
      if !found {
        var j := FindBond(expiredBonds, key);
        found := j < |expiredBonds|;
      }
      match note {
        case WithReputation(newRep) => rep := newRep;
        case TierOnly(tier) => rep := rep.(bondedTier := tier + rep.penalties);
      }
    }

    /** The amount to reserve for bonds; the expired list is sorted on the way. */
    method ReserveForBonds(server: ServerConfig, net: Network, asset: nat, amt: nat) returns (reserve: nat)
      requires amt > 0 && forall a :: a in server.assets ==> server.assets[a] > 0
      modifies this`expiredBonds
      ensures Lists() == Apply(old(Lists()), Resorted(expiredBonds))
      ensures multiset(expiredBonds) == multiset(old(expiredBonds))
      ensures targetTier == 0 ==> reserve == 0
      ensures targetTier > 0 ==>
        var cfg := BondReserves.Config(targetTier, server.assets, server.bondExpiry, net);
        reserve == BondReserves.ReserveTiers(pendingBonds + bonds, old(expiredBonds), cfg, asset, amt) * amt
    {
      var cfg := BondReserves.Config(targetTier, server.assets, server.bondExpiry, net);
      reserve, expiredBonds := BondReserves.MinBondReserves(pendingBonds, bonds, expiredBonds, cfg, asset, amt);
    }

    /** The first half of a rotation. */
    method ScreenAndRefund(net: Network, server: ServerConfig, now: nat, envs: seq<RefundEnv>, waiting: set<Key>)
      returns (ok: bool, state: BondState, expiredStrength: nat)
      requires |envs| == |Screen(Lists(), LockTimeThresh(now, server.bondExpiry)).expired|
      modifies this`pendingBonds, this`bonds, this`expiredBonds
      ensures Lists() == Rotated(old(Lists()), LockTimeThresh(now, server.bondExpiry), now, envs, None)
      ensures ok <==> SpentKeys(Screen(old(Lists()), LockTimeThresh(now, server.bondExpiry)).expired, now, envs).Some?
      ensures state.mustPost == Required(Plan(net, server, targetTier, penaltyComps), old(Lists()), now,
          rep.EffectiveTier())
      ensures ok ==>
        state.pendingStrength + state.liveStrength + expiredStrength == HeldStrength(Lists(), server.assets)
    {
      var cfg := DexBondConfig(net, now, Some(server));
      state := BondStateOfDEX(cfg, waiting);
      ok, expiredStrength := RefundExpiredBonds(state.expired, now, envs, cfg.assets);
    }

    /** One rotation: screen, refund, post. A server without bond assets is
        left alone, unless the account is disabled: then only refunds are due. */
    method Rotate(net: Network, server: ServerConfig, now: nat, envs: seq<RefundEnv>, env: PostEnv)
      returns (posted: Option<Bond>, toPost: nat)
      requires forall a :: a in server.assets ==> server.assets[a] > 0
      requires |envs| == |Screen(Lists(), LockTimeThresh(now, server.bondExpiry)).expired|
      requires now <= env.t1 / NANOS && env.t1 <= env.t4
      modifies this`pendingBonds, this`bonds, this`expiredBonds
      ensures server.assets == map[] && !env.disabled ==> Lists() == old(Lists()) && posted == None
      ensures server.assets != map[] || env.disabled ==>
        Lists() == Rotated(old(Lists()), LockTimeThresh(now, server.bondExpiry), now, envs, posted)
      ensures posted.Some? <==> Due(net, server, old(Lists()), now, envs, env, targetTier, penaltyComps, rep,
          bondAsset, maxBondedAmt)
      ensures posted.Some? ==>
        var amt := server.assets[bondAsset];
        var n := Required(Plan(net, server, targetTier, penaltyComps), old(Lists()), now, rep.EffectiveTier());
        && toPost > 0 && Capped(toPost, n, amt, Bonded(old(Lists()), server, now, envs, amt), maxBondedAmt)
        && posted.value.amount == toPost * amt && posted.value.strength == toPost % 0x1_0000_0000
        && posted.value.lockTime > ReplaceThresh(net, now, server.bondExpiry)
        && KeyOf(posted.value) == Key(bondAsset, env.made.value.coinID)
      ensures posted.Some? ==> !env.disabled && env.unlocked && env.connected && env.walletReady && targetTier > 0
      ensures posted.Some? && maxBondedAmt > 0 ==>
        var held := SumStrengths(bonds, server.assets) + SumStrengths(pendingBonds, server.assets)
          + SumStrengths(expiredBonds, server.assets);
        held * server.assets[bondAsset] <= maxBondedAmt
    {
      posted, toPost := None, 0;
      if |server.assets| == 0 && !env.disabled {
        return;
      }
      var cfg := DexBondConfig(net, now, Some(server));
      var ok, state, expiredStrength := ScreenAndRefund(net, server, now, envs, env.waiting);
      if !ok || env.disabled || bondAsset !in server.assets {
        return;
      }
      var amt := server.assets[bondAsset];
      ghost var refunded := Lists();
      posted, toPost := PostRequiredBonds(net, cfg, state, amt, expiredStrength, env);
      if posted.Some? {
        NewBondsAreStrong(net, cfg.bondExpiry, bonds, env.t1, env.t2, env.t3, env.t4, now);
        PostingStaysWithinLimit(refunded, posted.value, toPost, server.assets, amt, maxBondedAmt);
      }
    }
  }

  lemma {:induction false} SplitAmounts(bs: seq<Bond>, thresh: int, asset: nat)
    ensures AmountIn(Above(bs, thresh), asset) + AmountIn(UpTo(bs, thresh), asset) == AmountIn(bs, asset)
  {
    if bs != [] {
      SplitAmounts(bs[1..], thresh, asset);
      assert Above(bs, thresh) == (if bs[0].lockTime > thresh then [bs[0]] else []) + Above(bs[1..], thresh);
      assert UpTo(bs, thresh) == (if bs[0].lockTime > thresh then [] else [bs[0]]) + UpTo(bs[1..], thresh);
      AmountsAdd(if bs[0].lockTime > thresh then [bs[0]] else [], Above(bs[1..], thresh), asset);
      AmountsAdd(if bs[0].lockTime > thresh then [] else [bs[0]], UpTo(bs[1..], thresh), asset);
      assert [bs[0]][1..] == [];
    }
  }

  lemma ScreeningKeepsAmounts(l: Ledger, thresh: int, asset: nat)
    ensures var s := Screen(l, thresh);
      AmountIn(s.live, asset) + AmountIn(s.pending, asset) + AmountIn(s.expired, asset)
      == AmountIn(l.live, asset) + AmountIn(l.pending, asset) + AmountIn(l.expired, asset)
  {
    SplitAmounts(l.live, thresh, asset);
    SplitAmounts(l.pending, thresh, asset);
    AmountsAdd(l.expired, UpTo(l.live, thresh), asset);
    AmountsAdd(l.expired + UpTo(l.live, thresh), UpTo(l.pending, thresh), asset);
  }

  /** A posted bond counts for no more than what was posted, so all bonds held
      stay within the limit. */
  lemma PostingStaysWithinLimit(l: Ledger, b: Bond, toPost: nat, assets: BondAssets, amt: nat, maxBonded: nat)
    requires amt > 0 && b.assetID in assets && assets[b.assetID] == amt && b.amount == toPost * amt
    requires b.strength == toPost % 0x1_0000_0000
    requires maxBonded > 0 ==> Fits(toPost, amt, HeldStrength(l, assets) * amt, maxBonded)
    ensures maxBonded > 0 ==> HeldStrength(Post(l, b), assets) * amt <= maxBonded
  {
    var held, n := HeldStrength(l, assets), StrengthOf(b, assets);
    assert n <= toPost by {
      DivMul(toPost, amt);
    }
    assert HeldStrength(Post(l, b), assets) == held + n by {
      SumStrengthsConcat(l.pending, [b], assets);
      assert [b][1..] == [];
    }
    AddingStaysWithin(held, n, toPost, amt, maxBonded);
  }

  lemma AddingStaysWithin(held: nat, n: nat, toPost: nat, amt: nat, maxBonded: nat)
    requires n <= toPost && (maxBonded > 0 ==> toPost * amt + held * amt <= maxBonded)
    ensures maxBonded > 0 ==> (held + n) * amt <= maxBonded
  {
    MulAtMost(n, toPost, amt);
    assert (held + n) * amt == held * amt + n * amt;
  }

  lemma CappedIsPositive(toPost: nat, mustPost: nat, amt: nat, bonded: nat, maxBonded: nat)
    requires mustPost > 0 && Capped(toPost, mustPost, amt, bonded, maxBonded)
    ensures toPost > 0 <==> maxBonded == 0 || Fits(1, amt, bonded, maxBonded)
  {
    if toPost > 0 {
      MulAtMost(1, toPost, amt);
    }
  }

  lemma ChosenLockIsPositive(net: Network, bondExpiry: nat, live: seq<Bond>, t1: nat, t2: nat, t3: nat, t4: nat)
    requires ChooseLockTime(net, bondExpiry, live, t1, t2, t3, t4).LockAt?
    ensures ChooseLockTime(net, bondExpiry, live, t1, t2, t3, t4).seconds > 0
  {
    ChosenLockIsLatestTrack(net, bondExpiry, live, t1, t2, t3, t4);
  }

  lemma {:induction false} AbortEndsPass(snapshot: seq<Bond>, now: int, envs: seq<RefundEnv>, i: nat)
    requires |envs| == |snapshot| && i < |snapshot|
    requires RefundVerdict(snapshot[i], now, envs[i]) == Abort
    ensures SpentKeys(snapshot, now, envs).None?
    decreases |snapshot|
  {
    var n := |snapshot| - 1;
    if i < n {
      AbortEndsPass(snapshot[..n], now, envs[..n], i);
    }
  }
}
