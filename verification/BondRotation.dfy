/** What a rotation computes and posts: the thresholds of an instant, how many
    increments are missing, what repeated rotation comes to, and the limit. */
module BondRotation {
  import opened Basics
  import opened Bonds
  import opened BondTiming
  import opened BondLedger

  // ---------- configuration ----------

  datatype ServerConfig = ServerConfig(bondExpiry: nat, assets: BondAssets)

  datatype BondCfg = BondCfg(
    assets: BondAssets,
    replaceThresh: int,
    bondExpiry: nat,
    lockTimeThresh: int,
    haveConnected: bool)

  /** Thresholds for an instant. Without a server configuration bonds expire
      only when their lock time passes, so that they can still be refunded. */
  function DexBondConfig(net: Network, now: int, server: Option<ServerConfig>): (cfg: BondCfg)
    ensures cfg.lockTimeThresh < cfg.replaceThresh
    ensures server.Some? ==> cfg.replaceThresh == ReplaceThresh(net, now, server.value.bondExpiry)
    ensures cfg.haveConnected <==> server.Some?
    ensures cfg.assets == (if server.Some? then server.value.assets else map[])
    ensures cfg.bondExpiry == if server.Some? then server.value.bondExpiry else 0
  {
    match server
    case None => BondCfg(map[], now + PendingBuffer(net), 0, now, false)
    case Some(s) => BondCfg(s.assets, now + s.bondExpiry + PendingBuffer(net), s.bondExpiry, now + s.bondExpiry, true)
  }

  /** The thresholds mean what the server does: a bond is screened exactly when
      the server has expired it, and is weak exactly when the server will have
      expired it a pending buffer later. Without a server configuration the lock
      time itself takes the place of the expiry. */
  lemma ThresholdsFollowServer(net: Network, now: int, server: Option<ServerConfig>, lockTime: int)
    ensures var cfg := DexBondConfig(net, now, server);
      var expiry := if server.Some? then server.value.bondExpiry else 0;
      && (lockTime <= cfg.lockTimeThresh <==> ServerExpires(lockTime, expiry, now))
      && (lockTime <= cfg.replaceThresh <==> ServerExpires(lockTime, expiry, now + PendingBuffer(net)))
  {
  }

  // ---------- how much to post ----------

  /** Strength of the bonds that are neither expired nor about to be. */
  function Strong(l: Ledger, cfg: BondCfg): nat {
    SumStrengths(Above(l.live + l.pending, cfg.replaceThresh), cfg.assets)
  }

  /** Bonded beyond the target: taken as compensation for penalties. */
  function Compensation(strong: int, target: int): int {
    if strong > target then strong - target else 0
  }

  /** Penalties to compensate now: the tiers the server does not report,
      limited by what is allowed and not yet bonded beyond the target. */
  function ToComp(strong: int, target: int, deficit: int, comps: nat): int {
    if deficit > 0 then Min(deficit, Max(comps - Compensation(strong, target), 0)) else 0
  }

  /** Increments to post, where deficit is how far the server's reported tier
      is below the strength of the live bonds. */
  function MustPost(strong: nat, target: nat, deficit: int, comps: nat): (n: nat)
    ensures target <= strong + n <= Max(strong, target + comps)
    ensures n == Min(Max(target + comps - strong, 0), Max(target - strong, 0) + Max(deficit, 0))
    ensures n == 0 <==> strong >= target && (deficit <= 0 || strong >= target + comps)
  {
    (if strong < target then target - strong else 0) + ToComp(strong, target, deficit, comps)
  }

  /** That is the greatest number within two bounds: not beyond target and
      allowance, and no more than what is missing and what is penalised. */
  lemma MustPostIsGreatest(strong: nat, target: nat, deficit: int, comps: nat, m: nat)
    ensures m <= MustPost(strong, target, deficit, comps) <==>
      strong + m <= Max(strong, target + comps) && m <= Max(target - strong, 0) + Max(deficit, 0)
  {
  }

  /** After screening, live plus pending less weak strength is the strength of
      the bonds beyond the replacement threshold, so it is never negative. */
  lemma StrongIsWhatIsNotWeak(l: Ledger, cfg: BondCfg)
    requires cfg.lockTimeThresh <= cfg.replaceThresh
    ensures var s := Screen(l, cfg.lockTimeThresh);
      SumStrengths(s.live, cfg.assets) + SumStrengths(s.pending, cfg.assets)
        - SumStrengths(UpTo(s.live, cfg.replaceThresh) + UpTo(s.pending, cfg.replaceThresh), cfg.assets)
      == Strong(s, cfg) == Strong(l, cfg)
  {
    var s := Screen(l, cfg.lockTimeThresh);
    SplitStrength(s.live, cfg.replaceThresh, cfg.assets);
    SplitStrength(s.pending, cfg.replaceThresh, cfg.assets);
    SumStrengthsConcat(UpTo(s.live, cfg.replaceThresh), UpTo(s.pending, cfg.replaceThresh), cfg.assets);
    AboveConcat(s.live, s.pending, cfg.replaceThresh);
    AboveConcat(l.live, l.pending, cfg.replaceThresh);
    SumStrengthsConcat(Above(s.live, cfg.replaceThresh), Above(s.pending, cfg.replaceThresh), cfg.assets);
    AboveTwice(l.live, cfg.lockTimeThresh, cfg.replaceThresh);
    AboveTwice(l.pending, cfg.lockTimeThresh, cfg.replaceThresh);
  }

  /** Posting a bond beyond the threshold adds exactly its strength, and leaves
      the live strength, which the server's report is compared with, alone. */
  lemma PostingRaisesStrong(l: Ledger, b: Bond, cfg: BondCfg)
    ensures Strong(Post(l, b), cfg) ==
        Strong(l, cfg) + if b.lockTime > cfg.replaceThresh then StrengthOf(b, cfg.assets) else 0
    ensures Post(l, b).live == l.live
  {
    assert l.live + (l.pending + [b]) == (l.live + l.pending) + [b];
    AboveConcat(l.live + l.pending, [b], cfg.replaceThresh);
    SumStrengthsConcat(Above(l.live + l.pending, cfg.replaceThresh), Above([b], cfg.replaceThresh), cfg.assets);
    assert [b][1..] == [];
  }

  // ---------- repeated rotation ----------

  /** Strong strength once rotation, repeated at one instant with one server
      report and every post made in full, has nothing left to post. */
  function Settle(strong: nat, target: nat, deficit: int, comps: nat): nat
    decreases Max(target + comps - strong, 0)
  {
    var n := MustPost(strong, target, deficit, comps);
    if n == 0 then strong else Settle(strong + n, target, deficit, comps)
  }

  /** Repeated rotation stops. Without a deficit it stops at the target, after
      one post; with one it goes on until the allowance for penalties is used up. */
  lemma {:induction false} RotationSettles(strong: nat, target: nat, deficit: int, comps: nat)
    ensures Settle(strong, target, deficit, comps) == Max(strong, if deficit <= 0 then target else target + comps)
    ensures deficit <= 0 ==> MustPost(strong + MustPost(strong, target, deficit, comps), target, deficit, comps) == 0
    decreases Max(target + comps - strong, 0)
  {
    var n := MustPost(strong, target, deficit, comps);
    if n > 0 {
      RotationSettles(strong + n, target, deficit, comps);
    }
  }

  /** The allowance is a maximum, but the deficit is not reduced by what has
      been bonded to compensate it. Repeated rotation bonds no more than the
      deficit exactly when there is none, or it uses up the allowance anyway,
      or that much was bonded before. */
  lemma CompensationMatchesDeficit(strong: nat, target: nat, deficit: int, comps: nat)
    ensures Settle(strong, target, deficit, comps) == Max(strong, target + Min(Max(deficit, 0), comps))
       <==> deficit <= 0 || deficit >= comps || strong >= target + comps
  {
    RotationSettles(strong, target, deficit, comps);
  }

  /** One penalty, with three allowed, leads to three extra increments. */
  lemma OnePenaltyCompensatedThrice()
    ensures Settle(1, 1, 1, 3) == 4
  {
    RotationSettles(1, 1, 1, 3);
  }

  // ---------- the limit on the bonded amount ----------

  lemma MulAtMost(a: nat, b: nat, amt: nat)
    requires a <= b
    ensures a * amt <= b * amt
  {
  }

  predicate Fits(n: nat, amt: nat, bonded: nat, maxBonded: nat) {
    n * amt + bonded <= maxBonded
  }

  /** The greatest number up to what must be posted that fits the limit, or
      zero if none does. A limit of zero is no limit. */
  ghost predicate Capped(toPost: nat, mustPost: nat, amt: nat, bonded: nat, maxBonded: nat) {
    && toPost <= mustPost
    && (maxBonded == 0 ==> toPost == mustPost)
    && (maxBonded > 0 ==> toPost == 0 || Fits(toPost, amt, bonded, maxBonded))
    && (maxBonded > 0 ==> forall n :: toPost < n <= mustPost ==> !Fits(n, amt, bonded, maxBonded))
  }

  /** Count down from what must be posted until it fits. */
  method CapPosting(mustPost: nat, amt: nat, currentlyBonded: nat, maxBonded: nat) returns (toPost: nat)
    ensures Capped(toPost, mustPost, amt, currentlyBonded, maxBonded)
  {
    toPost := mustPost;
    var total := amt * mustPost;
    while maxBonded > 0 && total + currentlyBonded > maxBonded && toPost > 0
      invariant toPost <= mustPost
      invariant total == amt * toPost
      invariant maxBonded == 0 ==> toPost == mustPost
      invariant toPost < mustPost ==> !Fits(toPost + 1, amt, currentlyBonded, maxBonded)
    {
      toPost := toPost - 1;
      total := amt * toPost;
    }
    forall n: nat | toPost < n <= mustPost
      ensures !Fits(n, amt, currentlyBonded, maxBonded)
    {
      MulAtMost(toPost + 1, n, amt);
    }
  }

  /** The strength recorded with a bond of n increments, a 32-bit field. */
  function RecordedStrength(amount: nat, amt: nat): nat
    requires amt > 0
  {
    (amount / amt) % 0x1_0000_0000
  }

  lemma RecordedStrengthIsExact(n: nat, amt: nat)
    requires amt > 0
    ensures RecordedStrength(n * amt, amt) == n <==> n < 0x1_0000_0000
  {
    assert (n * amt) / amt == n by { DivMul(n, amt); }
  }

  lemma DivMul(n: nat, amt: nat)
    requires amt > 0
    ensures (n * amt) / amt == n
  {
    var q := (n * amt) / amt;
    assert q * amt <= n * amt < q * amt + amt;
    if q < n {
      MulAtMost(q + 1, n, amt);
    } else if q > n {
      MulAtMost(n + 1, q, amt);
    }
  }
}
