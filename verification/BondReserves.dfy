/** How many bond increments to keep funds for. Bonds that will need a
    replacement are listed with the instant they turn weak; bonds that have
    expired are listed with the instant their funds come back; a greedy pass
    lets returning funds pay for later replacements. */
module BondReserves {
  import opened Basics
  import opened Bonds
  import opened BondTiming

  /** Replacements that fall due together: the weak time and how many increments. */
  datatype Tier = Tier(weak: int, tiers: nat)

  /** Funds that come back: when, and how many increments they pay for. */
  datatype Refund = Refund(at: int, strength: nat)

  // ---------- the replacements that will fall due ----------

  /** What the reserve depends on besides the bonds. */
  datatype Config = Config(target: nat, assets: BondAssets, bondExpiry: nat, net: Network) {
    /** Every listed asset has an increment: its size divides amounts. */
    ghost predicate Ok() {
      target > 0 && forall a :: a in assets ==> assets[a] > 0
    }

    function WeakTime(b: Bond): int {
      b.lockTime - bondExpiry - PendingBuffer(net)
    }

    /** Increments that a bond in a supported asset holds. */
    function Increments(b: Bond): nat
      requires Ok() && b.assetID in assets
    {
      b.amount / assets[b.assetID]
    }
  }

  /** Append one bond after another, each counted up to what the target still
      lacks, until the target is reached; an unsupported asset counts as one. */
  function Collect(bs: seq<Bond>, cfg: Config, listed: seq<Tier>, have: nat): (seq<Tier>, nat)
    requires cfg.Ok() && have <= cfg.target
  {
    if bs == [] then (listed, have)
    else if bs[0].assetID !in cfg.assets then
      Collect(bs[1..], cfg, listed + [Tier(cfg.WeakTime(bs[0]), 1)], have)
    else
      var tiers := Min(cfg.Increments(bs[0]), cfg.target - have);
      var listed' := listed + [Tier(cfg.WeakTime(bs[0]), tiers)];
      if have + tiers == cfg.target then (listed', cfg.target)
      else Collect(bs[1..], cfg, listed', have + tiers)
  }

  /** List the replacements that will fall due. */
  method CollectActive(bonds: seq<Bond>, cfg: Config) returns (activeTiers: seq<Tier>, tierSum: nat)
    requires cfg.Ok()
    ensures (activeTiers, tierSum) == Collect(bonds, cfg, [], 0)
  {
    activeTiers, tierSum := [], 0;
    var i := 0;
    assert bonds[0..] == bonds;
    while i < |bonds|
      invariant i <= |bonds| && tierSum <= cfg.target
      invariant Collect(bonds[i..], cfg, activeTiers, tierSum) == Collect(bonds, cfg, [], 0)
    {
      var bond := bonds[i];
      assert bonds[i..][1..] == bonds[i + 1..];
      i := i + 1;
      if bond.assetID !in cfg.assets {
        activeTiers := activeTiers + [Tier(cfg.WeakTime(bond), 1)];
        continue;
      }
      var tiers := Min(cfg.Increments(bond), cfg.target - tierSum);
      tierSum := tierSum + tiers;
      activeTiers := activeTiers + [Tier(cfg.WeakTime(bond), tiers)];
      if tierSum == cfg.target {
        break;
      }
    }
  }

  /** Increments the supported bonds of the list hold. */
  function Supported(bs: seq<Bond>, cfg: Config): nat
    requires cfg.Ok()
  {
    if bs == [] then 0
    else (if bs[0].assetID in cfg.assets then cfg.Increments(bs[0]) else 0) + Supported(bs[1..], cfg)
  }

  function Unsupported(bs: seq<Bond>, cfg: Config): nat {
    if bs == [] then 0 else One(bs[0].assetID !in cfg.assets) + Unsupported(bs[1..], cfg)
  }

  /** What is covered is the supported strength capped at the target, and the
      listed tiers are that plus at most one for each unsupported bond. */
  lemma {:induction false} CollectTotals(bs: seq<Bond>, cfg: Config, listed: seq<Tier>, have: nat)
    requires cfg.Ok() && have < cfg.target
    ensures Collect(bs, cfg, listed, have).1 == Min(have + Supported(bs, cfg), cfg.target)
    ensures 0 <= Total(Collect(bs, cfg, listed, have).0) - Total(listed) - (Collect(bs, cfg, listed, have).1 - have) <=
        Unsupported(bs, cfg)
    ensures have + Supported(bs, cfg) < cfg.target ==>
      Total(Collect(bs, cfg, listed, have).0) - Total(listed) - (Collect(bs, cfg, listed, have).1 - have) ==
          Unsupported(bs, cfg)
  {
    if bs != [] {
      if bs[0].assetID !in cfg.assets {
        var next := Tier(cfg.WeakTime(bs[0]), 1);
        TotalSnoc(listed, next);
        CollectTotals(bs[1..], cfg, listed + [next], have);
      } else {
        var tiers := Min(cfg.Increments(bs[0]), cfg.target - have);
        var next := Tier(cfg.WeakTime(bs[0]), tiers);
        TotalSnoc(listed, next);
        if have + tiers < cfg.target {
          CollectTotals(bs[1..], cfg, listed + [next], have + tiers);
        }
      }
    }
  }

  /** A replacement is listed for a bond: it falls due at the first instant at
      which the server will have expired the bond a pending buffer later,
      and is for no more than the bond pays for, or for one increment if the
      asset is not supported. */
  ghost predicate Listed(cfg: Config, b: Bond, t: Tier) {
    && ServerExpires(b.lockTime, cfg.bondExpiry, t.weak + PendingBuffer(cfg.net))
    && !ServerExpires(b.lockTime, cfg.bondExpiry, t.weak + PendingBuffer(cfg.net) - 1)
    && (b.assetID in cfg.assets ==> t.tiers * cfg.assets[b.assetID] <= b.amount)
    && (b.assetID !in cfg.assets ==> t.tiers == 1)
  }

  /** All that the bond pays for is listed. */
  predicate ListedInFull(cfg: Config, b: Bond, t: Tier) {
    b.assetID in cfg.assets ==> b.amount < (t.tiers + 1) * cfg.assets[b.assetID]
  }

  lemma ListsOne(cfg: Config, b: Bond, room: nat)
    requires cfg.Ok()
    ensures b.assetID !in cfg.assets ==> Listed(cfg, b, Tier(cfg.WeakTime(b), 1))
    ensures b.assetID in cfg.assets ==>
      var tiers := Min(cfg.Increments(b), room);
      && Listed(cfg, b, Tier(cfg.WeakTime(b), tiers))
      && (tiers < room ==> ListedInFull(cfg, b, Tier(cfg.WeakTime(b), tiers)))
  {
    if b.assetID in cfg.assets {
      var amt, n := cfg.assets[b.assetID], cfg.Increments(b);
      Buys(b.amount, amt);
      var tiers := Min(n, room);
      assert tiers * amt <= n * amt by {
        assert (n - tiers) * amt >= 0;
        assert n * amt == tiers * amt + (n - tiers) * amt;
      }
    }
  }

  /** The bonds are listed one by one and in order; all but the last in full, and
      none is left out unless the target is reached. */
  lemma {:induction false} CollectListsBonds(bs: seq<Bond>, cfg: Config, listed: seq<Tier>, have: nat)
    requires cfg.Ok() && have < cfg.target
    ensures var (all, covered) := Collect(bs, cfg, listed, have); var n := |listed|;
      && n <= |all| <= n + |bs| && all[..n] == listed
      && (forall i :: n <= i < |all| ==> Listed(cfg, bs[i - n], all[i]))
      && (forall i :: n <= i < |all| - 1 ==> ListedInFull(cfg, bs[i - n], all[i]))
      && (covered < cfg.target ==> |all| == n + |bs|)
      && (covered < cfg.target ==> forall i :: n <= i < |all| ==> ListedInFull(cfg, bs[i - n], all[i]))
    decreases |bs|
  {
    var n := |listed|;
    var (all, covered) := Collect(bs, cfg, listed, have);
    if bs != [] {
      ListsOne(cfg, bs[0], cfg.target - have);
      var unsupported := bs[0].assetID !in cfg.assets;
      var tiers: nat := if unsupported then 1 else Min(cfg.Increments(bs[0]), cfg.target - have);
      var one := Tier(cfg.WeakTime(bs[0]), tiers);
      var more: nat := if unsupported then 0 else tiers;
      if have + more < cfg.target {
        CollectListsBonds(bs[1..], cfg, listed + [one], have + more);
        assert all[n] == all[..n + 1][n] == one;
        assert all[..n] == all[..n + 1][..n];
        forall i | n <= i < |all|
          ensures Listed(cfg, bs[i - n], all[i])
          ensures i < |all| - 1 || covered < cfg.target ==> ListedInFull(cfg, bs[i - n], all[i])
        {
          assert i > n ==> bs[i - n] == bs[1..][i - (n + 1)];
        }
      } else {
        assert all == listed + [one];
      }
    }
  }

  lemma {:induction false} TotalSnoc(ts: seq<Tier>, t: Tier)
    ensures Total(ts + [t]) == Total(ts) + t.tiers
  {
    if ts == [] {
      assert [t][1..] == [];
      assert ts + [t] == [t];
    } else {
      assert (ts + [t])[1..] == ts[1..] + [t];
      TotalSnoc(ts[1..], t);
    }
  }

  // ---------- tiers by time ----------

  function Total(ts: seq<Tier>): nat {
    if ts == [] then 0 else ts[0].tiers + Total(ts[1..])
  }

  /** Increments that fall due at or before the instant. */
  function DueBy(ts: seq<Tier>, at: int): nat {
    if ts == [] then 0 else (if ts[0].weak <= at then ts[0].tiers else 0) + DueBy(ts[1..], at)
  }

  ghost predicate WeakSorted(ts: seq<Tier>) {
    forall i, j :: 0 <= i < j < |ts| ==> ts[i].weak <= ts[j].weak
  }

  ghost predicate RefundSorted(rs: seq<Refund>) {
    forall i, j :: 0 <= i < j < |rs| ==> rs[i].at <= rs[j].at
  }

  lemma {:induction false} DueByBounds(ts: seq<Tier>, at: int, later: int)
    requires at <= later
    ensures DueBy(ts, at) <= DueBy(ts, later) <= Total(ts)
  {
    if ts != [] {
      DueByBounds(ts[1..], at, later);
    }
  }

  // ---------- the one-counter reference for the greedy pass ----------

  /** Refunds in time order take tiers from the front of the time-sorted list:
      one counter says how many are taken. The pass ends at the first refund
      that comes too late for the first tier still open. */
  function Consume(ts: seq<Tier>, rs: seq<Refund>, c: nat): nat
    requires c <= Total(ts)
  {
    if rs == [] then c
    else if DueBy(ts, rs[0].at) > c then c
    else Consume(ts, rs[1..], Min(Total(ts), c + rs[0].strength))
  }

  /** The tiers left once c increments are taken from the front. */
  function Drained(ts: seq<Tier>, c: nat): (d: seq<Tier>)
    ensures |d| == |ts|
  {
    if ts == [] then []
    else if c >= ts[0].tiers then [Tier(ts[0].weak, 0)] + Drained(ts[1..], c - ts[0].tiers)
    else [Tier(ts[0].weak, ts[0].tiers - c)] + ts[1..]
  }

  lemma {:induction false} DrainedNothing(ts: seq<Tier>)
    ensures Drained(ts, 0) == ts
  {
    if ts != [] && ts[0].tiers == 0 {
      DrainedNothing(ts[1..]);
    }
  }

  lemma {:induction false} DrainedTotal(ts: seq<Tier>, c: nat)
    requires c <= Total(ts)
    ensures Total(Drained(ts, c)) == Total(ts) - c
  {
    if ts != [] {
      var d := Drained(ts, c);
      if c >= ts[0].tiers {
        DrainedTotal(ts[1..], c - ts[0].tiers);
        assert d[1..] == Drained(ts[1..], c - ts[0].tiers);
      } else {
        assert d[1..] == ts[1..];
      }
    }
  }

  lemma {:induction false} NothingDue(ts: seq<Tier>, at: int)
    requires WeakSorted(ts)
    requires ts != [] ==> at < ts[0].weak
    ensures DueBy(ts, at) == 0
  {
    if ts != [] {
      NothingDue(ts[1..], at);
    }
  }

  // ---------- the greedy pass as the client runs it ----------

  /** What the expired bonds of one asset bring back. */
  function Refunds(bs: seq<Bond>, asset: nat, amt: nat, net: Network): seq<Refund>
    requires amt > 0
  {
    if bs == [] then []
    else (if bs[0].assetID == asset then [RefundOf(bs[0], amt, net)] else []) + Refunds(bs[1..], asset, amt, net)
  }

  function RefundOf(b: Bond, amt: nat, net: Network): Refund
    requires amt > 0
  {
    Refund(b.lockTime + SpendableDelay(net), b.amount / amt)
  }

  /** The bonds of one asset, in order. */
  function OfAsset(bs: seq<Bond>, asset: nat): seq<Bond> {
    if bs == [] then []
    else (if bs[0].assetID == asset then [bs[0]] else []) + OfAsset(bs[1..], asset)
  }

  lemma {:induction false} OfAssetAmounts(bs: seq<Bond>, asset: nat)
    ensures AmountIn(OfAsset(bs, asset), asset) == AmountIn(bs, asset)
    ensures forall b :: b in OfAsset(bs, asset) <==> b in bs && b.assetID == asset
  {
    if bs != [] {
      OfAssetAmounts(bs[1..], asset);
      var head := if bs[0].assetID == asset then [bs[0]] else [];
      AmountsAdd(head, OfAsset(bs[1..], asset), asset);
      AmountOfOne(bs[0], asset);
      assert bs == [bs[0]] + bs[1..];
    }
  }

  /** What a refund is worth: it pays for the greatest number of increments that
      the bond's amount does, once the bond can be spent. */
  predicate Redeems(b: Bond, r: Refund, amt: nat, net: Network) {
    && r.at == b.lockTime + 3 * PendingBuffer(net)
    && r.strength * amt <= b.amount < (r.strength + 1) * amt
  }

  /** There is one refund for each bond of the asset, and it is worth the bond. */
  lemma {:induction false} RefundsAreMoney(bs: seq<Bond>, asset: nat, amt: nat, net: Network)
    requires amt > 0
    ensures var own, rs := OfAsset(bs, asset), Refunds(bs, asset, amt, net);
      |rs| == |own| && forall j :: 0 <= j < |rs| ==> Redeems(own[j], rs[j], amt, net)
  {
    if bs != [] {
      RefundsAreMoney(bs[1..], asset, amt, net);
      Buys(bs[0].amount, amt);
      var own, rs := OfAsset(bs[1..], asset), Refunds(bs[1..], asset, amt, net);
      if bs[0].assetID == asset {
        assert OfAsset(bs, asset) == [bs[0]] + own;
        assert Refunds(bs, asset, amt, net) == [RefundOf(bs[0], amt, net)] + rs;
      } else {
        assert OfAsset(bs, asset) == own && Refunds(bs, asset, amt, net) == rs;
      }
    }
  }

  /** One refund walks the tiers in order: empty ones are passed over, a tier
      that is due too early ends the whole pass, and the others are paid down. */
  function Pay(ts: seq<Tier>, at: int, strength: nat): (seq<Tier>, bool) {
    if ts == [] then ([], false)
    else if ts[0].tiers == 0 then
      var (rest, late) := Pay(ts[1..], at, strength);
      ([ts[0]] + rest, late)
    else if at >= ts[0].weak then (ts, true)
    else if ts[0].tiers < strength then
      var (rest, late) := Pay(ts[1..], at, strength - ts[0].tiers);
      ([Tier(ts[0].weak, 0)] + rest, late)
    else ([Tier(ts[0].weak, ts[0].tiers - strength)] + ts[1..], false)
  }

  /** On time-sorted tiers the walk is one step of the counter. In particular it
      ends the pass only at the first open tier, having paid for nothing. */
  lemma {:induction false} PayIsOneStep(ts: seq<Tier>, c: nat, at: int, strength: nat)
    requires WeakSorted(ts) && c <= Total(ts)
    ensures Pay(Drained(ts, c), at, strength)
         == if DueBy(ts, at) > c then (Drained(ts, c), true)
            else (Drained(ts, Min(Total(ts), c + strength)), false)
  {
    if ts == [] {
    } else if c >= ts[0].tiers {
      PayIsOneStep(ts[1..], c - ts[0].tiers, at, strength);
      PayPastEmpty(ts, c, at, strength);
    } else if at < ts[0].weak {
      NothingDue(ts, at);
      var left := ts[0].tiers - c;
      assert Drained(ts, c)[1..] == ts[1..];
      DrainedNothing(ts[1..]);
      if left < strength {
        PayIsOneStep(ts[1..], 0, at, strength - left);
        NothingDue(ts[1..], at);
      }
    }
  }

  lemma PayPastEmpty(ts: seq<Tier>, c: nat, at: int, strength: nat)
    requires WeakSorted(ts) && ts != [] && ts[0].tiers <= c
    ensures Pay(Drained(ts, c), at, strength)
         == var (rest, late) := Pay(Drained(ts[1..], c - ts[0].tiers), at, strength);
            ([Tier(ts[0].weak, 0)] + rest, late)
    ensures DueBy(ts, at) > c <==> DueBy(ts[1..], at) > c - ts[0].tiers
  {
    assert Drained(ts, c)[1..] == Drained(ts[1..], c - ts[0].tiers);
    if at < ts[0].weak {
      NothingDue(ts, at);
    }
  }

  /** The walk from tier i on, the tiers before it being settled. */
  function PayFrom(ts: seq<Tier>, i: nat, at: int, strength: nat): (seq<Tier>, bool)
    requires i <= |ts|
  {
    var (rest, late) := Pay(ts[i..], at, strength);
    (ts[..i] + rest, late)
  }

  lemma PayFromStep(ts: seq<Tier>, i: nat, at: int, strength: nat)
    requires i < |ts|
    ensures PayFrom(ts, i, at, strength)
         == if ts[i].tiers == 0 then PayFrom(ts, i + 1, at, strength)
            else if at >= ts[i].weak then (ts, true)
            else if ts[i].tiers < strength then PayFrom(ts[i := Tier(ts[i].weak, 0)], i + 1, at, strength - ts[i].tiers)
            else (ts[i := Tier(ts[i].weak, ts[i].tiers - strength)], false)
  {
    var before, after := ts[..i], ts[i + 1..];
    assert ts[i..][1..] == after;
    if ts[i].tiers == 0 {
      var rest := Pay(after, at, strength).0;
      assert ts[..i + 1] + rest == before + ([ts[i]] + rest);
    } else if at >= ts[i].weak {
      assert ts == before + ts[i..];
    } else if ts[i].tiers < strength {
      var paid := Tier(ts[i].weak, 0);
      var rest := Pay(after, at, strength - ts[i].tiers).0;
      assert ts[i := paid][i + 1..] == after;
      assert ts[i := paid][..i + 1] + rest == before + ([paid] + rest);
    } else {
      var paid := Tier(ts[i].weak, ts[i].tiers - strength);
      assert ts[i := paid] == before + ([paid] + after);
    }
  }

  /** The inner loop: pay for open tiers in place; late tells the caller to stop. */
  method PayOne(activeTiers: array<Tier>, refundableTime: int, amount: nat) returns (late: bool)
    modifies activeTiers
    ensures (activeTiers[..], late) == Pay(old(activeTiers[..]), refundableTime, amount)
  {
    ghost var paid := Pay(activeTiers[..], refundableTime, amount);
    var strength: nat := amount;
    var i := 0;
    assert activeTiers[..][0..] == activeTiers[..] && activeTiers[..][..0] + paid.0 == paid.0;
    while i < activeTiers.Length
      invariant i <= activeTiers.Length
      invariant PayFrom(activeTiers[..], i, refundableTime, strength) == paid
    {
      PayFromStep(activeTiers[..], i, refundableTime, strength);
      var weakTime, tiers := activeTiers[i].weak, activeTiers[i].tiers;
      i := i + 1;
      if tiers == 0 {
        continue;
      }
      if refundableTime >= weakTime {
        return true;
      }
      if tiers < strength {
        strength := strength - tiers;
        activeTiers[i - 1] := Tier(weakTime, 0);
      } else {
        activeTiers[i - 1] := Tier(weakTime, tiers - strength);
        return false;
      }
    }
    assert activeTiers[..][i..] == [] && activeTiers[..][..i] + [] == activeTiers[..];
    late := false;
  }

  /** Go through the expired bonds of the asset in order, each paying for the
      earliest tiers still open, and stop at the first that comes too late. */
  method CreditExpired(activeTiers: array<Tier>, expired: seq<Bond>, asset: nat, amt: nat, net: Network)
    requires amt > 0
    requires WeakSorted(activeTiers[..])
    modifies activeTiers
    ensures var active := old(activeTiers[..]);
      activeTiers[..] == Drained(active, Consume(active, Refunds(expired, asset, amt, net), 0))
  {
    ghost var active := activeTiers[..];
    DrainedNothing(active);
    ghost var c: nat := 0;
    ghost var rs := Refunds(expired, asset, amt, net);
    var n := 0;
    assert expired[0..] == expired;
    while n < |expired|
      invariant n <= |expired| && c <= Total(active)
      invariant activeTiers[..] == Drained(active, c)
      invariant rs == Refunds(expired[n..], asset, amt, net)
      invariant Consume(active, Refunds(expired, asset, amt, net), 0) == Consume(active, rs, c)
    {
      var bond := expired[n];
      assert expired[n..][1..] == expired[n + 1..];
      n := n + 1;
      if bond.assetID == asset {
        var refund := RefundOf(bond, amt, net);
        assert rs == [refund] + Refunds(expired[n..], asset, amt, net);
        PayIsOneStep(active, c, refund.at, refund.strength);
        var late := PayOne(activeTiers, refund.at, refund.strength);
        if late {
          break;
        }
        c, rs := Min(Total(active), c + refund.strength), rs[1..];
      }
    }
  }

  // ---------- the order of ties does not matter ----------

  ghost predicate LockSorted(bs: seq<Bond>) {
    forall i, j :: 0 <= i < j < |bs| ==> bs[i].lockTime <= bs[j].lockTime
  }

  lemma {:induction false} DueConcat(a: seq<Tier>, b: seq<Tier>, at: int)
    ensures Total(a + b) == Total(a) + Total(b)
    ensures DueBy(a + b, at) == DueBy(a, at) + DueBy(b, at)
  {
    if a == [] {
      assert a + b == b;
    } else {
      assert (a + b)[1..] == a[1..] + b;
      DueConcat(a[1..], b, at);
    }
  }

  /** What is due by an instant does not depend on the order of the list. */
  lemma {:induction false} DueIgnoresOrder(a: seq<Tier>, b: seq<Tier>, at: int)
    requires multiset(a) == multiset(b)
    ensures Total(a) == Total(b) && DueBy(a, at) == DueBy(b, at)
    decreases |a|
  {
    if a == [] {
      assert b == [];
    } else {
      var i := TakeOut(a, b);
      DueIgnoresOrder(a[1..], b[..i] + b[i + 1..], at);
      assert b == b[..i] + ([b[i]] + b[i + 1..]);
      DueConcat(b[..i], [b[i]] + b[i + 1..], at);
      DueConcat(b[..i], b[i + 1..], at);
      assert ([b[i]] + b[i + 1..])[1..] == b[i + 1..];
    }
  }

  lemma {:induction false} ConsumeIgnoresTierOrder(a: seq<Tier>, b: seq<Tier>, rs: seq<Refund>, c: nat)
    requires multiset(a) == multiset(b) && c <= Total(a)
    ensures Total(a) == Total(b) && Consume(a, rs, c) == Consume(b, rs, c)
    decreases |rs|
  {
    DueIgnoresOrder(a, b, if rs == [] then 0 else rs[0].at);
    if rs != [] && DueBy(a, rs[0].at) <= c {
      ConsumeIgnoresTierOrder(a, b, rs[1..], Min(Total(a), c + rs[0].strength));
    }
  }

  lemma ConsumeFirst(ts: seq<Tier>, r: Refund, rest: seq<Refund>, c: nat)
    requires c <= Total(ts)
    ensures Consume(ts, [r] + rest, c) ==
        if DueBy(ts, r.at) > c then c else Consume(ts, rest, Min(Total(ts), c + r.strength))
  {
    assert ([r] + rest)[1..] == rest;
  }

  lemma SwapFirst(ts: seq<Tier>, x: Refund, e: Refund, rest: seq<Refund>, c: nat)
    requires c <= Total(ts) && x.at == e.at
    ensures Consume(ts, [x] + ([e] + rest), c) == Consume(ts, [e] + ([x] + rest), c)
  {
    ConsumeFirst(ts, x, [e] + rest, c);
    ConsumeFirst(ts, e, [x] + rest, c);
    ConsumeFirst(ts, e, rest, Min(Total(ts), c + x.strength));
    ConsumeFirst(ts, x, rest, Min(Total(ts), c + e.strength));
  }

  /** A refund may be moved in front of refunds of the same instant. */
  lemma {:induction false} MoveToFront(ts: seq<Tier>, a: seq<Refund>, e: Refund, b: seq<Refund>, c: nat)
    requires c <= Total(ts)
    requires forall j :: 0 <= j < |a| ==> a[j].at == e.at
    ensures Consume(ts, a + ([e] + b), c) == Consume(ts, [e] + (a + b), c)
    decreases |a|
  {
    if a == [] {
      assert a + ([e] + b) == [e] + (a + b);
    } else {
      var x, rest := a[0], a[1..];
      assert a + ([e] + b) == [x] + (rest + ([e] + b));
      assert a + b == [x] + (rest + b);
      ConsumeFirst(ts, x, rest + ([e] + b), c);
      ConsumeFirst(ts, x, [e] + (rest + b), c);
      MoveToFront(ts, rest, e, b, Min(Total(ts), c + x.strength));
      SwapFirst(ts, x, e, rest + b, c);
    }
  }

  /** Any two time orders of the same refunds are credited alike. */
  lemma {:induction false} ConsumeIgnoresTies(ts: seq<Tier>, r1: seq<Refund>, r2: seq<Refund>, c: nat)
    requires RefundSorted(r1) && RefundSorted(r2) && multiset(r1) == multiset(r2)
    requires c <= Total(ts)
    ensures Consume(ts, r1, c) == Consume(ts, r2, c)
    decreases |r1|
  {
    if r1 == [] {
      assert r2 == [];
    } else {
      var e := r1[0];
      var k := TakeOut(r1, r2);
      var a, b := r2[..k], r2[k + 1..];
      assert r2 == a + ([e] + b);
      EarlierAreTies(r1, r2, k);
      RestIsSorted(r2, k);
      MoveToFront(ts, a, e, b, c);
      ConsumeFirst(ts, e, a + b, c);
      if DueBy(ts, e.at) <= c {
        RestIsSorted(r1, 0);
        assert r1[..0] + r1[1..] == r1[1..];
        ConsumeIgnoresTies(ts, r1[1..], a + b, Min(Total(ts), c + e.strength));
      }
    }
  }

  lemma RestIsSorted(rs: seq<Refund>, k: nat)
    requires RefundSorted(rs) && k < |rs|
    ensures RefundSorted(rs[..k] + rs[k + 1..])
  {
  }

  lemma EarlierAreTies(r1: seq<Refund>, r2: seq<Refund>, k: nat)
    requires RefundSorted(r1) && RefundSorted(r2) && multiset(r1) == multiset(r2)
    requires r1 != [] && k < |r2| && r2[k] == r1[0]
    ensures forall j :: 0 <= j < k ==> r2[j].at == r1[0].at
  {
    forall j | 0 <= j < k
      ensures r2[j].at == r1[0].at
    {
      assert r2[j] in multiset(r1);
    }
  }

  lemma {:induction false} RefundsConcat(a: seq<Bond>, b: seq<Bond>, asset: nat, amt: nat, net: Network)
    requires amt > 0
    ensures Refunds(a + b, asset, amt, net) == Refunds(a, asset, amt, net) + Refunds(b, asset, amt, net)
    decreases |a|
  {
    if a == [] {
      assert a + b == b;
    } else {
      assert a + b == [a[0]] + (a[1..] + b) && a == [a[0]] + a[1..];
      RefundsFirst(a[0], a[1..] + b, asset, amt, net);
      RefundsFirst(a[0], a[1..], asset, amt, net);
      RefundsConcat(a[1..], b, asset, amt, net);
    }
  }

  lemma RefundsFirst(b: Bond, rest: seq<Bond>, asset: nat, amt: nat, net: Network)
    requires amt > 0
    ensures Refunds([b] + rest, asset, amt, net) ==
        (if b.assetID == asset then [RefundOf(b, amt, net)] else []) + Refunds(rest, asset, amt, net)
  {
    assert ([b] + rest)[1..] == rest;
  }

  lemma {:induction false} RefundsIgnoreOrder(a: seq<Bond>, b: seq<Bond>, asset: nat, amt: nat, net: Network)
    requires amt > 0 && multiset(a) == multiset(b)
    ensures multiset(Refunds(a, asset, amt, net)) == multiset(Refunds(b, asset, amt, net))
    decreases |a|
  {
    if a == [] {
      assert b == [];
    } else {
      var i := TakeOut(a, b);
      var rest := b[..i] + b[i + 1..];
      RefundsIgnoreOrder(a[1..], rest, asset, amt, net);
      RefundTakenOut(a, 0, asset, amt, net);
      RefundTakenOut(b, i, asset, amt, net);
      assert a[..0] + a[1..] == a[1..];
    }
  }

  lemma RefundTakenOut(bs: seq<Bond>, i: nat, asset: nat, amt: nat, net: Network)
    requires amt > 0 && i < |bs|
    ensures multiset(Refunds(bs, asset, amt, net))
         == multiset(Refunds(bs[..i] + bs[i + 1..], asset, amt, net)) + multiset(Refunds([bs[i]], asset, amt, net))
  {
    var before, one, after := bs[..i], [bs[i]], bs[i + 1..];
    assert bs == before + (one + after);
    RefundsConcat(before, one + after, asset, amt, net);
    RefundsConcat(one, after, asset, amt, net);
    RefundsConcat(before, after, asset, amt, net);
  }

  lemma {:induction false} RefundsSorted(bs: seq<Bond>, asset: nat, amt: nat, net: Network)
    requires amt > 0 && LockSorted(bs)
    ensures RefundSorted(Refunds(bs, asset, amt, net))
    ensures forall r :: r in Refunds(bs, asset, amt, net) ==> bs[0].lockTime + SpendableDelay(net) <= r.at
  {
    if bs != [] {
      RefundsSorted(bs[1..], asset, amt, net);
    }
  }

  // ---------- the reserve ----------

  /** Insertion sort by lock time: one of the orders the sort may choose. */
  function ByLock(bs: seq<Bond>): seq<Bond> {
    if bs == [] then [] else InsertByLock(bs[0], ByLock(bs[1..]))
  }

  function InsertByLock(b: Bond, bs: seq<Bond>): (r: seq<Bond>)
    ensures |r| == |bs| + 1
  {
    if bs == [] || b.lockTime <= bs[0].lockTime then [b] + bs
    else [bs[0]] + InsertByLock(b, bs[1..])
  }

  lemma {:induction false} InsertByLockSorts(b: Bond, bs: seq<Bond>)
    requires LockSorted(bs)
    ensures LockSorted(InsertByLock(b, bs))
    ensures InsertByLock(b, bs)[0].lockTime == if bs == [] then b.lockTime else Min(b.lockTime, bs[0].lockTime)
  {
    if bs == [] || b.lockTime <= bs[0].lockTime {
    } else {
      InsertByLockSorts(b, bs[1..]);
      assert InsertByLock(b, bs)[1..] == InsertByLock(b, bs[1..]);
    }
  }

  lemma {:induction false} InsertByLockKeeps(b: Bond, bs: seq<Bond>)
    ensures multiset(InsertByLock(b, bs)) == multiset(bs) + multiset{b}
  {
    if bs == [] || b.lockTime <= bs[0].lockTime {
    } else {
      InsertByLockKeeps(b, bs[1..]);
      assert bs == [bs[0]] + bs[1..];
    }
  }

  lemma {:induction false} ByLockSorts(bs: seq<Bond>)
    ensures LockSorted(ByLock(bs)) && multiset(ByLock(bs)) == multiset(bs)
  {
    if bs != [] {
      var rest := ByLock(bs[1..]);
      ByLockSorts(bs[1..]);
      InsertByLockSorts(bs[0], rest);
      assert multiset(InsertByLock(bs[0], rest)) == multiset(bs) by {
        InsertByLockKeeps(bs[0], rest);
        assert bs == [bs[0]] + bs[1..];
      }
    }
  }

  function ByWeak(ts: seq<Tier>): seq<Tier> {
    if ts == [] then [] else InsertByWeak(ts[0], ByWeak(ts[1..]))
  }

  function InsertByWeak(t: Tier, ts: seq<Tier>): (r: seq<Tier>)
    ensures |r| == |ts| + 1
  {
    if ts == [] || t.weak <= ts[0].weak then [t] + ts
    else [ts[0]] + InsertByWeak(t, ts[1..])
  }

  lemma {:induction false} InsertByWeakSorts(t: Tier, ts: seq<Tier>)
    requires WeakSorted(ts)
    ensures WeakSorted(InsertByWeak(t, ts))
    ensures InsertByWeak(t, ts)[0].weak == if ts == [] then t.weak else Min(t.weak, ts[0].weak)
  {
    if ts == [] || t.weak <= ts[0].weak {
    } else {
      InsertByWeakSorts(t, ts[1..]);
      assert InsertByWeak(t, ts)[1..] == InsertByWeak(t, ts[1..]);
    }
  }

  lemma {:induction false} InsertByWeakKeeps(t: Tier, ts: seq<Tier>)
    ensures multiset(InsertByWeak(t, ts)) == multiset(ts) + multiset{t}
  {
    if ts == [] || t.weak <= ts[0].weak {
    } else {
      InsertByWeakKeeps(t, ts[1..]);
      assert ts == [ts[0]] + ts[1..];
    }
  }

  lemma {:induction false} ByWeakSorts(ts: seq<Tier>)
    ensures WeakSorted(ByWeak(ts)) && multiset(ByWeak(ts)) == multiset(ts)
  {
    if ts != [] {
      var rest := ByWeak(ts[1..]);
      ByWeakSorts(ts[1..]);
      InsertByWeakSorts(ts[0], rest);
      assert multiset(InsertByWeak(ts[0], rest)) == multiset(ts) by {
        InsertByWeakKeeps(ts[0], rest);
        assert ts == [ts[0]] + ts[1..];
      }
    }
  }

  /** The library sort: sorted, and in an order of ties that callers cannot rely on. */
  method SortTiers(ts: seq<Tier>) returns (sorted: array<Tier>)
    ensures fresh(sorted) && WeakSorted(sorted[..]) && multiset(sorted[..]) == multiset(ts)
  {
    var byWeak := ByWeak(ts);
    ByWeakSorts(ts);
    sorted := new Tier[|byWeak|](i requires 0 <= i < |byWeak| => byWeak[i]);
    assert sorted[..] == byWeak;
  }

  method SortBonds(bs: seq<Bond>) returns (sorted: seq<Bond>)
    ensures LockSorted(sorted) && multiset(sorted) == multiset(bs)
  {
    sorted := ByLock(bs);
    ByLockSorts(bs);
  }

  /** Increments credited by expired bonds. */
  function Credited(bonds: seq<Bond>, expired: seq<Bond>, cfg: Config, asset: nat, amt: nat): nat
    requires cfg.Ok() && amt > 0
  {
    Consume(Collect(bonds, cfg, [], 0).0, Refunds(ByLock(expired), asset, amt, cfg.net), 0)
  }

  /** Increments to keep funds for: twice what the target lacks, plus every
      listed replacement that no expired bond pays for. */
  function ReserveTiers(bonds: seq<Bond>, expired: seq<Bond>, cfg: Config, asset: nat, amt: nat): int
    requires cfg.Ok() && amt > 0
  {
    var (active, covered) := Collect(bonds, cfg, [], 0);
    2 * (cfg.target - covered) + Total(active) - Credited(bonds, expired, cfg, asset, amt)
  }

  lemma {:induction false} ConsumeBounds(ts: seq<Tier>, rs: seq<Refund>, c: nat)
    requires c <= Total(ts)
    ensures c <= Consume(ts, rs, c) <= Total(ts)
    decreases |rs|
  {
    if rs != [] && DueBy(ts, rs[0].at) <= c {
      ConsumeBounds(ts, rs[1..], Min(Total(ts), c + rs[0].strength));
    }
  }

  /** Whatever order the sorts choose, the credit is the same. */
  lemma CreditIgnoresSort(bonds: seq<Bond>, expired: seq<Bond>, cfg: Config, asset: nat, amt: nat,
          active: seq<Tier>, sorted: seq<Bond>)
    requires cfg.Ok() && amt > 0
    requires multiset(active) == multiset(Collect(bonds, cfg, [], 0).0)
    requires LockSorted(sorted) && multiset(sorted) == multiset(expired)
    ensures Consume(active, Refunds(sorted, asset, amt, cfg.net), 0) == Credited(bonds, expired, cfg, asset, amt)
    ensures Total(active) == Total(Collect(bonds, cfg, [], 0).0)
  {
    ByLockSorts(expired);
    RefundsSorted(sorted, asset, amt, cfg.net);
    RefundsSorted(ByLock(expired), asset, amt, cfg.net);
    RefundsIgnoreOrder(sorted, ByLock(expired), asset, amt, cfg.net);
    ConsumeIgnoresTies(active, Refunds(sorted, asset, amt, cfg.net), Refunds(ByLock(expired), asset, amt, cfg.net), 0);
    ConsumeIgnoresTierOrder(active, Collect(bonds, cfg, [], 0).0, Refunds(ByLock(expired), asset, amt, cfg.net), 0);
  }

  /** Whatever order the sorts choose, what the pass leaves makes up the reserve. */
  lemma LeftMakesReserve(bonds: seq<Bond>, expired: seq<Bond>, cfg: Config, asset: nat, amt: nat,
          active: seq<Tier>, sorted: seq<Bond>)
    requires cfg.Ok() && amt > 0
    requires multiset(active) == multiset(Collect(bonds, cfg, [], 0).0)
    requires LockSorted(sorted) && multiset(sorted) == multiset(expired)
    ensures Collect(bonds, cfg, [], 0).1 <= cfg.target
    ensures 2 * (cfg.target - Collect(bonds, cfg, [], 0).1)
          + Total(Drained(active, Consume(active, Refunds(sorted, asset, amt, cfg.net), 0)))
         == ReserveTiers(bonds, expired, cfg, asset, amt)
  {
    assert Collect(bonds, cfg, [], 0).1 <= cfg.target by {
      CollectTotals(bonds, cfg, [], 0);
    }
    var c := Consume(active, Refunds(sorted, asset, amt, cfg.net), 0);
    assert Total(Drained(active, c)) == Total(active) - c by {
      ConsumeBounds(active, Refunds(sorted, asset, amt, cfg.net), 0);
      DrainedTotal(active, c);
    }
    CreditIgnoresSort(bonds, expired, cfg, asset, amt, active, sorted);
  }

  /** The increments to reserve for. The expired list is left sorted by lock time. */
  method MinReserveTiers(bonds: seq<Bond>, expired: seq<Bond>, cfg: Config, asset: nat, amt: nat)
    returns (reserveTiers: nat, resorted: seq<Bond>)
    requires cfg.Ok() && amt > 0
    ensures LockSorted(resorted) && multiset(resorted) == multiset(expired)
    ensures reserveTiers == ReserveTiers(bonds, expired, cfg, asset, amt)
  {
    var listed, tierSum := CollectActive(bonds, cfg);
    var activeTiers := SortTiers(listed);
    resorted := SortBonds(expired);
    LeftMakesReserve(bonds, expired, cfg, asset, amt, activeTiers[..], resorted);
    CreditExpired(activeTiers, resorted, asset, amt, cfg.net);
    var sum := SumTiers(activeTiers[..]);
    reserveTiers := (cfg.target - tierSum) * 2 + sum;
  }

  /** The amount to reserve; an account without a target reserves nothing. */
  method MinBondReserves(pending: seq<Bond>, live: seq<Bond>, expired: seq<Bond>, cfg: Config, asset: nat, amt: nat)
    returns (reserve: nat, resorted: seq<Bond>)
    requires amt > 0 && forall a :: a in cfg.assets ==> cfg.assets[a] > 0
    ensures multiset(resorted) == multiset(expired)
    ensures cfg.target == 0 ==> reserve == 0 && resorted == expired
    ensures cfg.target > 0 ==> LockSorted(resorted)
    ensures cfg.target > 0 ==> reserve == ReserveTiers(pending + live, expired, cfg, asset, amt) * amt
  {
    if cfg.target == 0 {
      return 0, expired;
    }
    var tiers;
    tiers, resorted := MinReserveTiers(pending + live, expired, cfg, asset, amt);
    reserve := tiers * amt;
  }

  method SumTiers(ts: seq<Tier>) returns (sum: nat)
    ensures sum == Total(ts)
  {
    sum := 0;
    var i := 0;
    assert ts[0..] == ts;
    while i < |ts|
      invariant i <= |ts|
      invariant sum + Total(ts[i..]) == Total(ts)
    {
      assert ts[i..][1..] == ts[i + 1..];
      sum := sum + ts[i].tiers;
      i := i + 1;
    }
  }

  // ---------- what the reserve promises ----------

  /** The reserve lies between twice what is missing and that plus everything
      listed; an unsupported bond raises the upper bound by at most one. */
  lemma ReserveBounds(bonds: seq<Bond>, expired: seq<Bond>, cfg: Config, asset: nat, amt: nat)
    requires cfg.Ok() && amt > 0
    ensures var s := Min(Supported(bonds, cfg), cfg.target);
      2 * (cfg.target - s) <= ReserveTiers(bonds, expired, cfg, asset, amt) <=
          2 * cfg.target - s + Unsupported(bonds, cfg)
  {
    CollectTotals(bonds, cfg, [], 0);
    ConsumeBounds(Collect(bonds, cfg, [], 0).0, Refunds(ByLock(expired), asset, amt, cfg.net), 0);
  }

  lemma {:induction false} ConsumeMonotone(ts: seq<Tier>, rs: seq<Refund>, c: nat, c': nat)
    requires c <= c' <= Total(ts)
    ensures Consume(ts, rs, c) <= Consume(ts, rs, c')
    decreases |rs|
  {
    if rs != [] {
      if DueBy(ts, rs[0].at) > c {
        ConsumeBounds(ts, rs, c');
      } else {
        ConsumeMonotone(ts, rs[1..], Min(Total(ts), c + rs[0].strength), Min(Total(ts), c' + rs[0].strength));
      }
    }
  }

  /** One more refund, wherever it falls in time, never credits less. */
  lemma {:induction false} MoreRefundsCreditMore(ts: seq<Tier>, rs: seq<Refund>, k: nat, e: Refund, c: nat)
    requires k <= |rs| && c <= Total(ts)
    requires RefundSorted(rs[..k] + [e] + rs[k..])
    ensures Consume(ts, rs, c) <= Consume(ts, rs[..k] + [e] + rs[k..], c)
    decreases k
  {
    var more := rs[..k] + [e] + rs[k..];
    if k == 0 {
      assert more[0] == e && more[1..] == rs;
      if DueBy(ts, e.at) <= c {
        ConsumeMonotone(ts, rs, c, Min(Total(ts), c + e.strength));
      } else if rs != [] {
        assert more[1] == rs[0];
        DueByBounds(ts, e.at, rs[0].at);
      }
    } else {
      assert more[0] == rs[0];
      assert more[1..] == rs[1..][..k - 1] + [e] + rs[1..][k - 1..];
      if DueBy(ts, rs[0].at) <= c {
        MoreRefundsCreditMore(ts, rs[1..], k - 1, e, Min(Total(ts), c + rs[0].strength));
      }
    }
  }

  lemma {:induction false} InsertByLockAt(b: Bond, bs: seq<Bond>) returns (k: nat)
    ensures k <= |bs| && InsertByLock(b, bs) == bs[..k] + [b] + bs[k..]
  {
    if bs == [] || b.lockTime <= bs[0].lockTime {
      k := 0;
    } else {
      var j := InsertByLockAt(b, bs[1..]);
      k := j + 1;
    }
  }

  /** Adding an expired bond, wherever in the list, never raises the reserve. */
  lemma ExpiredBondsOnlyHelp(bonds: seq<Bond>, expired: seq<Bond>, extra: Bond, more: seq<Bond>, cfg: Config,
          asset: nat, amt: nat)
    requires cfg.Ok() && amt > 0
    requires multiset(more) == multiset(expired) + multiset{extra}
    ensures ReserveTiers(bonds, more, cfg, asset, amt) <= ReserveTiers(bonds, expired, cfg, asset, amt)
  {
    PrependedBondOnlyHelps(bonds, expired, extra, cfg, asset, amt);
    ByLockSorts([extra] + expired);
    CreditIgnoresSort(bonds, more, cfg, asset, amt, Collect(bonds, cfg, [], 0).0, ByLock([extra] + expired));
  }

  lemma PrependedBondOnlyHelps(bonds: seq<Bond>, expired: seq<Bond>, extra: Bond, cfg: Config, asset: nat, amt: nat)
    requires cfg.Ok() && amt > 0
    ensures ReserveTiers(bonds, [extra] + expired, cfg, asset, amt) <= ReserveTiers(bonds, expired, cfg, asset, amt)
  {
    var sorted := ByLock(expired);
    assert ([extra] + expired)[1..] == expired;
    ByLockSorts([extra] + expired);
    RefundsSorted(ByLock([extra] + expired), asset, amt, cfg.net);
    var n := RefundsOfInserted(extra, sorted, asset, amt, cfg.net);
    if extra.assetID == asset {
      MoreRefundsCreditMore(Collect(bonds, cfg, [], 0).0, Refunds(sorted, asset, amt, cfg.net), n,
          RefundOf(extra, amt, cfg.net), 0);
    }
  }

  /** Inserting a bond inserts its refund, if it has the asset. */
  lemma RefundsOfInserted(extra: Bond, sorted: seq<Bond>, asset: nat, amt: nat, net: Network) returns (n: nat)
    requires amt > 0
    ensures var rs := Refunds(sorted, asset, amt, net);
      && n <= |rs|
      && Refunds(InsertByLock(extra, sorted), asset, amt, net) ==
           if extra.assetID == asset then rs[..n] + [RefundOf(extra, amt, net)] + rs[n..] else rs
  {
    var k := InsertByLockAt(extra, sorted);
    var low, high := sorted[..k], sorted[k..];
    assert sorted == low + high;
    assert low + [extra] + high == low + ([extra] + high);
    RefundsConcat(low, high, asset, amt, net);
    RefundsConcat(low, [extra] + high, asset, amt, net);
    RefundsFirst(extra, high, asset, amt, net);
    n := |Refunds(low, asset, amt, net)|;
  }
}
