/** Fidelity bonds as the client keeps them: the record, its identity, its
    strength, the swap-with-last removal, and the counting arithmetic over
    lists that the other bond modules use. */
module Bonds {
  import opened Basics

  datatype Network = Mainnet | Testnet | Simnet

  /** Key index of a bond whose private key is unknown. */
  const MAX_KEY_INDEX: nat := 0xFFFF_FFFF
  /** Pseudo asset of bonds that were paid for in advance. */
  const PREPAID_BOND_ID: nat := 0x7FFF_FFFF

  type CoinID = string

  datatype Key = Key(assetID: nat, coinID: CoinID)

  datatype Bond = Bond(
    assetID: nat,
    coinID: CoinID,
    amount: nat,
    lockTime: nat,
    keyIndex: nat,
    refundTx: string,
    confirmed: bool,
    refunded: bool,
    strength: nat)

  /** The size of one bond increment for each supported asset. */
  type BondAssets = map<nat, nat>

  function KeyOf(b: Bond): Key {
    Key(b.assetID, b.coinID)
  }

  /** The record without its confirmation flag, which list membership implies. */
  function Record(b: Bond): Bond {
    b.(confirmed := false)
  }

  function One(yes: bool): nat {
    if yes then 1 else 0
  }

  // ---------- identity and contents of a list ----------

  /** How many bonds of the list have the key. */
  function Count(bs: seq<Bond>, k: Key): nat {
    if bs == [] then 0 else One(KeyOf(bs[0]) == k) + Count(bs[1..], k)
  }

  /** How many bonds of the list are this record, up to confirmation. */
  function Copies(bs: seq<Bond>, r: Bond): nat {
    if bs == [] then 0 else One(Record(bs[0]) == r) + Copies(bs[1..], r)
  }

  lemma {:induction false} CountConcat(a: seq<Bond>, b: seq<Bond>, k: Key)
    ensures Count(a + b, k) == Count(a, k) + Count(b, k)
  {
    if a == [] {
      assert a + b == b;
    } else {
      assert (a + b)[1..] == a[1..] + b;
      CountConcat(a[1..], b, k);
    }
  }

  lemma {:induction false} CopiesConcat(a: seq<Bond>, b: seq<Bond>, r: Bond)
    ensures Copies(a + b, r) == Copies(a, r) + Copies(b, r)
  {
    if a == [] {
      assert a + b == b;
    } else {
      assert (a + b)[1..] == a[1..] + b;
      CopiesConcat(a[1..], b, r);
    }
  }

  lemma Single(b: Bond, k: Key, r: Bond)
    ensures Count([b], k) == One(KeyOf(b) == k)
    ensures Copies([b], r) == One(Record(b) == r)
  {
    assert [b][1..] == [];
  }

  /** The list without its element i, order kept. */
  function Without(bs: seq<Bond>, i: nat): seq<Bond>
    requires i < |bs|
  {
    bs[..i] + bs[i + 1..]
  }

  lemma WithoutMeasures(bs: seq<Bond>, i: nat, k: Key, r: Bond, assets: BondAssets)
    requires i < |bs|
    ensures Count(bs, k) == Count(Without(bs, i), k) + One(KeyOf(bs[i]) == k)
    ensures Copies(bs, r) == Copies(Without(bs, i), r) + One(Record(bs[i]) == r)
    ensures SumStrengths(bs, assets) == SumStrengths(Without(bs, i), assets) + StrengthOf(bs[i], assets)
  {
    var before, after := bs[..i], bs[i + 1..];
    assert bs == before + ([bs[i]] + after);
    assert ([bs[i]] + after)[1..] == after;
    CountConcat(before, [bs[i]] + after, k);
    CountConcat(before, after, k);
    CopiesConcat(before, [bs[i]] + after, r);
    CopiesConcat(before, after, r);
    SumStrengthsConcat(before, [bs[i]] + after, assets);
    SumStrengthsConcat(before, after, assets);
  }

  /** Find the head of one list in a permutation of it. */
  lemma TakeOut<T>(a: seq<T>, b: seq<T>) returns (i: nat)
    requires a != [] && multiset(a) == multiset(b)
    ensures i < |b| && b[i] == a[0]
    ensures multiset(b[..i] + b[i + 1..]) == multiset(a[1..])
  {
    assert a == [a[0]] + a[1..];
    assert a[0] in multiset(b);
    i :| 0 <= i < |b| && b[i] == a[0];
    assert b == b[..i] + [b[i]] + b[i + 1..];
    assert multiset(b) == multiset(b[..i] + b[i + 1..]) + multiset{a[0]};
    assert multiset(b) - multiset{a[0]} == multiset(a[1..]);
  }

  lemma {:induction false} OrderIsNoMatter(a: seq<Bond>, b: seq<Bond>, k: Key, r: Bond)
    requires multiset(a) == multiset(b)
    ensures Count(a, k) == Count(b, k) && Copies(a, r) == Copies(b, r)
    decreases |a|
  {
    if a == [] {
      assert b == [];
    } else {
      var i := TakeOut(a, b);
      OrderIsNoMatter(a[1..], Without(b, i), k, r);
      WithoutMeasures(b, i, k, r, map[]);
    }
  }

  lemma {:induction false} IndexOfRecord(bs: seq<Bond>, r: Bond) returns (i: nat)
    requires Copies(bs, r) > 0
    ensures i < |bs| && Record(bs[i]) == r
  {
    if Record(bs[0]) == r {
      i := 0;
    } else {
      var j := IndexOfRecord(bs[1..], r);
      i := j + 1;
    }
  }

  lemma {:induction false} CountMember(bs: seq<Bond>, k: Key)
    ensures Count(bs, k) > 0 <==> exists i :: 0 <= i < |bs| && KeyOf(bs[i]) == k
  {
    if bs != [] {
      CountMember(bs[1..], k);
      if Count(bs[1..], k) > 0 {
        var i :| 0 <= i < |bs[1..]| && KeyOf(bs[1..][i]) == k;
        assert KeyOf(bs[i + 1]) == k;
      }
      if exists i :: 1 <= i < |bs| && KeyOf(bs[i]) == k {
        var i :| 1 <= i < |bs| && KeyOf(bs[i]) == k;
        assert KeyOf(bs[1..][i - 1]) == k;
      }
    }
  }

  /** Index of the first bond with the key, or the length of the list. */
  function IndexOf(bs: seq<Bond>, k: Key): (i: nat)
    ensures i <= |bs|
    ensures i < |bs| ==> KeyOf(bs[i]) == k
    ensures forall j :: 0 <= j < i ==> KeyOf(bs[j]) != k
  {
    if bs == [] then 0
    else if KeyOf(bs[0]) == k then 0
    else 1 + IndexOf(bs[1..], k)
  }

  /** Search the list for the key. */
  method FindBond(bs: seq<Bond>, k: Key) returns (i: nat)
    ensures i == IndexOf(bs, k)
  {
    i := 0;
    while i < |bs| && KeyOf(bs[i]) != k
      invariant i <= |bs|
      invariant forall j :: 0 <= j < i ==> KeyOf(bs[j]) != k
    {
      i := i + 1;
    }
  }

  /** No two bonds of the list have the same key. */
  ghost predicate Unique(bs: seq<Bond>) {
    forall i, j :: 0 <= i < j < |bs| ==> KeyOf(bs[i]) != KeyOf(bs[j])
  }

  lemma IndexOfFound(bs: seq<Bond>, k: Key)
    ensures IndexOf(bs, k) < |bs| <==> Count(bs, k) > 0
  {
    CountMember(bs, k);
  }

  /** Overwrite position i with the last bond and shorten the list by one. */
  function Cut(bs: seq<Bond>, i: nat): seq<Bond>
    requires i < |bs|
  {
    bs[i := bs[|bs| - 1]][..|bs| - 1]
  }

  /** The swap-with-last removal takes away exactly the bond at i. */
  lemma CutMeasures(bs: seq<Bond>, i: nat, k: Key, r: Bond)
    requires i < |bs|
    ensures Count(bs, k) == Count(Cut(bs, i), k) + One(KeyOf(bs[i]) == k)
    ensures Copies(bs, r) == Copies(Cut(bs, i), r) + One(Record(bs[i]) == r)
  {
    var n := |bs| - 1;
    WithoutMeasures(bs, i, k, r, map[]);
    if i == n {
      assert Cut(bs, i) == Without(bs, i);
    } else {
      var before, mid, last := bs[..i], bs[i + 1..n], [bs[n]];
      assert Cut(bs, i) == before + (last + mid);
      assert Without(bs, i) == before + (mid + last);
      CountConcat(before, last + mid, k);
      CountConcat(before, mid + last, k);
      CountConcat(last, mid, k);
      CountConcat(mid, last, k);
      CopiesConcat(before, last + mid, r);
      CopiesConcat(before, mid + last, r);
      CopiesConcat(last, mid, r);
      CopiesConcat(mid, last, r);
    }
  }

  // ---------- strength ----------

  /** Recorded strength, or for old records the number of increments the amount buys. */
  function StrengthOf(b: Bond, assets: BondAssets): nat {
    if b.strength > 0 then b.strength
    else if b.assetID in assets && assets[b.assetID] > 0 then b.amount / assets[b.assetID]
    else 0
  }

  /** What dividing by the increment means. */
  lemma Buys(amount: nat, amt: nat)
    requires amt > 0
    ensures (amount / amt) * amt <= amount < (amount / amt + 1) * amt
  {
  }

  /** A recorded strength counts as it is; without one, the strength is the
      greatest number of increments the amount pays for; in an asset that is not
      supported it is nothing. */
  lemma StrengthIsWhatItBuys(b: Bond, assets: BondAssets)
    ensures b.strength > 0 ==> StrengthOf(b, assets) == b.strength
    ensures var n := StrengthOf(b, assets);
      b.strength == 0 && b.assetID in assets && assets[b.assetID] > 0 ==>
        n * assets[b.assetID] <= b.amount < (n + 1) * assets[b.assetID]
    ensures b.strength == 0 && (b.assetID !in assets || assets[b.assetID] == 0) ==> StrengthOf(b, assets) == 0
  {
    if b.assetID in assets && assets[b.assetID] > 0 {
      Buys(b.amount, assets[b.assetID]);
    }
  }

  function SumStrengths(bs: seq<Bond>, assets: BondAssets): nat {
    if bs == [] then 0 else StrengthOf(bs[0], assets) + SumStrengths(bs[1..], assets)
  }

  lemma {:induction false} SumStrengthsConcat(a: seq<Bond>, b: seq<Bond>, assets: BondAssets)
    ensures SumStrengths(a + b, assets) == SumStrengths(a, assets) + SumStrengths(b, assets)
  {
    if a == [] {
      assert a + b == b;
    } else {
      assert (a + b)[1..] == a[1..] + b;
      SumStrengthsConcat(a[1..], b, assets);
    }
  }

  /** Every record of a is in b at least as often. */
  ghost predicate Covers(b: seq<Bond>, a: seq<Bond>) {
    forall r :: Copies(a, r) <= Copies(b, r)
  }

  /** More records, whatever their order, never mean less strength. */
  lemma {:induction false} StrengthGrows(a: seq<Bond>, b: seq<Bond>, assets: BondAssets)
    requires Covers(b, a)
    ensures SumStrengths(a, assets) <= SumStrengths(b, assets)
    decreases |a|
  {
    if a != [] {
      var head := Record(a[0]);
      assert Copies(a, head) <= Copies(b, head);
      var i := IndexOfRecord(b, head);
      forall r
        ensures Copies(a[1..], r) <= Copies(Without(b, i), r)
      {
        WithoutMeasures(b, i, KeyOf(head), r, assets);
        assert Copies(a, r) <= Copies(b, r);
      }
      StrengthGrows(a[1..], Without(b, i), assets);
      WithoutMeasures(b, i, KeyOf(head), head, assets);
      assert StrengthOf(a[0], assets) == StrengthOf(head, assets) == StrengthOf(b[i], assets);
    }
  }

  // ---------- amounts ----------

  /** What the bonds of one asset in the list amount to. */
  function AmountIn(bs: seq<Bond>, asset: nat): nat {
    if bs == [] then 0 else (if bs[0].assetID == asset then bs[0].amount else 0) + AmountIn(bs[1..], asset)
  }

  lemma {:induction false} AmountsAdd(a: seq<Bond>, b: seq<Bond>, asset: nat)
    ensures AmountIn(a + b, asset) == AmountIn(a, asset) + AmountIn(b, asset)
  {
    if a == [] {
      assert a + b == b;
    } else {
      assert (a + b)[1..] == a[1..] + b;
      AmountsAdd(a[1..], b, asset);
    }
  }

  lemma AmountOfOne(b: Bond, asset: nat)
    ensures AmountIn([b], asset) == if b.assetID == asset then b.amount else 0
  {
    assert [b][1..] == [];
  }

  // ---------- selection by lock time ----------

  /** The bonds whose lock time is beyond the threshold, in order. */
  function Above(bs: seq<Bond>, thresh: int): seq<Bond> {
    if bs == [] then []
    else (if bs[0].lockTime > thresh then [bs[0]] else []) + Above(bs[1..], thresh)
  }

  /** The bonds whose lock time is at or before the threshold, in order. */
  function UpTo(bs: seq<Bond>, thresh: int): seq<Bond> {
    if bs == [] then []
    else (if bs[0].lockTime > thresh then [] else [bs[0]]) + UpTo(bs[1..], thresh)
  }

  lemma {:induction false} AboveConcat(a: seq<Bond>, b: seq<Bond>, thresh: int)
    ensures Above(a + b, thresh) == Above(a, thresh) + Above(b, thresh)
    ensures UpTo(a + b, thresh) == UpTo(a, thresh) + UpTo(b, thresh)
  {
    if a == [] {
      assert a + b == b;
    } else {
      assert (a + b)[1..] == a[1..] + b;
      AboveConcat(a[1..], b, thresh);
    }
  }

  /** What each selection keeps is decided by the records alone. */
  lemma {:induction false} SelectedCopies(bs: seq<Bond>, thresh: int, r: Bond)
    ensures Copies(Above(bs, thresh), r) == if r.lockTime > thresh then Copies(bs, r) else 0
    ensures Copies(UpTo(bs, thresh), r) == if r.lockTime > thresh then 0 else Copies(bs, r)
  {
    if bs != [] {
      SelectedCopies(bs[1..], thresh, r);
      assert Record(bs[0]).lockTime == bs[0].lockTime;
      Single(bs[0], KeyOf(r), r);
      if bs[0].lockTime > thresh {
        CopiesConcat([bs[0]], Above(bs[1..], thresh), r);
        assert UpTo(bs, thresh) == UpTo(bs[1..], thresh);
      } else {
        CopiesConcat([bs[0]], UpTo(bs[1..], thresh), r);
        assert Above(bs, thresh) == Above(bs[1..], thresh);
      }
    }
  }

  /** The two selections split the list. */
  lemma {:induction false} SplitCount(bs: seq<Bond>, thresh: int, k: Key)
    ensures Count(bs, k) == Count(Above(bs, thresh), k) + Count(UpTo(bs, thresh), k)
  {
    if bs != [] {
      SplitCount(bs[1..], thresh, k);
      Single(bs[0], k, bs[0]);
      if bs[0].lockTime > thresh {
        CountConcat([bs[0]], Above(bs[1..], thresh), k);
        assert UpTo(bs, thresh) == UpTo(bs[1..], thresh);
      } else {
        CountConcat([bs[0]], UpTo(bs[1..], thresh), k);
        assert Above(bs, thresh) == Above(bs[1..], thresh);
      }
    }
  }

  lemma {:induction false} SplitStrength(bs: seq<Bond>, thresh: int, assets: BondAssets)
    ensures SumStrengths(bs, assets) == SumStrengths(Above(bs, thresh), assets) + SumStrengths(UpTo(bs, thresh), assets)
  {
    if bs != [] {
      SplitStrength(bs[1..], thresh, assets);
      assert [bs[0]][1..] == [];
      if bs[0].lockTime > thresh {
        SumStrengthsConcat([bs[0]], Above(bs[1..], thresh), assets);
        assert UpTo(bs, thresh) == UpTo(bs[1..], thresh);
      } else {
        SumStrengthsConcat([bs[0]], UpTo(bs[1..], thresh), assets);
        assert Above(bs, thresh) == Above(bs[1..], thresh);
      }
    }
  }

  lemma {:induction false} SelectedMembers(bs: seq<Bond>, thresh: int, b: Bond)
    ensures b in Above(bs, thresh) <==> b in bs && b.lockTime > thresh
    ensures b in UpTo(bs, thresh) <==> b in bs && b.lockTime <= thresh
  {
    if bs != [] {
      SelectedMembers(bs[1..], thresh, b);
      assert bs == [bs[0]] + bs[1..];
    }
  }

  /** Selecting with a lower threshold first changes nothing. */
  lemma {:induction false} AboveTwice(bs: seq<Bond>, lo: int, hi: int)
    requires lo <= hi
    ensures Above(Above(bs, lo), hi) == Above(bs, hi)
  {
    if bs != [] {
      AboveTwice(bs[1..], lo, hi);
      AboveConcat(if bs[0].lockTime > lo then [bs[0]] else [], Above(bs[1..], lo), hi);
      assert [bs[0]][1..] == [];
    }
  }
}
