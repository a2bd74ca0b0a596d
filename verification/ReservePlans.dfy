/** Which refunds pay for which replacements. A plan spreads the refunds of
    expired bonds over the replacements that will fall due; the reserve is
    judged by the plans there are. */
module ReservePlans {
  import opened Basics
  import opened Bonds
  import opened BondTiming
  import opened BondReserves

  // ---------- plans ----------

  function Sum(row: seq<nat>): nat {
    if row == [] then 0 else row[0] + Sum(row[1..])
  }

  /** What all refunds together pay towards tier i. */
  function Column(rows: seq<seq<nat>>, i: nat): nat
    requires forall j :: 0 <= j < |rows| ==> i < |rows[j]|
  {
    if rows == [] then 0 else rows[0][i] + Column(rows[1..], i)
  }

  /** What a plan pays for altogether. */
  function Paid(rows: seq<seq<nat>>): nat {
    if rows == [] then 0 else Sum(rows[0]) + Paid(rows[1..])
  }

  /** One row for each refund says how much it pays towards each tier. No refund
      pays more than its strength, and none pays for a replacement that falls
      due before its funds are back. */
  ghost predicate InTime(rows: seq<seq<nat>>, rs: seq<Refund>, ts: seq<Tier>) {
    && |rows| == |rs|
    && (forall j :: 0 <= j < |rs| ==> |rows[j]| == |ts| && Sum(rows[j]) <= rs[j].strength)
    && (forall i, j :: 0 <= i < |ts| && 0 <= j < |rs| && rows[j][i] > 0 ==> rs[j].at < ts[i].weak)
  }

  /** Nor is any replacement paid for more than once. */
  ghost predicate Feasible(rows: seq<seq<nat>>, rs: seq<Refund>, ts: seq<Tier>) {
    && InTime(rows, rs, ts)
    && (forall i :: 0 <= i < |ts| ==> Column(rows, i) <= ts[i].tiers)
  }

  // ---------- the plan behind the greedy pass ----------

  /** How the counter's move from lo to hi is spread over the tiers. */
  function Share(ts: seq<Tier>, lo: nat, hi: nat): (row: seq<nat>)
    requires lo <= hi
    ensures |row| == |ts|
  {
    if ts == [] then []
    else
      var a: nat, b: nat := Min(lo, ts[0].tiers), Min(hi, ts[0].tiers);
      [b - a] + Share(ts[1..], lo - a, hi - b)
  }

  /** One row for each refund: how much it pays towards each tier. */
  function Assignment(ts: seq<Tier>, rs: seq<Refund>, c: nat): (rows: seq<seq<nat>>)
    requires c <= Total(ts)
    ensures |rows| == |rs|
    ensures forall j :: 0 <= j < |rows| ==> |rows[j]| == |ts|
  {
    if rs == [] then []
    else if DueBy(ts, rs[0].at) > c then [Share(ts, c, c)] + Assignment(ts, rs[1..], c)
    else
      var next: nat := Min(Total(ts), c + rs[0].strength);
      [Share(ts, c, next)] + Assignment(ts, rs[1..], next)
  }

  lemma {:induction false} ShareSum(ts: seq<Tier>, lo: nat, hi: nat)
    requires lo <= hi
    ensures Sum(Share(ts, lo, hi)) == Min(hi, Total(ts)) - Min(lo, Total(ts))
  {
    if ts != [] {
      var a: nat, b: nat := Min(lo, ts[0].tiers), Min(hi, ts[0].tiers);
      ShareSum(ts[1..], lo - a, hi - b);
      assert Share(ts, lo, hi)[1..] == Share(ts[1..], lo - a, hi - b);
    }
  }

  lemma {:induction false} ShareDrains(ts: seq<Tier>, lo: nat, hi: nat, i: nat)
    requires lo <= hi && i < |ts|
    ensures Share(ts, lo, hi)[i] == Drained(ts, lo)[i].tiers - Drained(ts, hi)[i].tiers
  {
    var a: nat, b: nat := Min(lo, ts[0].tiers), Min(hi, ts[0].tiers);
    if i > 0 {
      ShareDrains(ts[1..], lo - a, hi - b, i - 1);
      DrainedTail(ts, lo);
      DrainedTail(ts, hi);
    }
  }

  lemma DrainedTail(ts: seq<Tier>, c: nat)
    requires ts != []
    ensures Drained(ts, c)[1..] == Drained(ts[1..], c - Min(c, ts[0].tiers))
  {
    if c < ts[0].tiers {
      DrainedNothing(ts[1..]);
    }
  }

  lemma {:induction false} ShareInTime(ts: seq<Tier>, lo: nat, hi: nat, at: int, i: nat)
    requires WeakSorted(ts) && lo <= hi && i < |ts|
    requires DueBy(ts, at) <= lo
    requires Share(ts, lo, hi)[i] > 0
    ensures at < ts[i].weak
  {
    if i > 0 && at >= ts[0].weak {
      ShareInTime(ts[1..], lo - ts[0].tiers, hi - ts[0].tiers, at, i - 1);
    }
  }

  /** Each refund pays at most its strength, and only for tiers that turn weak
      strictly after its funds are back. */
  lemma {:induction false} RowsAreSound(ts: seq<Tier>, rs: seq<Refund>, c: nat, j: nat)
    requires WeakSorted(ts) && c <= Total(ts) && j < |rs|
    ensures Sum(Assignment(ts, rs, c)[j]) <= rs[j].strength
    ensures forall i :: 0 <= i < |ts| && Assignment(ts, rs, c)[j][i] > 0 ==> rs[j].at < ts[i].weak
  {
    var late := DueBy(ts, rs[0].at) > c;
    var next: nat := if late then c else Min(Total(ts), c + rs[0].strength);
    if j == 0 {
      ShareSum(ts, c, next);
      forall i | 0 <= i < |ts| && Share(ts, c, next)[i] > 0
        ensures rs[0].at < ts[i].weak
      {
        if late {
          ShareDrains(ts, c, c, i);
        } else {
          ShareInTime(ts, c, next, rs[0].at, i);
        }
      }
    } else {
      RowsAreSound(ts, rs[1..], next, j - 1);
    }
  }

  /** Together the refunds pay for exactly what the greedy pass took off each tier. */
  lemma {:induction false} ColumnsAreExact(ts: seq<Tier>, rs: seq<Refund>, c: nat, i: nat)
    requires RefundSorted(rs) && c <= Total(ts) && i < |ts|
    ensures Column(Assignment(ts, rs, c), i) == Drained(ts, c)[i].tiers - Drained(ts, Consume(ts, rs, c))[i].tiers
    decreases |rs|
  {
    if rs != [] {
      var late := DueBy(ts, rs[0].at) > c;
      var next: nat := if late then c else Min(Total(ts), c + rs[0].strength);
      ShareDrains(ts, c, next, i);
      assert Assignment(ts, rs, c)[1..] == Assignment(ts, rs[1..], next);
      ColumnsAreExact(ts, rs[1..], next, i);
      if late && |rs| > 1 {
        DueByBounds(ts, rs[0].at, rs[1].at);
      }
    }
  }

  /** The credit the reserve relies on is real: there is a plan that pays for
      exactly what the greedy pass takes off each tier. */
  lemma CreditIsAPlan(ts: seq<Tier>, rs: seq<Refund>)
    requires WeakSorted(ts) && RefundSorted(rs)
    ensures var rows := Assignment(ts, rs, 0); var left := Drained(ts, Consume(ts, rs, 0));
      && Feasible(rows, rs, ts) && Paid(rows) == Consume(ts, rs, 0)
      && forall i :: 0 <= i < |ts| ==> Column(rows, i) == ts[i].tiers - left[i].tiers
  {
    var rows := Assignment(ts, rs, 0);
    forall j | 0 <= j < |rs|
      ensures Sum(rows[j]) <= rs[j].strength
      ensures forall i :: 0 <= i < |ts| && rows[j][i] > 0 ==> rs[j].at < ts[i].weak
    {
      RowsAreSound(ts, rs, 0, j);
    }
    DrainedNothing(ts);
    forall i | 0 <= i < |ts|
      ensures Column(rows, i) == ts[i].tiers - Drained(ts, Consume(ts, rs, 0))[i].tiers
    {
      ColumnsAreExact(ts, rs, 0, i);
    }
    AssignmentPays(ts, rs, 0);
  }

  lemma {:induction false} AssignmentPays(ts: seq<Tier>, rs: seq<Refund>, c: nat)
    requires RefundSorted(rs) && c <= Total(ts)
    ensures Paid(Assignment(ts, rs, c)) == Consume(ts, rs, c) - c
    decreases |rs|
  {
    if rs != [] {
      var late := DueBy(ts, rs[0].at) > c;
      var next: nat := if late then c else Min(Total(ts), c + rs[0].strength);
      ShareSum(ts, c, next);
      assert Assignment(ts, rs, c)[1..] == Assignment(ts, rs[1..], next);
      AssignmentPays(ts, rs[1..], next);
      if late && |rs| > 1 {
        DueByBounds(ts, rs[0].at, rs[1].at);
      }
    }
  }

  // ---------- the most that any plan can pay for ----------

  /** Where a refund starts to pay: past what is taken and past what falls due
      before its funds are back. */
  function From(ts: seq<Tier>, at: int, p: nat): (q: nat)
    requires p <= Total(ts)
    ensures p <= q <= Total(ts) && DueBy(ts, at) <= q
  {
    DueByBounds(ts, at, at);
    Max(p, DueBy(ts, at))
  }

  /** What a pass pays for that never stops: a refund that comes too late for
      the first open tiers goes on to the first it is in time for. */
  function Best(ts: seq<Tier>, rs: seq<Refund>, p: nat): nat
    requires p <= Total(ts)
    decreases |rs|
  {
    if rs == [] then 0
    else
      var q := From(ts, rs[0].at, p);
      var m: nat := Min(Total(ts) - q, rs[0].strength);
      m + Best(ts, rs[1..], q + m)
  }

  function BestPlan(ts: seq<Tier>, rs: seq<Refund>, p: nat): (rows: seq<seq<nat>>)
    requires p <= Total(ts)
    ensures |rows| == |rs| && forall j :: 0 <= j < |rows| ==> |rows[j]| == |ts|
    decreases |rs|
  {
    if rs == [] then []
    else
      var q := From(ts, rs[0].at, p);
      var m: nat := Min(Total(ts) - q, rs[0].strength);
      [Share(ts, q, q + m)] + BestPlan(ts, rs[1..], q + m)
  }

  lemma {:induction false} BestPlanRow(ts: seq<Tier>, rs: seq<Refund>, p: nat, j: nat)
    requires WeakSorted(ts) && p <= Total(ts) && j < |rs|
    ensures Sum(BestPlan(ts, rs, p)[j]) <= rs[j].strength
    ensures forall i :: 0 <= i < |ts| && BestPlan(ts, rs, p)[j][i] > 0 ==> rs[j].at < ts[i].weak
    decreases j
  {
    var q := From(ts, rs[0].at, p);
    var m: nat := Min(Total(ts) - q, rs[0].strength);
    if j == 0 {
      ShareSum(ts, q, q + m);
      forall i | 0 <= i < |ts| && Share(ts, q, q + m)[i] > 0
        ensures rs[0].at < ts[i].weak
      {
        ShareInTime(ts, q, q + m, rs[0].at, i);
      }
    } else {
      BestPlanRow(ts, rs[1..], q + m, j - 1);
    }
  }

  lemma {:induction false} BestPlanColumn(ts: seq<Tier>, rs: seq<Refund>, p: nat, i: nat)
    requires p <= Total(ts) && i < |ts|
    ensures Column(BestPlan(ts, rs, p), i) <= Drained(ts, p)[i].tiers
    decreases |rs|
  {
    if rs != [] {
      var q := From(ts, rs[0].at, p);
      var m: nat := Min(Total(ts) - q, rs[0].strength);
      var row, rest := Share(ts, q, q + m), BestPlan(ts, rs[1..], q + m);
      assert row[i] + Drained(ts, q + m)[i].tiers <= Drained(ts, p)[i].tiers by {
        ShareDrains(ts, p, q, i);
        ShareDrains(ts, q, q + m, i);
      }
      BestPlanColumn(ts, rs[1..], q + m, i);
      assert ([row] + rest)[1..] == rest;
      assert BestPlan(ts, rs, p) == [row] + rest;
    }
  }

  lemma {:induction false} BestPlanPays(ts: seq<Tier>, rs: seq<Refund>, p: nat)
    requires p <= Total(ts)
    ensures Paid(BestPlan(ts, rs, p)) == Best(ts, rs, p)
    decreases |rs|
  {
    if rs != [] {
      var q := From(ts, rs[0].at, p);
      var m: nat := Min(Total(ts) - q, rs[0].strength);
      ShareSum(ts, q, q + m);
      assert BestPlan(ts, rs, p)[1..] == BestPlan(ts, rs[1..], q + m);
      BestPlanPays(ts, rs[1..], q + m);
    }
  }

  /** Some plan pays that much. */
  lemma BestIsReached(ts: seq<Tier>, rs: seq<Refund>)
    requires WeakSorted(ts)
    ensures Feasible(BestPlan(ts, rs, 0), rs, ts) && Paid(BestPlan(ts, rs, 0)) == Best(ts, rs, 0)
  {
    var rows := BestPlan(ts, rs, 0);
    forall j | 0 <= j < |rs|
      ensures Sum(rows[j]) <= rs[j].strength
      ensures forall i :: 0 <= i < |ts| && rows[j][i] > 0 ==> rs[j].at < ts[i].weak
    {
      BestPlanRow(ts, rs, 0, j);
    }
    DrainedNothing(ts);
    forall i | 0 <= i < |ts|
      ensures Column(rows, i) <= ts[i].tiers
    {
      BestPlanColumn(ts, rs, 0, i);
    }
    BestPlanPays(ts, rs, 0);
  }

  // ---------- no plan pays for more: a cut ----------

  function Strength(rs: seq<Refund>): nat {
    if rs == [] then 0 else rs[0].strength + Strength(rs[1..])
  }

  /** Bound a plan by the strength of the first k refunds and by the tiers that
      the others are in time for. */
  function Cut(ts: seq<Tier>, rs: seq<Refund>, p: nat, k: nat): int
    requires p <= Total(ts) && k <= |rs|
  {
    Strength(rs[..k]) + if k < |rs| then Total(ts) - From(ts, rs[k].at, p) else 0
  }

  lemma {:induction false} BestAtMost(ts: seq<Tier>, rs: seq<Refund>, p: nat)
    requires p <= Total(ts)
    ensures Best(ts, rs, p) <= Total(ts) - p
    decreases |rs|
  {
    if rs != [] {
      var q := From(ts, rs[0].at, p);
      BestAtMost(ts, rs[1..], q + Min(Total(ts) - q, rs[0].strength));
    }
  }

  /** One of the bounds is met. */
  lemma {:induction false} BestIsACut(ts: seq<Tier>, rs: seq<Refund>, p: nat) returns (k: nat)
    requires p <= Total(ts)
    ensures k <= |rs| && Best(ts, rs, p) == Cut(ts, rs, p, k)
    decreases |rs|
  {
    if rs == [] {
      return 0;
    }
    var q := From(ts, rs[0].at, p);
    var m: nat := Min(Total(ts) - q, rs[0].strength);
    BestAtMost(ts, rs[1..], q + m);
    if m == Total(ts) - q {
      return 0;
    }
    var k' := BestIsACut(ts, rs[1..], q + m);
    assert rs[..k' + 1] == [rs[0]] + rs[1..][..k'];
    assert Strength(rs[..k' + 1]) == rs[0].strength + Strength(rs[1..][..k']) by {
      assert rs[..k' + 1][1..] == rs[1..][..k'];
    }
    if k' == |rs| - 1 || DueBy(ts, rs[k' + 1].at) >= q + m {
      return k' + 1;
    }
    return 0;
  }

  /** Every row without its first entry. */
  function Tails(rows: seq<seq<nat>>): (t: seq<seq<nat>>)
    requires forall j :: 0 <= j < |rows| ==> |rows[j]| > 0
    ensures |t| == |rows| && forall j :: 0 <= j < |t| ==> t[j] == rows[j][1..]
  {
    if rows == [] then [] else [rows[0][1..]] + Tails(rows[1..])
  }

  lemma {:induction false} PaidByColumn(rows: seq<seq<nat>>)
    requires forall j :: 0 <= j < |rows| ==> |rows[j]| > 0
    ensures Paid(rows) == Column(rows, 0) + Paid(Tails(rows))
  {
    if rows != [] {
      PaidByColumn(rows[1..]);
      assert Tails(rows)[1..] == Tails(rows[1..]);
    }
  }

  lemma {:induction false} TailColumn(rows: seq<seq<nat>>, i: nat)
    requires forall j :: 0 <= j < |rows| ==> i + 1 < |rows[j]|
    ensures Column(Tails(rows), i) == Column(rows, i + 1)
  {
    if rows != [] {
      TailColumn(rows[1..], i);
      assert Tails(rows)[1..] == Tails(rows[1..]);
    }
  }

  lemma {:induction false} EmptyColumn(rows: seq<seq<nat>>, i: nat)
    requires forall j :: 0 <= j < |rows| ==> i < |rows[j]| && rows[j][i] == 0
    ensures Column(rows, i) == 0
  {
    if rows != [] {
      EmptyColumn(rows[1..], i);
    }
  }

  lemma {:induction false} EmptyRows(rows: seq<seq<nat>>)
    requires forall j :: 0 <= j < |rows| ==> rows[j] == []
    ensures Paid(rows) == 0
  {
    if rows != [] {
      EmptyRows(rows[1..]);
    }
  }

  /** Rows that pay only for tiers weak after an instant pay for no more than those. */
  lemma {:induction false} PaidIsLater(rows: seq<seq<nat>>, ts: seq<Tier>, at: int)
    requires forall j :: 0 <= j < |rows| ==> |rows[j]| == |ts|
    requires forall i, j :: 0 <= i < |ts| && 0 <= j < |rows| && rows[j][i] > 0 ==> at < ts[i].weak
    requires forall i :: 0 <= i < |ts| ==> Column(rows, i) <= ts[i].tiers
    ensures Paid(rows) <= Total(ts) - DueBy(ts, at)
    decreases |ts|
  {
    if ts == [] {
      EmptyRows(rows);
    } else {
      PaidByColumn(rows);
      forall i | 0 <= i < |ts[1..]|
        ensures Column(Tails(rows), i) <= ts[1..][i].tiers
      {
        TailColumn(rows, i);
      }
      PaidIsLater(Tails(rows), ts[1..], at);
      if ts[0].weak <= at {
        EmptyColumn(rows, 0);
      }
    }
  }

  lemma {:induction false} PaidSplits(rows: seq<seq<nat>>, rs: seq<Refund>, k: nat)
    requires |rows| == |rs| && k <= |rs|
    requires forall j :: 0 <= j < |rs| ==> Sum(rows[j]) <= rs[j].strength
    ensures Paid(rows) <= Strength(rs[..k]) + Paid(rows[k..])
    decreases k
  {
    if k == 0 {
      assert rows[0..] == rows;
    } else {
      PaidSplits(rows[1..], rs[1..], k - 1);
      assert rows[1..][k - 1..] == rows[k..];
      assert rs[..k][1..] == rs[1..][..k - 1];
    }
  }

  lemma {:induction false} ColumnSuffix(rows: seq<seq<nat>>, k: nat, i: nat)
    requires k <= |rows| && forall j :: 0 <= j < |rows| ==> i < |rows[j]|
    ensures Column(rows[k..], i) <= Column(rows, i)
    decreases k
  {
    if k == 0 {
      assert rows[0..] == rows;
    } else {
      ColumnSuffix(rows[1..], k - 1, i);
      assert rows[1..][k - 1..] == rows[k..];
    }
  }

  /** No plan pays for more than the pass that never stops. */
  lemma BestIsGreatest(ts: seq<Tier>, rs: seq<Refund>, rows: seq<seq<nat>>)
    requires RefundSorted(rs) && Feasible(rows, rs, ts)
    ensures Paid(rows) <= Best(ts, rs, 0)
  {
    var k := BestIsACut(ts, rs, 0);
    PaidSplits(rows, rs, k);
    var rest := rows[k..];
    if k < |rs| {
      forall i | 0 <= i < |ts|
        ensures Column(rest, i) <= ts[i].tiers
      {
        ColumnSuffix(rows, k, i);
      }
      forall i, j | 0 <= i < |ts| && 0 <= j < |rest| && rest[j][i] > 0
        ensures rs[k].at < ts[i].weak
      {
        assert rest[j] == rows[k + j];
        assert rs[k].at <= rs[k + j].at;
      }
      PaidIsLater(rest, ts, rs[k].at);
    }
  }

  // ---------- when the greedy pass pays as much ----------

  /** When the greedy pass stops at a late refund, no refund from there on
      could have paid for anything. */
  predicate NoneWasted(ts: seq<Tier>, rs: seq<Refund>, c: nat)
    requires c <= Total(ts)
    decreases |rs|
  {
    if rs == [] then true
    else if DueBy(ts, rs[0].at) > c then
      forall j :: 0 <= j < |rs| ==> rs[j].strength == 0 || DueBy(ts, rs[j].at) == Total(ts)
    else NoneWasted(ts, rs[1..], Min(Total(ts), c + rs[0].strength))
  }

  lemma {:induction false} NothingToPay(ts: seq<Tier>, rs: seq<Refund>, p: nat)
    requires p <= Total(ts) && RefundSorted(rs)
    requires rs != [] ==> p <= DueBy(ts, rs[0].at)
    ensures Best(ts, rs, p) == 0 <==>
        forall j :: 0 <= j < |rs| ==> rs[j].strength == 0 || DueBy(ts, rs[j].at) == Total(ts)
    decreases |rs|
  {
    if rs != [] {
      var q := From(ts, rs[0].at, p);
      var m: nat := Min(Total(ts) - q, rs[0].strength);
      assert m == 0 <==> rs[0].strength == 0 || DueBy(ts, rs[0].at) == Total(ts);
      if m == 0 {
        if |rs| > 1 {
          DueByBounds(ts, rs[0].at, rs[1].at);
        }
        NothingToPay(ts, rs[1..], q);
        assert forall j :: 1 <= j < |rs| ==> rs[j] == rs[1..][j - 1];
      }
    }
  }

  lemma {:induction false} GreedyIsBestExactlyWhen(ts: seq<Tier>, rs: seq<Refund>, c: nat)
    requires c <= Total(ts) && RefundSorted(rs)
    ensures Consume(ts, rs, c) == c + Best(ts, rs, c) <==> NoneWasted(ts, rs, c)
    decreases |rs|
  {
    if rs != [] {
      if DueBy(ts, rs[0].at) > c {
        NothingToPay(ts, rs, c);
      } else {
        GreedyIsBestExactlyWhen(ts, rs[1..], Min(Total(ts), c + rs[0].strength));
      }
    }
  }

  /** The greedy credit is the most that any plan pays for exactly when stopping
      at the first late refund wastes none. */
  lemma CreditIsGreatestExactlyWhen(ts: seq<Tier>, rs: seq<Refund>)
    requires WeakSorted(ts) && RefundSorted(rs)
    ensures (forall rows :: Feasible(rows, rs, ts) ==> Paid(rows) <= Consume(ts, rs, 0)) <==> NoneWasted(ts, rs, 0)
  {
    GreedyIsBestExactlyWhen(ts, rs, 0);
    CreditIsAPlan(ts, rs);
    BestIsGreatest(ts, rs, Assignment(ts, rs, 0));
    BestIsReached(ts, rs);
    if NoneWasted(ts, rs, 0) {
      forall rows | Feasible(rows, rs, ts)
        ensures Paid(rows) <= Consume(ts, rs, 0)
      {
        BestIsGreatest(ts, rs, rows);
      }
    } else {
      assert Paid(BestPlan(ts, rs, 0)) > Consume(ts, rs, 0);
    }
  }

  // ---------- the reserve of an account ----------

  /** The replacements and the refunds of an account, in time order. */
  function TiersOf(bonds: seq<Bond>, cfg: Config): (ts: seq<Tier>)
    requires cfg.Ok()
    ensures WeakSorted(ts)
  {
    ByWeakSorts(Collect(bonds, cfg, [], 0).0);
    ByWeak(Collect(bonds, cfg, [], 0).0)
  }

  function RefundsOf(expired: seq<Bond>, cfg: Config, asset: nat, amt: nat): (rs: seq<Refund>)
    requires amt > 0
    ensures RefundSorted(rs)
  {
    ByLockSorts(expired);
    RefundsSorted(ByLock(expired), asset, amt, cfg.net);
    Refunds(ByLock(expired), asset, amt, cfg.net)
  }

  /** Increments to keep funds for under a plan: twice what the target lacks,
      plus every listed replacement that the plan does not pay for. */
  function NeededUnder(bonds: seq<Bond>, cfg: Config, rows: seq<seq<nat>>): int
    requires cfg.Ok()
  {
    2 * (cfg.target - Collect(bonds, cfg, [], 0).1) + Total(TiersOf(bonds, cfg)) - Paid(rows)
  }

  lemma ReserveFromCredit(bonds: seq<Bond>, expired: seq<Bond>, cfg: Config, asset: nat, amt: nat)
    requires cfg.Ok() && amt > 0
    ensures ReserveTiers(bonds, expired, cfg, asset, amt)
         == 2 * (cfg.target - Collect(bonds, cfg, [], 0).1) + Total(TiersOf(bonds, cfg))
          - Consume(TiersOf(bonds, cfg), RefundsOf(expired, cfg, asset, amt), 0)
  {
    ByWeakSorts(Collect(bonds, cfg, [], 0).0);
    ByLockSorts(expired);
    CreditIgnoresSort(bonds, expired, cfg, asset, amt, TiersOf(bonds, cfg), ByLock(expired));
  }

  /** The plan in money: no bond pays more than its amount, and none pays for a
      replacement that falls due before it can be spent. */
  ghost predicate PaidBy(rows: seq<seq<nat>>, own: seq<Bond>, ts: seq<Tier>, amt: nat, net: Network) {
    && |rows| == |own|
    && (forall j :: 0 <= j < |own| ==> |rows[j]| == |ts| && Sum(rows[j]) * amt <= own[j].amount)
    && (forall i, j :: 0 <= i < |ts| && 0 <= j < |own| && rows[j][i] > 0 ==>
          own[j].lockTime + 3 * PendingBuffer(net) < ts[i].weak)
    && (forall i :: 0 <= i < |ts| ==> Column(rows, i) <= ts[i].tiers)
  }

  lemma PlansAreMoney(rows: seq<seq<nat>>, bs: seq<Bond>, ts: seq<Tier>, asset: nat, amt: nat, net: Network)
    requires amt > 0 && Feasible(rows, Refunds(bs, asset, amt, net), ts)
    ensures PaidBy(rows, OfAsset(bs, asset), ts, amt, net)
  {
    var own, rs := OfAsset(bs, asset), Refunds(bs, asset, amt, net);
    RefundsAreMoney(bs, asset, amt, net);
    forall j | 0 <= j < |own|
      ensures Sum(rows[j]) * amt <= own[j].amount
    {
      assert Redeems(own[j], rs[j], amt, net);
      MulAtMost(Sum(rows[j]), rs[j].strength, amt);
    }
    forall i, j | 0 <= i < |ts| && 0 <= j < |own| && rows[j][i] > 0
      ensures own[j].lockTime + 3 * PendingBuffer(net) < ts[i].weak
    {
      assert Redeems(own[j], rs[j], amt, net);
    }
  }

  lemma MulAtMost(a: nat, b: nat, amt: nat)
    requires a <= b
    ensures a * amt <= b * amt
  {
  }

  lemma MulAdd(a: int, b: int, amt: int)
    ensures (a + b) * amt == a * amt + b * amt
  {
  }

  /** The reserve suffices: the rest is paid for, in amounts, by the account's
      own expired bonds. */
  lemma ReserveIsBacked(bonds: seq<Bond>, expired: seq<Bond>, cfg: Config, asset: nat, amt: nat)
    requires cfg.Ok() && amt > 0
    ensures var ts, own := TiersOf(bonds, cfg), OfAsset(ByLock(expired), asset);
      exists rows ::
        && PaidBy(rows, own, ts, amt, cfg.net)
        && ReserveTiers(bonds, expired, cfg, asset, amt) == NeededUnder(bonds, cfg, rows)
  {
    var ts, rs := TiersOf(bonds, cfg), RefundsOf(expired, cfg, asset, amt);
    CreditIsAPlan(ts, rs);
    ReserveFromCredit(bonds, expired, cfg, asset, amt);
    var rows := Assignment(ts, rs, 0);
    PlansAreMoney(rows, ByLock(expired), ts, asset, amt, cfg.net);
    assert ReserveTiers(bonds, expired, cfg, asset, amt) == NeededUnder(bonds, cfg, rows);
  }

  lemma {:induction false} PaidWithinAmounts(rows: seq<seq<nat>>, own: seq<Bond>, asset: nat, amt: nat)
    requires |rows| == |own|
    requires forall j :: 0 <= j < |own| ==> Sum(rows[j]) * amt <= own[j].amount && own[j].assetID == asset
    ensures Paid(rows) * amt <= AmountIn(own, asset)
  {
    if rows != [] {
      PaidWithinAmounts(rows[1..], own[1..], asset, amt);
      MulAdd(Sum(rows[0]), Paid(rows[1..]), amt);
    }
  }

  /** In total: the reserve and what the expired bonds of the asset amount to pay
      for every listed replacement and twice for what the target lacks. */
  lemma ReserveAndRefundsPay(bonds: seq<Bond>, expired: seq<Bond>, cfg: Config, asset: nat, amt: nat)
    requires cfg.Ok() && amt > 0
    ensures var (active, covered) := Collect(bonds, cfg, [], 0);
      ReserveTiers(bonds, expired, cfg, asset, amt) * amt + AmountIn(expired, asset)
        >= (2 * (cfg.target - covered) + Total(active)) * amt
  {
    var (active, covered) := Collect(bonds, cfg, [], 0);
    var all := 2 * (cfg.target - covered) + Total(active);
    var paid := CreditWithinAmounts(bonds, expired, cfg, asset, amt);
    MulAdd(ReserveTiers(bonds, expired, cfg, asset, amt), paid, amt);
  }

  lemma CreditWithinAmounts(bonds: seq<Bond>, expired: seq<Bond>, cfg: Config, asset: nat, amt: nat) returns (paid: nat)
    requires cfg.Ok() && amt > 0
    ensures paid * amt <= AmountIn(expired, asset)
    ensures var (active, covered) := Collect(bonds, cfg, [], 0);
      ReserveTiers(bonds, expired, cfg, asset, amt) + paid == 2 * (cfg.target - covered) + Total(active)
  {
    var ts, own := TiersOf(bonds, cfg), OfAsset(ByLock(expired), asset);
    ReserveIsBacked(bonds, expired, cfg, asset, amt);
    var rows :| PaidBy(rows, own, ts, amt, cfg.net)
      && ReserveTiers(bonds, expired, cfg, asset, amt) == NeededUnder(bonds, cfg, rows);
    paid := Paid(rows);
    assert paid * amt <= AmountIn(expired, asset) by {
      OfAssetAmounts(ByLock(expired), asset);
      assert forall j :: 0 <= j < |own| ==> own[j] in own;
      PaidWithinAmounts(rows, own, asset, amt);
      SortKeepsAmounts(expired, asset);
    }
    assert Total(ts) == Total(Collect(bonds, cfg, [], 0).0) by {
      ByWeakSorts(Collect(bonds, cfg, [], 0).0);
      DueIgnoresOrder(ts, Collect(bonds, cfg, [], 0).0, 0);
    }
  }

  lemma {:induction false} SortKeepsAmounts(bs: seq<Bond>, asset: nat)
    ensures AmountIn(ByLock(bs), asset) == AmountIn(bs, asset)
  {
    if bs != [] {
      SortKeepsAmounts(bs[1..], asset);
      var sorted := ByLock(bs[1..]);
      var k := InsertByLockAt(bs[0], sorted);
      assert sorted == sorted[..k] + sorted[k..];
      AmountsAdd(sorted[..k], sorted[k..], asset);
      AmountsAdd(sorted[..k] + [bs[0]], sorted[k..], asset);
      AmountsAdd(sorted[..k], [bs[0]], asset);
      AmountOfOne(bs[0], asset);
    }
  }

  /** The reserve is the minimum over all plans exactly when stopping at the
      first late refund wastes none. */
  lemma ReserveIsLeastExactlyWhen(bonds: seq<Bond>, expired: seq<Bond>, cfg: Config, asset: nat, amt: nat)
    requires cfg.Ok() && amt > 0
    ensures var ts, rs := TiersOf(bonds, cfg), RefundsOf(expired, cfg, asset, amt);
      (forall rows :: Feasible(rows, rs, ts) ==>
         ReserveTiers(bonds, expired, cfg, asset, amt) <= NeededUnder(bonds, cfg, rows))
      <==> NoneWasted(ts, rs, 0)
  {
    var ts, rs := TiersOf(bonds, cfg), RefundsOf(expired, cfg, asset, amt);
    CreditIsGreatestExactlyWhen(ts, rs);
    ReserveFromCredit(bonds, expired, cfg, asset, amt);
    assert forall rows :: Feasible(rows, rs, ts) ==>
      (ReserveTiers(bonds, expired, cfg, asset, amt) <= NeededUnder(bonds, cfg, rows) <==>
          Paid(rows) <= Consume(ts, rs, 0));
  }

  function Sample(coinID: string, lockTime: nat): Bond {
    Bond(42, coinID, 1, lockTime, 0, "", true, false, 1)
  }

  /** It need not be: a refund too late for one replacement stops the pass,
      although it is in time for the next. */
  lemma StoppingEarlyReservesTooMuch()
    ensures var bonds, expired, cfg := [Sample("a", 1000), Sample("b", 2000)], [Sample("c", 700)],
        Config(2, map[42 := 1], 10, Simnet);
      var ts, rs := TiersOf(bonds, cfg), RefundsOf(expired, cfg, 42, 1);
      exists rows :: Feasible(rows, rs, ts) && NeededUnder(bonds, cfg, rows) < ReserveTiers(bonds, expired, cfg, 42, 1)
  {
    var bonds, expired, cfg := [Sample("a", 1000), Sample("b", 2000)], [Sample("c", 700)],
        Config(2, map[42 := 1], 10, Simnet);
    var ts, rs := TiersOf(bonds, cfg), RefundsOf(expired, cfg, 42, 1);
    SampleTiers(bonds, cfg);
    assert expired[1..] == [] && ByLock(expired) == expired;
    assert rs == [Refund(970, 1)];
    assert ts[1..] == [Tier(1900, 1)] && ts[1..][1..] == [];
    assert DueBy(ts, 970) == 1 && rs[0].at == 970;
    assert !NoneWasted(ts, rs, 0);
    ReserveIsLeastExactlyWhen(bonds, expired, cfg, 42, 1);
  }

  lemma SampleTiers(bonds: seq<Bond>, cfg: Config)
    requires bonds == [Sample("a", 1000), Sample("b", 2000)] && cfg == Config(2, map[42 := 1], 10, Simnet)
    ensures TiersOf(bonds, cfg) == [Tier(900, 1), Tier(1900, 1)]
  {
    var a, b := Tier(900, 1), Tier(1900, 1);
    assert bonds[1..] == [Sample("b", 2000)];
    assert Collect(bonds[1..], cfg, [a], 1) == ([a] + [b], 2);
    assert Collect(bonds, cfg, [], 0) == Collect(bonds[1..], cfg, [] + [a], 1);
    assert [] + [a] == [a] && [a] + [b] == [a, b];
    var ts := [a, b];
    assert ts[1..] == [b] && ts[1..][1..] == [];
    assert ByWeak([b]) == [b];
    assert ByWeak(ts) == [a] + [b];
  }
}
