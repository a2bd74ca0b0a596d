/** The three bond lists of an account and everything that moves bonds between
    them. Each step is what one critical section under the account's lock does;
    a run is any sequence of steps, so it covers every interleaving. */
module BondLedger {
  import opened Basics
  import opened Bonds

  datatype Ledger = Ledger(pending: seq<Bond>, live: seq<Bond>, expired: seq<Bond>)

  /** What one critical section does to the lists. */
  datatype Step =
    | Posted(bond: Bond)
    | Confirmed(key: Key)
    | ServerExpired(key: Key)
    | Screened(lockTimeThresh: int)
    | Refunded(spent: seq<Key>)
    | Resorted(order: seq<Bond>)

  /** A bond nobody can refund: no key and no refund transaction. */
  predicate Placeholder(b: Bond) {
    b.refundTx == [] && b.keyIndex == MAX_KEY_INDEX
  }

  function Post(l: Ledger, b: Bond): Ledger {
    l.(pending := l.pending + [b])
  }

  /** Move a pending bond to the live list. */
  function Confirm(l: Ledger, k: Key): Ledger {
    var i := IndexOf(l.pending, k);
    if i == |l.pending| then l
    else Ledger(Cut(l.pending, i), l.live + [l.pending[i].(confirmed := true)], l.expired)
  }

  /** Move a live bond to the expired list, or drop it if nobody can refund it. */
  function Expire(l: Ledger, k: Key): Ledger {
    var i := IndexOf(l.live, k);
    if i == |l.live| then l
    else Ledger(l.pending, Cut(l.live, i), if Placeholder(l.live[i]) then l.expired else l.expired + [l.live[i]])
  }

  /** Move every bond whose lock time is reached from the live and then the pending list. */
  function Screen(l: Ledger, thresh: int): Ledger {
    Ledger(Above(l.pending, thresh), Above(l.live, thresh), l.expired + UpTo(l.live, thresh) + UpTo(l.pending, thresh))
  }

  /** Cut the first bond of each spent key. */
  function CutSpent(bs: seq<Bond>, spent: seq<Key>): seq<Bond>
    decreases |spent|
  {
    if spent == [] then bs
    else
      var i := IndexOf(bs, spent[0]);
      CutSpent(if i == |bs| then bs else Cut(bs, i), spent[1..])
  }

  function Apply(l: Ledger, s: Step): Ledger {
    match s
    case Posted(b) => Post(l, b)
    case Confirmed(k) => Confirm(l, k)
    case ServerExpired(k) => Expire(l, k)
    case Screened(thresh) => Screen(l, thresh)
    case Refunded(spent) => l.(expired := CutSpent(l.expired, spent))
    case Resorted(order) => l.(expired := order)
  }

  /** The lists together with the keys that were ever in one of them. */
  datatype Account = Account(ledger: Ledger, known: set<Key>)

  function Next(a: Account, s: Step): Account {
    Account(Apply(a.ledger, s), if s.Posted? then a.known + {KeyOf(s.bond)} else a.known)
  }

  /** What the environment owes each step: a new bond is a new coin, and
      sorting only reorders. */
  ghost predicate Enabled(a: Account, s: Step) {
    && (s.Posted? ==> KeyOf(s.bond) !in a.known)
    && (s.Resorted? ==> multiset(s.order) == multiset(a.ledger.expired))
  }

  // ---------- every known bond is in exactly one place ----------

  /** How often the key is in the lists. */
  function Places(l: Ledger, k: Key): nat {
    Count(l.pending, k) + Count(l.live, k) + Count(l.expired, k)
  }

  ghost predicate Valid(a: Account) {
    && (forall k :: Places(a.ledger, k) <= 1)
    && (forall k :: Places(a.ledger, k) > 0 ==> k in a.known)
  }

  datatype Phase = Unknown | Pending | Live | Expired | Retired {
    function Rank(): nat {
      match this
      case Unknown => 0
      case Pending => 1
      case Live => 2
      case Expired => 3
      case Retired => 4
    }
  }

  /** Where the bond is. A known bond that is in no list is retired. */
  function PhaseOf(a: Account, k: Key): Phase {
    if Count(a.ledger.pending, k) > 0 then Pending
    else if Count(a.ledger.live, k) > 0 then Live
    else if Count(a.ledger.expired, k) > 0 then Expired
    else if k in a.known then Retired
    else Unknown
  }

  lemma ConfirmCounts(l: Ledger, key: Key, k: Key, r: Bond)
    ensures var i := IndexOf(l.pending, key);
      var found := One(i < |l.pending| && KeyOf(l.pending[i]) == k);
      && Count(Confirm(l, key).pending, k) == Count(l.pending, k) - found
      && Count(Confirm(l, key).live, k) == Count(l.live, k) + found
    ensures Copies(Confirm(l, key).pending, r) + Copies(Confirm(l, key).live, r) ==
        Copies(l.pending, r) + Copies(l.live, r)
    ensures Copies(Confirm(l, key).live, r) >= Copies(l.live, r)
  {
    var i := IndexOf(l.pending, key);
    if i < |l.pending| {
      var b := l.pending[i].(confirmed := true);
      CutMeasures(l.pending, i, k, r);
      Single(b, k, r);
      CountConcat(l.live, [b], k);
      CopiesConcat(l.live, [b], r);
    }
  }

  lemma ExpireCounts(l: Ledger, key: Key, k: Key, r: Bond)
    ensures var i := IndexOf(l.live, key);
      var found := One(i < |l.live| && KeyOf(l.live[i]) == k);
      var moved := One(i < |l.live| && KeyOf(l.live[i]) == k && !Placeholder(l.live[i]));
      && Count(Expire(l, key).live, k) == Count(l.live, k) - found
      && Count(Expire(l, key).expired, k) == Count(l.expired, k) + moved
    ensures var i := IndexOf(l.live, key);
      Copies(Expire(l, key).live, r) == Copies(l.live, r) - One(i < |l.live| && Record(l.live[i]) == r)
    ensures var i := IndexOf(l.live, key);
      Copies(Expire(l, key).expired, r) ==
          Copies(l.expired, r) + One(i < |l.live| && Record(l.live[i]) == r && !Placeholder(l.live[i]))
  {
    var i := IndexOf(l.live, key);
    if i < |l.live| {
      var b := l.live[i];
      CutMeasures(l.live, i, k, r);
      Single(b, k, r);
      CountConcat(l.expired, [b], k);
      CopiesConcat(l.expired, [b], r);
    }
  }

  lemma ScreenCounts(l: Ledger, thresh: int, k: Key)
    ensures Count(Screen(l, thresh).pending, k) == Count(l.pending, k) - Count(UpTo(l.pending, thresh), k)
    ensures Count(Screen(l, thresh).live, k) == Count(l.live, k) - Count(UpTo(l.live, thresh), k)
    ensures Count(Screen(l, thresh).expired, k)
         == Count(l.expired, k) + Count(UpTo(l.live, thresh), k) + Count(UpTo(l.pending, thresh), k)
  {
    SplitCount(l.pending, thresh, k);
    SplitCount(l.live, thresh, k);
    CountConcat(l.expired, UpTo(l.live, thresh), k);
    CountConcat(l.expired + UpTo(l.live, thresh), UpTo(l.pending, thresh), k);
  }

  lemma ScreenCopies(l: Ledger, thresh: int, r: Bond)
    ensures var s := Screen(l, thresh);
      if r.lockTime > thresh then
        Copies(s.pending, r) == Copies(l.pending, r) && Copies(s.live, r) == Copies(l.live, r) &&
            Copies(s.expired, r) == Copies(l.expired, r)
      else
        Copies(s.pending, r) == Copies(s.live, r) == 0 &&
            Copies(s.expired, r) == Copies(l.expired, r) + Copies(l.live, r) + Copies(l.pending, r)
  {
    SelectedCopies(l.pending, thresh, r);
    SelectedCopies(l.live, thresh, r);
    CopiesConcat(l.expired, UpTo(l.live, thresh), r);
    CopiesConcat(l.expired + UpTo(l.live, thresh), UpTo(l.pending, thresh), r);
  }

  /** Cutting spent keys from a list only removes, and only what is named. */
  lemma {:induction false} CutSpentCounts(bs: seq<Bond>, spent: seq<Key>, k: Key)
    ensures Count(CutSpent(bs, spent), k) <= Count(bs, k)
    ensures k !in spent ==> Count(CutSpent(bs, spent), k) == Count(bs, k)
    ensures k in spent && Count(bs, k) <= 1 ==> Count(CutSpent(bs, spent), k) == 0
    decreases |spent|
  {
    if spent != [] {
      var i := IndexOf(bs, spent[0]);
      IndexOfFound(bs, spent[0]);
      if i < |bs| {
        CutMeasures(bs, i, k, bs[i]);
        CutSpentCounts(Cut(bs, i), spent[1..], k);
      } else {
        CutSpentCounts(bs, spent[1..], k);
      }
    }
  }

  lemma {:induction false} CutSpentCopies(bs: seq<Bond>, spent: seq<Key>, r: Bond)
    ensures Copies(CutSpent(bs, spent), r) <= Copies(bs, r)
    ensures KeyOf(r) !in spent ==> Copies(CutSpent(bs, spent), r) == Copies(bs, r)
    decreases |spent|
  {
    if spent != [] {
      var i := IndexOf(bs, spent[0]);
      if i < |bs| {
        CutMeasures(bs, i, spent[0], r);
        CutSpentCopies(Cut(bs, i), spent[1..], r);
      } else {
        CutSpentCopies(bs, spent[1..], r);
      }
    }
  }

  /** When may a step retire a bond: a refund that names it while it is
      expired, or the server expiring a live placeholder. */
  ghost predicate MayRetire(a: Account, s: Step, k: Key) {
    || (s.Refunded? && k in s.spent && PhaseOf(a, k) == Expired)
    || (s.ServerExpired? && k == s.key && PhaseOf(a, k) == Live
        && exists i :: 0 <= i < |a.ledger.live| && KeyOf(a.ledger.live[i]) == k && Placeholder(a.ledger.live[i]))
  }

  /** One step and one key: the key stays in at most one place, its phase
      moves forward only, and it retires in no other way than the two allowed. */
  ghost predicate Forward(a: Account, s: Step, k: Key) {
    var b := Next(a, s);
    && Places(b.ledger, k) <= 1
    && (Places(b.ledger, k) > 0 ==> k in b.known)
    && PhaseOf(a, k).Rank() <= PhaseOf(b, k).Rank()
    && (PhaseOf(b, k) == Retired && PhaseOf(a, k) != Retired ==> MayRetire(a, s, k))
  }

  lemma ExpiryMovesForward(a: Account, key: Key, k: Key)
    requires Valid(a)
    ensures Forward(a, ServerExpired(key), k)
  {
    var l := a.ledger;
    assert Places(l, k) <= 1;
    assert Places(l, k) > 0 ==> k in a.known;
    ExpireCounts(l, key, k, Witness());
    IndexOfFound(l.live, key);
    var i := IndexOf(l.live, key);
    if i < |l.live| && Placeholder(l.live[i]) && k == key {
      assert PhaseOf(a, k) == Live;
      assert MayRetire(a, ServerExpired(key), k);
    }
  }

  lemma ScreeningMovesForward(a: Account, thresh: int, k: Key)
    requires Valid(a)
    ensures Forward(a, Screened(thresh), k)
  {
    assert Places(a.ledger, k) <= 1;
    assert Places(a.ledger, k) > 0 ==> k in a.known;
    ScreenCounts(a.ledger, thresh, k);
  }

  lemma StepMovesForward(a: Account, s: Step, k: Key)
    requires Valid(a) && Enabled(a, s)
    ensures Forward(a, s, k)
  {
    var l := a.ledger;
    assert Places(l, k) <= 1;
    assert Places(l, k) > 0 ==> k in a.known;
    match s {
      case Posted(b) =>
        CountConcat(l.pending, [b], k);
        Single(b, k, b);
        assert Places(l, KeyOf(b)) == 0;
      case Confirmed(key) =>
        ConfirmCounts(l, key, k, Witness());
      case ServerExpired(key) =>
        ExpiryMovesForward(a, key, k);
      case Screened(thresh) =>
        ScreeningMovesForward(a, thresh, k);
      case Refunded(spent) =>
        CutSpentCounts(l.expired, spent, k);
      case Resorted(order) =>
        OrderIsNoMatter(order, l.expired, k, Witness());
    }
  }

  function Witness(): Bond {
    Bond(0, "", 0, 0, 0, "", false, false, 0)
  }

  lemma StepKeepsValid(a: Account, s: Step)
    requires Valid(a) && Enabled(a, s)
    ensures Valid(Next(a, s))
  {
    forall k
      ensures Places(Next(a, s).ledger, k) <= 1
      ensures Places(Next(a, s).ledger, k) > 0 ==> k in Next(a, s).known
    {
      StepMovesForward(a, s, k);
    }
  }

  /** Nothing is lost or altered: a step leaves every record as often in the
      lists as before, plus the bond it posts, minus what it retires. */
  lemma StepConserves(a: Account, s: Step, r: Bond)
    requires Valid(a) && Enabled(a, s)
    ensures var l, l' := a.ledger, Next(a, s).ledger;
      var held := Copies(l.pending, r) + Copies(l.live, r) + Copies(l.expired, r);
      var held' := Copies(l'.pending, r) + Copies(l'.live, r) + Copies(l'.expired, r);
      && held' <= held + One(s.Posted? && Record(s.bond) == r)
      && (held' < held + One(s.Posted? && Record(s.bond) == r) ==>
            (s.Refunded? && KeyOf(r) in s.spent) || (s.ServerExpired? && Placeholder(r)))
  {
    var l := a.ledger;
    var k := KeyOf(r);
    match s {
      case Posted(b) =>
        CopiesConcat(l.pending, [b], r);
        Single(b, k, r);
      case Confirmed(key) =>
        ConfirmCounts(l, key, k, r);
      case ServerExpired(key) =>
        ExpireCounts(l, key, k, r);
      case Screened(thresh) =>
        ScreenCopies(l, thresh, r);
      case Refunded(spent) =>
        CutSpentCopies(l.expired, spent, r);
      case Resorted(order) =>
        OrderIsNoMatter(order, l.expired, k, r);
    }
  }

  // ---------- exactly where a step takes a bond ----------

  /** The bond with the key, if a list has one. */
  function BondOf(bs: seq<Bond>, k: Key): Option<Bond> {
    var i := IndexOf(bs, k);
    if i < |bs| then Some(bs[i]) else None
  }

  predicate LocksUpTo(b: Option<Bond>, thresh: int) {
    b.Some? && b.value.lockTime <= thresh
  }

  /** Where the bond is after a step, by where it was. */
  function NextPhase(a: Account, s: Step, k: Key): Phase {
    var phase := PhaseOf(a, k);
    match s
    case Posted(b) => if KeyOf(b) == k then Pending else phase
    case Confirmed(key) => if key == k && phase == Pending then Live else phase
    case ServerExpired(key) =>
      if key != k || phase != Live then phase
      else if BondOf(a.ledger.live, k).Some? && Placeholder(BondOf(a.ledger.live, k).value) then Retired
      else Expired
    case Screened(thresh) =>
      if (phase == Pending && LocksUpTo(BondOf(a.ledger.pending, k), thresh))
         || (phase == Live && LocksUpTo(BondOf(a.ledger.live, k), thresh)) then Expired
      else phase
    case Refunded(spent) => if phase == Expired && k in spent then Retired else phase
    case Resorted(_) => phase
  }

  lemma {:induction false} UpToCounts(bs: seq<Bond>, k: Key, thresh: int)
    requires Count(bs, k) <= 1
    ensures Count(UpTo(bs, thresh), k) == One(LocksUpTo(BondOf(bs, k), thresh))
  {
    if bs != [] {
      UpToCounts(bs[1..], k, thresh);
      Single(bs[0], k, bs[0]);
      CountConcat(if bs[0].lockTime > thresh then [] else [bs[0]], UpTo(bs[1..], thresh), k);
      if KeyOf(bs[0]) == k {
        IndexOfFound(bs[1..], k);
      }
    }
  }

  lemma ExpiryMovesExactly(a: Account, key: Key, k: Key)
    requires Valid(a)
    ensures PhaseOf(Next(a, ServerExpired(key)), k) == NextPhase(a, ServerExpired(key), k)
  {
    assert Places(a.ledger, k) <= 1 && (Places(a.ledger, k) > 0 ==> k in a.known);
    ExpireCounts(a.ledger, key, k, Witness());
    IndexOfFound(a.ledger.live, key);
  }

  lemma ScreeningMovesExactly(a: Account, thresh: int, k: Key)
    requires Valid(a)
    ensures PhaseOf(Next(a, Screened(thresh)), k) == NextPhase(a, Screened(thresh), k)
  {
    var l := a.ledger;
    assert Places(l, k) <= 1 && (Places(l, k) > 0 ==> k in a.known);
    ScreenCounts(l, thresh, k);
    UpToCounts(l.pending, k, thresh);
    UpToCounts(l.live, k, thresh);
    IndexOfFound(l.pending, k);
    IndexOfFound(l.live, k);
  }

  /** Every step takes every bond exactly where it should. */
  lemma StepMovesExactly(a: Account, s: Step, k: Key)
    requires Valid(a) && Enabled(a, s)
    ensures PhaseOf(Next(a, s), k) == NextPhase(a, s, k)
  {
    var l := a.ledger;
    assert Places(l, k) <= 1 && (Places(l, k) > 0 ==> k in a.known);
    match s {
      case Posted(b) =>
        CountConcat(l.pending, [b], k);
        Single(b, k, b);
      case Confirmed(key) =>
        ConfirmCounts(l, key, k, Witness());
        IndexOfFound(l.pending, key);
      case ServerExpired(key) =>
        ExpiryMovesExactly(a, key, k);
      case Screened(thresh) =>
        ScreeningMovesExactly(a, thresh, k);
      case Refunded(spent) =>
        CutSpentCounts(l.expired, spent, k);
      case Resorted(order) =>
        OrderIsNoMatter(order, l.expired, k, Witness());
    }
  }

  /** Every live bond is marked as confirmed. */
  ghost predicate LiveConfirmed(l: Ledger) {
    forall b :: b in l.live ==> b.confirmed
  }

  lemma StepKeepsConfirmed(a: Account, s: Step)
    requires LiveConfirmed(a.ledger)
    ensures LiveConfirmed(Next(a, s).ledger)
  {
    var l := a.ledger;
    forall b | b in Next(a, s).ledger.live
      ensures b.confirmed
    {
      match s {
        case Screened(thresh) => SelectedMembers(l.live, thresh, b);
        case _ =>
      }
    }
  }

  // ---------- runs ----------

  function Run(a: Account, steps: seq<Step>): Account
    decreases |steps|
  {
    if steps == [] then a else Run(Next(a, steps[0]), steps[1..])
  }

  ghost predicate EnabledRun(a: Account, steps: seq<Step>)
    decreases |steps|
  {
    steps == [] || (Enabled(a, steps[0]) && EnabledRun(Next(a, steps[0]), steps[1..]))
  }

  /** In every run, however posting, confirmation, expiry, screening and refunds
      interleave, each known bond is in exactly one of pending, live, expired
      and retired, and its phase only moves forward. */
  lemma {:induction false} RunsMoveForward(a: Account, steps: seq<Step>, k: Key)
    requires Valid(a) && EnabledRun(a, steps)
    ensures Valid(Run(a, steps))
    ensures PhaseOf(a, k).Rank() <= PhaseOf(Run(a, steps), k).Rank()
    ensures k in a.known ==> k in Run(a, steps).known
    decreases |steps|
  {
    if steps != [] {
      StepKeepsValid(a, steps[0]);
      StepMovesForward(a, steps[0], k);
      RunsMoveForward(Next(a, steps[0]), steps[1..], k);
    }
  }

  lemma {:induction false} RunsKeepConfirmed(a: Account, steps: seq<Step>)
    requires LiveConfirmed(a.ledger) && EnabledRun(a, steps)
    ensures LiveConfirmed(Run(a, steps).ledger)
    decreases |steps|
  {
    if steps != [] {
      StepKeepsConfirmed(a, steps[0]);
      RunsKeepConfirmed(Next(a, steps[0]), steps[1..]);
    }
  }

  /** A bond that a run retires was retired by a refund that named it while
      expired, or was a live placeholder that the server expired. */
  lemma {:induction false} RunsRetireOnlyRefunded(a: Account, steps: seq<Step>, k: Key)
    requires Valid(a) && EnabledRun(a, steps)
    requires PhaseOf(a, k) != Retired && PhaseOf(Run(a, steps), k) == Retired
    ensures exists n :: 0 <= n < |steps| && MayRetire(Run(a, steps[..n]), steps[n], k)
    decreases |steps|
  {
    assert steps != [];
    var b := Next(a, steps[0]);
    StepKeepsValid(a, steps[0]);
    if PhaseOf(b, k) == Retired {
      StepMovesForward(a, steps[0], k);
      assert steps[..0] == [];
      assert MayRetire(Run(a, steps[..0]), steps[0], k);
    } else {
      RunsRetireOnlyRefunded(b, steps[1..], k);
      var n :| 0 <= n < |steps[1..]| && MayRetire(Run(b, steps[1..][..n]), steps[1..][n], k);
      assert steps[..n + 1][1..] == steps[1..][..n];
      assert steps[..n + 1][0] == steps[0];
      assert MayRetire(Run(a, steps[..n + 1]), steps[n + 1], k);
    }
  }

  // ---------- a server report of a bond that is not pending or live ----------

  /** What authentication does with an active bond that the server reports and
      that is neither pending nor live here: append it to the live list. */
  function Report(l: Ledger, b: Bond): Ledger {
    l.(live := l.live + [b])
  }

  /** The guard of that branch looks only at copies of the pending and live
      lists, taken before the server was asked. By the time the reported bond is
      added, steps may have been taken. Every bond stays in one place exactly
      when the bond is then unknown or retired. */
  lemma ReportKeepsOnePlace(a: Account, steps: seq<Step>, b: Bond)
    requires Valid(a) && EnabledRun(a, steps)
    requires Count(a.ledger.pending, KeyOf(b)) == 0 && Count(a.ledger.live, KeyOf(b)) == 0
    ensures Count(Report(Run(a, steps).ledger, b).live, KeyOf(b)) > 0
    ensures (forall k :: Places(Report(Run(a, steps).ledger, b), k) <= 1) <==>
        PhaseOf(Run(a, steps), KeyOf(b)) in {Unknown, Retired}
  {
    RunsMoveForward(a, steps, KeyOf(b));
    var l := Run(a, steps).ledger;
    forall k
      ensures Places(Report(l, b), k) == Places(l, k) + One(KeyOf(b) == k)
    {
      CountConcat(l.live, [b], k);
      Single(b, k, b);
    }
    CountConcat(l.live, [b], KeyOf(b));
    Single(b, KeyOf(b), b);
    assert Places(Report(l, b), KeyOf(b)) == Places(l, KeyOf(b)) + 1;
  }

  /** A bond that has been retired is added safely, whatever happens between the
      copies and the report. */
  lemma RetiredBondsAreReportedSafely(a: Account, steps: seq<Step>, b: Bond)
    requires Valid(a) && EnabledRun(a, steps) && PhaseOf(a, KeyOf(b)) == Retired
    ensures forall k :: Places(Report(Run(a, steps).ledger, b), k) <= 1
  {
    RunsMoveForward(a, steps, KeyOf(b));
    ReportKeepsOnePlace(a, steps, b);
  }

  /** A bond that the local clock expired and the server still calls active
      ends up in two lists at once. */
  lemma ReportCanDuplicate() returns (a: Account, b: Bond)
    ensures Valid(a) && Count(a.ledger.pending, KeyOf(b)) == 0 && Count(a.ledger.live, KeyOf(b)) == 0
    ensures Places(Report(a.ledger, b), KeyOf(b)) == 2
  {
    b := Bond(42, "coin", 1, 100, 7, "tx", true, false, 1);
    a := Account(Ledger([], [], [b]), {KeyOf(b)});
    forall k
      ensures Places(a.ledger, k) == One(KeyOf(b) == k)
    {
      Single(b, k, b);
    }
    Single(b, KeyOf(b), b);
    assert [] + [b] == [b];
  }
}
