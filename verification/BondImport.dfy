/** Importing an account that is already known merges the imported bonds into
    the known ones: unknown bonds are added, placeholders are replaced. */
module BondImport {
  import opened Basics
  import opened Bonds

  /** A bond whose key is known, as opposed to a placeholder for one that only
      the server reported. */
  predicate Proper(b: Bond) {
    b.keyIndex != MAX_KEY_INDEX
  }

  /** The first bond with the key. */
  function Find(bs: seq<Bond>, k: Key): Option<Bond> {
    var i := IndexOf(bs, k);
    if i < |bs| then Some(bs[i]) else None
  }

  /** What one imported bond does to the list. */
  function MergeOne(known: seq<Bond>, b: Bond): seq<Bond> {
    var i := IndexOf(known, KeyOf(b));
    if i == |known| then known + [b]
    else if Proper(known[i]) then known
    else known[i := b]
  }

  /** Is the imported bond written at all? */
  predicate Writes(known: seq<Bond>, b: Bond) {
    var have := Find(known, KeyOf(b));
    !(have.Some? && Proper(have.value))
  }

  function Merge(known: seq<Bond>, imported: seq<Bond>): seq<Bond>
    decreases |imported|
  {
    if imported == [] then known else Merge(MergeOne(known, imported[0]), imported[1..])
  }

  /** The imported bonds that are written, in order. */
  function Written(known: seq<Bond>, imported: seq<Bond>): seq<Bond>
    decreases |imported|
  {
    if imported == [] then []
    else
      var first := if Writes(known, imported[0]) then [imported[0]] else [];
      first + Written(MergeOne(known, imported[0]), imported[1..])
  }

  function Unspent(bs: seq<Bond>): nat {
    if bs == [] then 0 else One(!bs[0].refunded) + Unspent(bs[1..])
  }

  /** The merge loop. Each write goes to the database first; a failed write
      ends the import with an error, and what was written stays written. */
  method MergeBonds(known: seq<Bond>, imported: seq<Bond>, writeFails: seq<bool>)
    returns (merged: Option<seq<Bond>>, newLiveBonds: nat, written: seq<Bond>)
    requires |writeFails| == |imported|
    ensures written <= Written(known, imported)
    ensures merged.Some? ==> merged.value == Merge(known, imported) && written == Written(known, imported)
    ensures merged.Some? ==> newLiveBonds == Unspent(written)
    ensures (forall i :: 0 <= i < |writeFails| ==> !writeFails[i]) ==> merged.Some?
  {
    var bonds := known;
    newLiveBonds, written := 0, [];
    var n := 0;
    assert imported[0..] == imported;
    while n < |imported|
      invariant n <= |imported|
      invariant Merge(bonds, imported[n..]) == Merge(known, imported)
      invariant written + Written(bonds, imported[n..]) == Written(known, imported)
      invariant newLiveBonds == Unspent(written)
    {
      var bond := imported[n];
      MergeFirst(bonds, imported, n, written);
      n := n + 1;
      var have := FindBond(bonds, KeyOf(bond));
      if have < |bonds| && bonds[have].keyIndex != MAX_KEY_INDEX {
        continue;
      }
      if writeFails[n - 1] {
        merged := None;
        return;
      }
      UnspentSnoc(written, bond);
      written := written + [bond];
      if have == |bonds| {
        bonds := bonds + [bond];
      } else {
        bonds := bonds[have := bond];
      }
      if !bond.refunded {
        newLiveBonds := newLiveBonds + 1;
      }
    }
    assert imported[n..] == [];
    merged := Some(bonds);
  }

  /** One turn of the loop, on the specification's side. */
  lemma MergeFirst(bonds: seq<Bond>, imported: seq<Bond>, n: nat, written: seq<Bond>)
    requires n < |imported|
    ensures Merge(bonds, imported[n..]) == Merge(MergeOne(bonds, imported[n]), imported[n + 1..])
    ensures written + Written(bonds, imported[n..])
         == (if Writes(bonds, imported[n]) then written + [imported[n]] else written) +
            Written(MergeOne(bonds, imported[n]), imported[n + 1..])
  {
    assert imported[n..][1..] == imported[n + 1..];
  }

  lemma {:induction false} UnspentSnoc(bs: seq<Bond>, b: Bond)
    ensures Unspent(bs + [b]) == Unspent(bs) + One(!b.refunded)
  {
    if bs == [] {
      assert bs + [b] == [b] && [b][1..] == [];
    } else {
      assert (bs + [b])[1..] == bs[1..] + [b];
      UnspentSnoc(bs[1..], b);
    }
  }

  /** Nothing new is live if and only if all that was written is refunded. */
  lemma {:induction false} NothingUnspent(bs: seq<Bond>)
    ensures Unspent(bs) <= |bs|
    ensures Unspent(bs) == 0 <==> forall b :: b in bs ==> b.refunded
    ensures Unspent(bs) == |bs| <==> forall b :: b in bs ==> !b.refunded
  {
    if bs != [] {
      NothingUnspent(bs[1..]);
      assert bs == [bs[0]] + bs[1..];
    }
  }

  // ---------- what the merge decides, key by key ----------

  /** The first proper bond with the key. */
  function FirstProper(bs: seq<Bond>, k: Key): Option<Bond> {
    if bs == [] then None
    else if KeyOf(bs[0]) == k && Proper(bs[0]) then Some(bs[0])
    else FirstProper(bs[1..], k)
  }

  /** The last bond with the key. */
  function LastOf(bs: seq<Bond>, k: Key): Option<Bond> {
    if bs == [] then None
    else
      var later := LastOf(bs[1..], k);
      if later.Some? then later else if KeyOf(bs[0]) == k then Some(bs[0]) else None
  }

  /** Which bond should represent a key: a proper known one, else the first
      proper imported one, else the last imported placeholder, else the known one. */
  function Winner(have: Option<Bond>, imported: seq<Bond>, k: Key): Option<Bond> {
    if have.Some? && Proper(have.value) then have
    else if FirstProper(imported, k).Some? then FirstProper(imported, k)
    else if LastOf(imported, k).Some? then LastOf(imported, k)
    else have
  }

  lemma FindUnique(bs: seq<Bond>, k: Key, i: nat)
    requires i < |bs| && KeyOf(bs[i]) == k && forall j :: 0 <= j < i ==> KeyOf(bs[j]) != k
    ensures IndexOf(bs, k) == i
  {
  }

  lemma MergeOneFinds(known: seq<Bond>, b: Bond, k: Key)
    ensures Find(MergeOne(known, b), k) == if KeyOf(b) == k && Writes(known, b) then Some(b) else Find(known, k)
  {
    var i := IndexOf(known, KeyOf(b));
    var m := MergeOne(known, b);
    if KeyOf(b) == k {
      if Writes(known, b) {
        FindUnique(m, k, i);
      }
    } else {
      var j := IndexOf(known, k);
      if j < |known| {
        FindUnique(m, k, j);
      } else {
        var j' := IndexOf(m, k);
        assert j' == |m|;
      }
    }
  }

  /** One imported bond, and then the rest: the winner is the same. */
  lemma WinnerOfFirst(have: Option<Bond>, imported: seq<Bond>, k: Key)
    requires imported != []
    ensures var b := imported[0];
      var next := if KeyOf(b) == k && !(have.Some? && Proper(have.value)) then Some(b) else have;
      Winner(next, imported[1..], k) == Winner(have, imported, k)
  {
  }

  /** After the merge every key is represented by its winner. */
  lemma {:induction false} MergePicksWinner(known: seq<Bond>, imported: seq<Bond>, k: Key)
    ensures Find(Merge(known, imported), k) == Winner(Find(known, k), imported, k)
    decreases |imported|
  {
    if imported != [] {
      MergeOneFinds(known, imported[0], k);
      WinnerOfFirst(Find(known, k), imported, k);
      MergePicksWinner(MergeOne(known, imported[0]), imported[1..], k);
    }
  }

  lemma {:induction false} SearchesAgree(bs: seq<Bond>, k: Key)
    ensures FirstProper(bs, k).Some? ==> KeyOf(FirstProper(bs, k).value) == k && Proper(FirstProper(bs, k).value)
    ensures LastOf(bs, k).Some? ==> KeyOf(LastOf(bs, k).value) == k
    ensures LastOf(bs, k).Some? <==> Count(bs, k) > 0
    ensures FirstProper(bs, k).Some? <==> exists i :: 0 <= i < |bs| && KeyOf(bs[i]) == k && Proper(bs[i])
  {
    if bs != [] {
      SearchesAgree(bs[1..], k);
      if exists i :: 0 <= i < |bs[1..]| && KeyOf(bs[1..][i]) == k && Proper(bs[1..][i]) {
        var i :| 0 <= i < |bs[1..]| && KeyOf(bs[1..][i]) == k && Proper(bs[1..][i]);
        assert KeyOf(bs[i + 1]) == k && Proper(bs[i + 1]);
      }
      if exists i :: 1 <= i < |bs| && KeyOf(bs[i]) == k && Proper(bs[i]) {
        var i :| 1 <= i < |bs| && KeyOf(bs[i]) == k && Proper(bs[i]);
        assert KeyOf(bs[1..][i - 1]) == k && Proper(bs[1..][i - 1]);
      }
    }
  }

  /** A proper known bond is never altered, and a key for which either side has
      a proper bond ends up with a proper bond. */
  lemma MergePrefersProper(known: seq<Bond>, imported: seq<Bond>, k: Key)
    ensures Find(known, k).Some? && Proper(Find(known, k).value) ==> Find(Merge(known, imported), k) == Find(known, k)
    ensures (Find(known, k).Some? && Proper(Find(known, k).value)) ||
        (exists i :: 0 <= i < |imported| && KeyOf(imported[i]) == k && Proper(imported[i]))
      ==> Find(Merge(known, imported), k).Some? && Proper(Find(Merge(known, imported), k).value)
  {
    MergePicksWinner(known, imported, k);
    SearchesAgree(imported, k);
  }

  // ---------- no duplicates, and merging twice is merging once ----------

  lemma {:induction false} MergeKeepsUnique(known: seq<Bond>, imported: seq<Bond>)
    requires Unique(known)
    ensures Unique(Merge(known, imported))
    decreases |imported|
  {
    if imported != [] {
      assert Unique(MergeOne(known, imported[0]));
      MergeKeepsUnique(MergeOne(known, imported[0]), imported[1..]);
    }
  }

  /** The same keys, in the same places, possibly followed by more. */
  ghost predicate KeysStay(a: seq<Bond>, b: seq<Bond>) {
    |a| <= |b| && forall i :: 0 <= i < |a| ==> KeyOf(a[i]) == KeyOf(b[i])
  }

  lemma {:induction false} MergeKeepsKeys(known: seq<Bond>, imported: seq<Bond>)
    ensures KeysStay(known, Merge(known, imported))
    ensures (forall i :: 0 <= i < |imported| ==> IndexOf(known, KeyOf(imported[i])) < |known|) ==>
        |Merge(known, imported)| == |known|
    decreases |imported|
  {
    if imported != [] {
      var next := MergeOne(known, imported[0]);
      MergeKeepsKeys(next, imported[1..]);
      assert KeysStay(known, next);
      if forall i :: 0 <= i < |imported| ==> IndexOf(known, KeyOf(imported[i])) < |known| {
        assert IndexOf(known, KeyOf(imported[0])) < |known|;
        forall i | 0 <= i < |imported[1..]|
          ensures IndexOf(next, KeyOf(imported[1..][i])) < |next|
        {
          var j := IndexOf(known, KeyOf(imported[i + 1]));
          assert KeyOf(next[j]) == KeyOf(imported[i + 1]);
        }
      }
    }
  }

  /** Merging the same list again changes nothing. */
  lemma MergeTwiceIsMergeOnce(known: seq<Bond>, imported: seq<Bond>)
    requires Unique(known)
    ensures Merge(Merge(known, imported), imported) == Merge(known, imported)
  {
    var once := Merge(known, imported);
    var twice := Merge(once, imported);
    MergeKeepsUnique(known, imported);
    MergeKeepsUnique(once, imported);
    forall i | 0 <= i < |imported|
      ensures IndexOf(once, KeyOf(imported[i])) < |once|
    {
      ImportedIsFound(known, imported, i);
    }
    MergeKeepsKeys(once, imported);
    forall i | 0 <= i < |once|
      ensures twice[i] == once[i]
    {
      var k := KeyOf(once[i]);
      FindUnique(once, k, i);
      FindUnique(twice, k, i);
      WinnerTwice(Find(known, k), imported, k);
      MergePicksWinner(known, imported, k);
      MergePicksWinner(once, imported, k);
    }
  }

  lemma ImportedIsFound(known: seq<Bond>, imported: seq<Bond>, i: nat)
    requires i < |imported|
    ensures IndexOf(Merge(known, imported), KeyOf(imported[i])) < |Merge(known, imported)|
  {
    var k := KeyOf(imported[i]);
    MergePicksWinner(known, imported, k);
    SearchesAgree(imported, k);
    CountMember(imported, k);
  }

  lemma WinnerTwice(have: Option<Bond>, imported: seq<Bond>, k: Key)
    ensures Winner(Winner(have, imported, k), imported, k) == Winner(have, imported, k)
  {
    SearchesAgree(imported, k);
  }

  // ---------- the database agrees ----------

  /** The database after a list of writes, each an addition or an update. */
  function Stored(db: map<Key, Bond>, writes: seq<Bond>): map<Key, Bond>
    decreases |writes|
  {
    if writes == [] then db else Stored(db[KeyOf(writes[0]) := writes[0]], writes[1..])
  }

  predicate Agrees(db: map<Key, Bond>, bs: seq<Bond>, k: Key) {
    match Find(bs, k)
    case None => k !in db
    case Some(b) => k in db && db[k] == b
  }

  /** If the database held the known bonds before, it holds the merged ones after. */
  lemma {:induction false} DatabaseFollows(db: map<Key, Bond>, known: seq<Bond>, imported: seq<Bond>, k: Key)
    requires Agrees(db, known, k)
    ensures Agrees(Stored(db, Written(known, imported)), Merge(known, imported), k)
    decreases |imported|
  {
    if imported != [] {
      var b, rest := imported[0], imported[1..];
      var next := MergeOne(known, b);
      MergeOneFinds(known, b, k);
      if Writes(known, b) {
        var w := Written(known, imported);
        assert w[1..] == Written(next, rest);
        DatabaseFollows(db[KeyOf(b) := b], next, rest, k);
      } else {
        assert Written(known, imported) == Written(next, rest);
        DatabaseFollows(db, next, rest, k);
      }
    }
  }
}
