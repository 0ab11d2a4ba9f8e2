/** Backup snapshot retention of the authorization store
    (`_create_backup_snapshot_sync`): after a new `snapshot_<ts>` directory
    is made, the snapshot directories are sorted by name, newest first, and
    all but the first `max(1, keep)` are removed. */
module AuthBackup {
  import opened Wrappers
  import opened Text

  /** An entry of the backup directory as `iterdir()` yields it. */
  datatype Entry = Entry(name: string, isDir: bool)

  const SNAPSHOT_PREFIX := "snapshot_"
  const LATEST := "latest"

  // ----- Python's string order -----

  /** `a < b` on Python strings: code point by code point, a proper
      prefix first. */
  predicate StrLess(a: string, b: string)
    decreases |a|
  {
    if a == [] then b != []
    else if b == [] then false
    else if a[0] != b[0] then a[0] < b[0]
    else StrLess(a[1..], b[1..])
  }

  lemma {:induction false} StrLessIrreflexive(a: string)
    ensures !StrLess(a, a)
    decreases |a|
  {
    if a != [] {
      StrLessIrreflexive(a[1..]);
    }
  }

  lemma {:induction false} StrLessAsymmetric(a: string, b: string)
    requires StrLess(a, b)
    ensures !StrLess(b, a)
    decreases |a|
  {
    if a != [] && b != [] && a[0] == b[0] {
      StrLessAsymmetric(a[1..], b[1..]);
    }
  }

  lemma {:induction false} StrLessTransitive(a: string, b: string, c: string)
    ensures StrLess(a, b) && StrLess(b, c) ==> StrLess(a, c)
    decreases |a|
  {
    if a != [] && b != [] && c != [] && a[0] == b[0] && b[0] == c[0] {
      StrLessTransitive(a[1..], b[1..], c[1..]);
    }
  }

  /** Two different strings are ordered one way or the other. */
  lemma {:induction false} StrLessTotal(a: string, b: string)
    ensures a == b || StrLess(a, b) || StrLess(b, a)
    decreases |a|
  {
    if a != [] && b != [] && a[0] == b[0] {
      assert a == [a[0]] + a[1..] && b == [b[0]] + b[1..];
      StrLessTotal(a[1..], b[1..]);
    }
  }

  // ----- sorting by name, newest first -----

  /** No name comes before a later one: sorted with `reverse=True`. */
  predicate Descending(s: seq<string>)
  {
    forall i, j :: 0 <= i < j < |s| ==> !StrLess(s[i], s[j])
  }

  function InsertDescending(x: string, s: seq<string>): (r: seq<string>)
    requires Descending(s)
    ensures Descending(r)
    ensures multiset(r) == multiset(s) + multiset{x}
    ensures forall y :: y in r <==> y in s || y == x
    decreases |s|
  {
    if s == [] then [x]
    else if !StrLess(x, s[0]) then
      InsertInFront(x, s);
      [x] + s
    else
      var rest := InsertDescending(x, s[1..]);
      assert s == [s[0]] + s[1..];
      StrLessAsymmetric(x, s[0]);
      PrependKeepsDescending(s[0], rest);
      [s[0]] + rest
  }

  lemma PrependKeepsDescending(h: string, rest: seq<string>)
    requires Descending(rest)
    requires forall y :: y in rest ==> !StrLess(h, y)
    ensures Descending([h] + rest)
  {
    forall i, j | 0 <= i < j < |[h] + rest|
      ensures !StrLess(([h] + rest)[i], ([h] + rest)[j])
    {
      if i == 0 {
        assert ([h] + rest)[j] == rest[j - 1];
      } else {
        assert ([h] + rest)[i] == rest[i - 1] && ([h] + rest)[j] == rest[j - 1];
      }
    }
  }

  lemma InsertInFront(x: string, s: seq<string>)
    requires Descending(s) && s != [] && !StrLess(x, s[0])
    ensures Descending([x] + s)
  {
    forall y | y in s
      ensures !StrLess(x, y)
    {
      var k :| 0 <= k < |s| && s[k] == y;
      assert k == 0 || !StrLess(s[0], s[k]);
      StrLessTotal(y, s[0]);
      StrLessTransitive(x, y, s[0]);
    }
    PrependKeepsDescending(x, s);
  }

  /** `sorted(names, reverse=True)`. */
  function SortDescending(names: seq<string>): (r: seq<string>)
    ensures Descending(r)
    ensures multiset(r) == multiset(names)
    ensures forall y :: y in r <==> y in names
    decreases |names|
  {
    if names == [] then []
    else
      var last := names[|names| - 1];
      assert names == names[..|names| - 1] + [last];
      assert forall y :: y in names <==> y in names[..|names| - 1] || y == last;
      InsertDescending(last, SortDescending(names[..|names| - 1]))
  }

  // ----- the snapshot set of a listing -----

  predicate IsSnapshot(e: Entry)
  {
    e.isDir && StartsWith(e.name, SNAPSHOT_PREFIX)
  }

  /** The snapshot directory names, in listing order. */
  function Snapshots(listing: seq<Entry>): (r: seq<string>)
    ensures forall n :: n in r <==> exists e :: e in listing && IsSnapshot(e) && e.name == n
    decreases |listing|
  {
    if listing == [] then []
    else
      var last := listing[|listing| - 1];
      var init := listing[..|listing| - 1];
      assert forall e :: e in listing <==> e in init || e == last;
      Snapshots(init) + (if IsSnapshot(last) then [last.name] else [])
  }

  /** A directory holds each name once. */
  predicate DistinctNames(listing: seq<Entry>)
  {
    forall i, j :: 0 <= i < j < |listing| ==> listing[i].name != listing[j].name
  }

  function Count(s: seq<string>, x: string): nat
  {
    multiset(s)[x]
  }

  lemma {:induction false} SnapshotsOnce(listing: seq<Entry>, n: string)
    requires DistinctNames(listing)
    ensures Count(Snapshots(listing), n) <= 1
    decreases |listing|
  {
    if listing != [] {
      var last := listing[|listing| - 1];
      var init := listing[..|listing| - 1];
      assert DistinctNames(init) by {
        forall i, j | 0 <= i < j < |init|
          ensures init[i].name != init[j].name
        {
          assert init[i] == listing[i] && init[j] == listing[j];
        }
      }
      SnapshotsOnce(init, n);
      forall e | e in init
        ensures e.name != last.name
      {
        var k :| 0 <= k < |init| && init[k] == e;
        assert listing[k] == e;
      }
      var rest := Snapshots(init);
      var tail := if IsSnapshot(last) then [last.name] else [];
      assert Snapshots(listing) == rest + tail;
      assert multiset(Snapshots(listing)) == multiset(rest) + multiset(tail);
      assert last.name !in rest;
      assert multiset(rest)[last.name] == 0;
    }
  }

  /** Two places of a list holding the same name count it twice. */
  lemma TwiceCountsTwice(s: seq<string>, i: int, j: int)
    requires 0 <= i < j < |s|
    ensures s[i] == s[j] ==> Count(s, s[i]) >= 2
  {
    assert s == s[..j] + s[j..];
    assert s[i] in multiset(s[..j]);
    assert s[j] in multiset(s[j..]);
  }

  // ----- retention -----

  /** The number of snapshots kept: `max(1, keep)`. */
  function KeepCount(keep: int): nat
  {
    if keep < 1 then 1 else keep
  }

  function Sorted(listing: seq<Entry>): seq<string>
  {
    SortDescending(Snapshots(listing))
  }

  /** `snapshots[:max(1, keep)]`. */
  function Kept(listing: seq<Entry>, keep: int): seq<string>
  {
    var s := Sorted(listing);
    s[..if |s| < KeepCount(keep) then |s| else KeepCount(keep)]
  }

  /** `snapshots[max(1, keep):]`, the directories removed. */
  function Removed(listing: seq<Entry>, keep: int): seq<string>
  {
    var s := Sorted(listing);
    s[if |s| < KeepCount(keep) then |s| else KeepCount(keep)..]
  }

  /** The snapshots split into kept and removed; `min(n, max(1, keep))` are
      kept, so at least one whenever any exists. */
  lemma RetentionCounts(listing: seq<Entry>, keep: int)
    ensures multiset(Kept(listing, keep)) + multiset(Removed(listing, keep)) == multiset(Snapshots(listing))
    ensures |Kept(listing, keep)| == if |Snapshots(listing)| < KeepCount(keep) then |Snapshots(listing)| else KeepCount(keep)
    ensures Snapshots(listing) != [] ==> Kept(listing, keep) != []
  {
    var s := Sorted(listing);
    var m := if |s| < KeepCount(keep) then |s| else KeepCount(keep);
    assert s == s[..m] + s[m..];
    assert |s| == |multiset(s)| == |multiset(Snapshots(listing))| == |Snapshots(listing)|;
  }

  /** Every kept snapshot is newer (greater by name) than every removed
      one. */
  lemma KeptAreNewer(listing: seq<Entry>, keep: int, a: string, b: string)
    requires DistinctNames(listing)
    requires a in Kept(listing, keep) && b in Removed(listing, keep)
    ensures StrLess(b, a)
  {
    var s := Sorted(listing);
    SnapshotsOnce(listing, a);
    assert Count(s, a) <= 1;
    SplitIsOrdered(s, if |s| < KeepCount(keep) then |s| else KeepCount(keep), a, b);
  }

  /** In a descending list holding `a` once, `a` before position `m` is
      greater than any `b` from `m` on. */
  lemma SplitIsOrdered(s: seq<string>, m: nat, a: string, b: string)
    requires Descending(s) && m <= |s| && Count(s, a) <= 1
    requires a in s[..m] && b in s[m..]
    ensures StrLess(b, a)
  {
    var i :| 0 <= i < m && s[..m][i] == a;
    var j' :| 0 <= j' < |s| - m && s[m..][j'] == b;
    var j := m + j';
    assert s[i] == a && s[j] == b;
    TwiceCountsTwice(s, i, j);
    StrLessTotal(a, b);
  }

  /** The newest snapshot is always kept, whatever `keep` is. */
  lemma NewestIsKept(listing: seq<Entry>, keep: int, newest: string)
    requires newest in Snapshots(listing)
    requires forall n :: n in Snapshots(listing) && n != newest ==> StrLess(n, newest)
    ensures newest in Kept(listing, keep)
  {
    var s := Sorted(listing);
    var k :| 0 <= k < |s| && s[k] == newest;
    assert s[0] in Snapshots(listing);
    assert k == 0 || !StrLess(s[0], s[k]);
    assert s[0] == newest;
    assert Kept(listing, keep)[0] == s[0];
  }

  /** Only snapshot directories are removed: files, `latest` and leftover
      `.tmp_snapshot_` directories stay. */
  lemma OnlySnapshotsRemoved(listing: seq<Entry>, keep: int, n: string)
    requires n in Removed(listing, keep)
    ensures exists e :: e in listing && IsSnapshot(e) && e.name == n
  {
    var s := Sorted(listing);
    assert forall y :: y in Removed(listing, keep) ==> y in s;
  }

  lemma LatestIsNoSnapshot()
    ensures !StartsWith(LATEST, SNAPSHOT_PREFIX)
  {
    assert LATEST[0] != SNAPSHOT_PREFIX[0];
  }

  // ----- the directory operation -----

  function WithoutName(listing: seq<Entry>, n: string): (r: seq<Entry>)
    ensures forall e :: e in r <==> e in listing && e.name != n
    decreases |listing|
  {
    if listing == [] then []
    else
      var rest := WithoutName(listing[1..], n);
      assert forall e :: e in listing <==> e == listing[0] || e in listing[1..];
      if listing[0].name == n then rest else [listing[0]] + rest
  }

  /** The retention loop: every doomed directory is removed, except those
      whose `rmtree` fails and is ignored. */
  method RemoveDirs(listing: seq<Entry>, doomed: seq<string>, undeletable: set<string>) returns (remaining: seq<Entry>)
    ensures forall e :: e in remaining <==> e in listing && (e.name !in doomed || e.name in undeletable)
  {
    remaining := listing;
    var i := 0;
    while i < |doomed|
      invariant 0 <= i <= |doomed|
      invariant forall e :: e in remaining <==> e in listing && (e.name !in doomed[..i] || e.name in undeletable)
    {
      assert doomed[..i + 1] == doomed[..i] + [doomed[i]];
      if doomed[i] !in undeletable {
        remaining := WithoutName(remaining, doomed[i]);
      }
      i := i + 1;
    }
    assert doomed[..i] == doomed;
  }

  /** The snapshot just made, when its name is the greatest, is not among
      the directories retention removes. */
  lemma NewSnapshotSurvives(listing: seq<Entry>, keep: int, ts: string)
    requires Entry(SNAPSHOT_PREFIX + ts, true) in listing && DistinctNames(listing)
    requires forall n :: n in Snapshots(listing) && n != SNAPSHOT_PREFIX + ts ==> StrLess(n, SNAPSHOT_PREFIX + ts)
    ensures SNAPSHOT_PREFIX + ts !in Removed(listing, keep)
    ensures SNAPSHOT_PREFIX + ts != LATEST
  {
    var name := SNAPSHOT_PREFIX + ts;
    assert name[..|SNAPSHOT_PREFIX|] == SNAPSHOT_PREFIX;
    assert IsSnapshot(Entry(name, true));
    NewestIsKept(listing, keep, name);
    if name in Removed(listing, keep) {
      KeptAreNewer(listing, keep, name, name);
      StrLessIrreflexive(name);
    }
    assert name[0] != LATEST[0];
  }

  /** `_create_backup_snapshot_sync` on a directory listing. `listing` is
      the backup directory after the new snapshot was renamed into place,
      so it holds that snapshot; without a database directory holding
      `.db` files nothing happens. `undeletable` names the directories
      whose `rmtree` fails, which `ignore_errors=True` leaves in place.
      The result is the snapshot made (if any) and the listing after
      retention and the refresh of `latest`; the new snapshot survives
      whenever its name is the greatest. */
  method CreateBackupSnapshot(hasDbFiles: bool, listing: seq<Entry>, ts: string, keep: int, undeletable: set<string>)
    returns (snapshot: Option<string>, after: seq<Entry>)
    requires hasDbFiles ==> Entry(SNAPSHOT_PREFIX + ts, true) in listing
    ensures !hasDbFiles ==> snapshot.None? && after == listing
    ensures hasDbFiles ==> snapshot == Some(SNAPSHOT_PREFIX + ts)
    ensures hasDbFiles ==> forall e :: e in after <==>
      || (e in listing && (e.name !in Removed(listing, keep) || e.name in undeletable) && e.name != LATEST)
      || e == Entry(LATEST, true)
    ensures hasDbFiles && DistinctNames(listing)
            && (forall n :: n in Snapshots(listing) && n != SNAPSHOT_PREFIX + ts ==> StrLess(n, SNAPSHOT_PREFIX + ts)) ==>
      Entry(SNAPSHOT_PREFIX + ts, true) in after
  {
    if !hasDbFiles {
      return None, listing;
    }
    var remaining := RemoveDirs(listing, Removed(listing, keep), undeletable);
    after := WithoutName(remaining, LATEST) + [Entry(LATEST, true)];
    snapshot := Some(SNAPSHOT_PREFIX + ts);
    if DistinctNames(listing) && (forall n :: n in Snapshots(listing) && n != SNAPSHOT_PREFIX + ts ==> StrLess(n, SNAPSHOT_PREFIX + ts)) {
      NewSnapshotSurvives(listing, keep, ts);
    }
  }
}
