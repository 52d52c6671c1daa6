/** Cursors over changing sorted indexes: receipt paging and housekeeping laps
    (runner/allocation_usage.py) and cleanup retries (runner/node_guard.py).

    Canonical UUIDs and container names of one length compare like numbers, so an
    identity is a positive number and the empty cursor is 0. */
module Rotation {
  import opened Common

  type Id = i: int | 0 < i witness 1

  predicate Sorted(s: seq<Id>) {
    forall i, j :: 0 <= i < j < |s| ==> s[i] < s[j]
  }

  /** `bisect.bisect`: how many entries are at most x. */
  function Bisect(s: seq<Id>, x: nat): (n: nat)
    requires Sorted(s)
    ensures n <= |s|
    ensures forall i :: 0 <= i < n ==> s[i] <= x
    ensures forall i :: n <= i < |s| ==> x < s[i]
  {
    if s == [] || s[|s| - 1] <= x then |s| else Bisect(s[..|s| - 1], x)
  }

  /** `bisect.insort` of an identity that is not present yet. */
  function Insert(s: seq<Id>, x: Id): (r: seq<Id>)
    requires Sorted(s) && x !in s
    ensures Sorted(r)
    ensures forall y :: y in r <==> y == x || y in s
  {
    var n := Bisect(s, x);
    assert forall y :: y in s <==> y in s[..n] || y in s[n..] by { assert s == s[..n] + s[n..]; }
    s[..n] + [x] + s[n..]
  }

  /** Removal of one identity by its position, when it is there. */
  function Remove(s: seq<Id>, x: Id): (r: seq<Id>)
    requires Sorted(s)
    ensures Sorted(r)
    ensures forall y :: y in r <==> y != x && y in s
  {
    var n := Bisect(s, x);
    assert s == s[..n] + s[n..];
    if n > 0 && s[n - 1] == x then
      assert s == s[..n - 1] + [x] + s[n..];
      s[..n - 1] + s[n..]
    else
      assert x !in s[..n] && x !in s[n..];
      s
  }

  lemma SortedSnoc(s: seq<Id>, x: Id)
    requires Sorted(s) && s != []
    ensures var n := |s| - 1; x in s <==> x in s[..n] || x == s[n]
    ensures s[|s| - 1] !in s[..|s| - 1]
    ensures x in s ==> x <= s[|s| - 1]
  {
    assert s == s[..|s| - 1] + [s[|s| - 1]];
  }

  ghost predicate SameMembers(a: seq<Id>, b: seq<Id>) {
    forall x: Id :: x in a <==> x in b
  }

  lemma SameLast(a: seq<Id>, b: seq<Id>)
    requires Sorted(a) && Sorted(b) && a != [] && b != [] && SameMembers(a, b)
    ensures a[|a| - 1] == b[|b| - 1]
    ensures SameMembers(a[..|a| - 1], b[..|b| - 1])
  {
    var m, n := |a| - 1, |b| - 1;
    assert a[m] in b && b[n] in a;
    SortedSnoc(a, b[n]);
    SortedSnoc(b, a[m]);
    forall x: Id ensures x in a[..m] <==> x in b[..n] {
      SortedSnoc(a, x);
      SortedSnoc(b, x);
    }
  }

  /** A sorted index is determined by its members. */
  lemma {:induction false} SortedUnique(a: seq<Id>, b: seq<Id>)
    requires Sorted(a) && Sorted(b) && SameMembers(a, b)
    ensures a == b
  {
    assert (a != [] ==> a[0] in b) && (b != [] ==> b[0] in a);
    if a != [] {
      var m, n := |a| - 1, |b| - 1;
      SameLast(a, b);
      SortedUnique(a[..m], b[..n]);
      assert a == a[..m] + [a[m]] && b == b[..n] + [b[n]];
    }
  }

  // ---------- pages ----------

  function Page(index: seq<Id>, after: nat, limit: nat): (ids: seq<Id>)
    requires Sorted(index)
  {
    var offset := Bisect(index, after);
    index[offset..Min(offset + limit, |index|)]
  }

  /** The cursor of the next page; empty when this page was not full. */
  function NextAfter(ids: seq<Id>, limit: nat): (after: nat)
    requires limit > 0
  {
    if |ids| == limit then ids[|ids| - 1] else 0
  }

  ghost predicate AllSorted(indexes: seq<seq<Id>>) {
    forall i :: 0 <= i < |indexes| ==> Sorted(indexes[i])
  }

  /** The pages of one lap, each taken from the index as it then is, until a page
      is not full or no more pages are asked for. */
  ghost function Lap(indexes: seq<seq<Id>>, after: nat, limit: nat): (pages: seq<seq<Id>>)
    requires AllSorted(indexes) && limit > 0
    ensures |pages| <= |indexes|
  {
    if indexes == [] then []
    else
      var ids := Page(indexes[0], after, limit);
      var next := NextAfter(ids, limit);
      [ids] + if next == 0 then [] else Lap(indexes[1..], next, limit)
  }

  /** The lap runs to its end: one of its pages is not full. */
  ghost predicate Ended(indexes: seq<seq<Id>>, after: nat, limit: nat)
    requires AllSorted(indexes) && limit > 0
  {
    && indexes != []
    && var next := NextAfter(Page(indexes[0], after, limit), limit);
       next == 0 || Ended(indexes[1..], next, limit)
  }

  lemma PageFacts(index: seq<Id>, after: nat, limit: nat, x: Id)
    requires Sorted(index) && limit > 0
    ensures var ids := Page(index, after, limit);
            && Sorted(ids) && |ids| <= limit
            && (x in ids ==> x in index && after < x)
            && (x in index && after < x && (|ids| < limit || x <= NextAfter(ids, limit)) ==> x in ids)
            && (|ids| == limit ==> after < NextAfter(ids, limit) && (x in ids ==> x <= NextAfter(ids, limit)))
  {
    var ids := Page(index, after, limit);
    var offset := Bisect(index, after);
    if x in index && after < x {
      var i :| 0 <= i < |index| && index[i] == x;
      assert offset <= i;
      if i < offset + |ids| { assert ids[i - offset] == x; }
    }
  }

  /** No identity is given twice: a lap is strictly ascending. */
  lemma {:induction false} LapAscends(indexes: seq<seq<Id>>, after: nat, limit: nat)
    requires AllSorted(indexes) && limit > 0
    ensures Sorted(Concat(Lap(indexes, after, limit)))
    ensures forall x :: x in Concat(Lap(indexes, after, limit)) ==> after < x
  {
    if indexes != [] {
      var ids := Page(indexes[0], after, limit);
      var next := NextAfter(ids, limit);
      PageFacts(indexes[0], after, limit, 1);
      forall x: Id ensures x in ids ==> after < x && (next != 0 ==> x <= next) {
        PageFacts(indexes[0], after, limit, x);
      }
      var pages := Lap(indexes, after, limit);
      if next == 0 {
        assert Concat(pages) == ids + Concat(pages[1..]) && Concat(pages[1..]) == [];
        assert Concat(pages) == ids;
      } else {
        LapAscends(indexes[1..], next, limit);
        var rest := Concat(Lap(indexes[1..], next, limit));
        assert pages[1..] == Lap(indexes[1..], next, limit);
        assert Concat(pages) == ids + rest;
        forall i, j | 0 <= i < j < |ids + rest| ensures (ids + rest)[i] < (ids + rest)[j] {
          if i < |ids| <= j {
            assert (ids + rest)[i] in ids && (ids + rest)[j] in rest;
          }
        }
      }
    }
  }

  /** An identity that stays in the index while the lap runs is given. */
  lemma {:induction false} LapReaches(indexes: seq<seq<Id>>, after: nat, limit: nat, x: Id)
    requires AllSorted(indexes) && limit > 0 && after < x
    requires Ended(indexes, after, limit)
    requires forall i :: 0 <= i < |Lap(indexes, after, limit)| ==> x in indexes[i]
    ensures x in Concat(Lap(indexes, after, limit))
  {
    var pages := Lap(indexes, after, limit);
    var ids := Page(indexes[0], after, limit);
    var next := NextAfter(ids, limit);
    PageFacts(indexes[0], after, limit, x);
    assert x in indexes[0];
    assert Concat(pages) == ids + Concat(pages[1..]);
    if next != 0 && next < x {
      assert pages[1..] == Lap(indexes[1..], next, limit);
      forall i | 0 <= i < |pages[1..]| ensures x in indexes[1..][i] {
        assert x in indexes[i + 1];
      }
      LapReaches(indexes[1..], next, limit, x);
    }
  }

  /** Every identity that stays listed through a complete lap is given exactly
      once, and no identity at all is given twice: the lap is strictly ascending. */
  lemma LapExactlyOnce(indexes: seq<seq<Id>>, limit: nat, x: Id)
    requires AllSorted(indexes) && limit > 0 && Ended(indexes, 0, limit)
    ensures Sorted(Concat(Lap(indexes, 0, limit)))
    ensures (forall i :: 0 <= i < |Lap(indexes, 0, limit)| ==> x in indexes[i]) ==> x in Concat(Lap(indexes, 0, limit))
  {
    LapAscends(indexes, 0, limit);
    if forall i :: 0 <= i < |Lap(indexes, 0, limit)| ==> x in indexes[i] {
      LapReaches(indexes, 0, limit, x);
    }
  }

  // ---------- how long a lap can take ----------

  ghost function Members(s: seq<Id>): (ids: set<Id>) {
    set x | x in s
  }

  lemma {:induction false} SortedCount(s: seq<Id>)
    requires Sorted(s)
    ensures |Members(s)| == |s|
  {
    if s != [] {
      var n := |s| - 1;
      SortedCount(s[..n]);
      forall x: Id ensures x in Members(s) <==> x in Members(s[..n]) + {s[n]} { SortedSnoc(s, x); }
      assert Members(s) == Members(s[..n]) + {s[n]};
      SortedSnoc(s, s[n]);
    }
  }

  lemma SubsetSize(a: set<Id>, b: set<Id>)
    requires a <= b
    ensures |a| <= |b|
  {
    assert b == a + (b - a);
  }

  /** Every listed identity above the cursor is one of these. */
  ghost predicate Within(indexes: seq<seq<Id>>, after: nat, ids: set<Id>) {
    forall i, x :: 0 <= i < |indexes| && x in indexes[i] && after < x ==> x in ids
  }

  ghost function Above(ids: set<Id>, n: nat): (rest: set<Id>) {
    set x | x in ids && n < x
  }

  lemma FullPageUses(index: seq<Id>, after: nat, limit: nat, ids: set<Id>)
    requires Sorted(index) && limit > 0 && Within([index], after, ids)
    requires |Page(index, after, limit)| == limit
    ensures var next := NextAfter(Page(index, after, limit), limit);
            |Above(ids, next)| + limit <= |ids| && after < next
  {
    var page := Page(index, after, limit);
    var next := NextAfter(page, limit);
    PageFacts(index, after, limit, 1);
    forall x: Id | x in page ensures x in ids && after < x <= next {
      PageFacts(index, after, limit, x);
      assert x in [index][0];
    }
    var rest := Above(ids, next);
    SortedCount(page);
    assert Members(page) !! rest;
    SubsetSize(Members(page) + rest, ids);
    assert |Members(page) + rest| == limit + |rest|;
  }

  /** Full pages use up the identities above the cursor. */
  lemma {:induction false} LapMustEnd(indexes: seq<seq<Id>>, after: nat, limit: nat, ids: set<Id>)
    requires AllSorted(indexes) && limit > 0 && Within(indexes, after, ids)
    requires |indexes| * limit > |ids|
    ensures Ended(indexes, after, limit)
  {
    var page := Page(indexes[0], after, limit);
    PageFacts(indexes[0], after, limit, 1);
    if |page| == limit {
      var next := NextAfter(page, limit);
      assert [indexes[0]][0] == indexes[0];
      FullPageUses(indexes[0], after, limit, ids);
      var rest := Above(ids, next);
      forall i, x: Id | 0 <= i < |indexes[1..]| && x in indexes[1..][i] && next < x ensures x in rest {
        assert x in indexes[i + 1];
      }
      assert |indexes[1..]| * limit == |indexes| * limit - limit;
      LapMustEnd(indexes[1..], next, limit, rest);
    }
  }

  /** Laps look no further than their own pages. */
  lemma {:induction false} LapPrefix(indexes: seq<seq<Id>>, cursor: nat, limit: nat, n: nat)
    requires AllSorted(indexes) && limit > 0 && n <= |indexes|
    requires Ended(indexes[..n], cursor, limit)
    ensures Ended(indexes, cursor, limit) && |Lap(indexes, cursor, limit)| <= n
  {
    var next := NextAfter(Page(indexes[0], cursor, limit), limit);
    assert indexes[..n][0] == indexes[0];
    if next != 0 {
      assert indexes[..n][1..] == indexes[1..][..n - 1];
      LapPrefix(indexes[1..], next, limit, n - 1);
    }
  }

  // ---------- housekeeping: laps one after another, from any cursor ----------

  const HOUSEKEEPING_PAGE: nat := 16

  /** The identities each pass handles; the cursor starts again after a short pass. */
  ghost function Passes(indexes: seq<seq<Id>>, cursor: nat, limit: nat): (passes: seq<seq<Id>>)
    requires AllSorted(indexes) && limit > 0
    ensures |passes| == |indexes|
  {
    if indexes == [] then []
    else
      var ids := Page(indexes[0], cursor, limit);
      [ids] + Passes(indexes[1..], NextAfter(ids, limit), limit)
  }

  /** While a lap runs, the passes are its pages; then the cursor is empty again. */
  lemma {:induction false} PassesAreLap(indexes: seq<seq<Id>>, cursor: nat, limit: nat)
    requires AllSorted(indexes) && limit > 0 && Ended(indexes, cursor, limit)
    ensures var n := |Lap(indexes, cursor, limit)|;
            Passes(indexes, cursor, limit) == Lap(indexes, cursor, limit) + Passes(indexes[n..], 0, limit)
  {
    var ids := Page(indexes[0], cursor, limit);
    var next := NextAfter(ids, limit);
    if next == 0 {
      assert Lap(indexes, cursor, limit) == [ids];
    } else {
      var rest := indexes[1..];
      var later := Lap(rest, next, limit);
      PassesAreLap(rest, next, limit);
      assert indexes[|later| + 1..] == rest[|later|..];
      Regroup(ids, later, Passes(rest[|later|..], 0, limit));
    }
  }

  lemma Regroup(ids: seq<Id>, later: seq<seq<Id>>, tail: seq<seq<Id>>)
    ensures [ids] + (later + tail) == ([ids] + later) + tail && |[ids] + later| == |later| + 1
  {
  }

  /** Two laps' worth of passes handle every identity that stays watched, whatever
      the cursor was and whatever else is added or removed meanwhile. */
  lemma HousekeepingReaches(indexes: seq<seq<Id>>, cursor: nat, limit: nat, ids: set<Id>, x: Id)
    requires AllSorted(indexes) && limit > 0 && Within(indexes, 0, ids)
    requires forall i :: 0 <= i < |indexes| ==> x in indexes[i]
    requires |indexes| >= 2 * (|ids| / limit + 1)
    ensures exists i :: 0 <= i < |indexes| && x in Passes(indexes, cursor, limit)[i]
  {
    var n := FirstLap(indexes, cursor, limit, ids);
    var rest := indexes[n..];
    forall i | 0 <= i < |rest| ensures Sorted(rest[i]) && x in rest[i] { assert rest[i] == indexes[i + n]; }
    forall i, y: Id | 0 <= i < |rest| && y in rest[i] ensures y in ids { assert y in indexes[i + n]; }
    var j := FreshLapReaches(rest, limit, ids, x);
    assert Passes(indexes, cursor, limit)[n + j] == Passes(rest, 0, limit)[j];
  }

  /** A lap that starts with an empty cursor handles it. */
  lemma FreshLapReaches(indexes: seq<seq<Id>>, limit: nat, ids: set<Id>, x: Id) returns (j: nat)
    requires AllSorted(indexes) && limit > 0 && Within(indexes, 0, ids)
    requires forall i :: 0 <= i < |indexes| ==> x in indexes[i]
    requires |indexes| >= |ids| / limit + 1
    ensures j < |indexes| && x in Passes(indexes, 0, limit)[j]
  {
    var m := FirstLap(indexes, 0, limit, ids);
    LapReaches(indexes, 0, limit, x);
    ConcatMember(Lap(indexes, 0, limit), x);
    j :| 0 <= j < m && x in Lap(indexes, 0, limit)[j];
    assert Passes(indexes, 0, limit)[j] == Lap(indexes, 0, limit)[j];
  }

  /** From any cursor, one lap ends within |ids| / limit + 1 passes. */
  lemma FirstLap(indexes: seq<seq<Id>>, cursor: nat, limit: nat, ids: set<Id>) returns (n: nat)
    requires AllSorted(indexes) && limit > 0 && Within(indexes, 0, ids)
    requires |indexes| >= |ids| / limit + 1
    ensures n == |Lap(indexes, cursor, limit)| <= |ids| / limit + 1
    ensures Ended(indexes, cursor, limit)
    ensures Passes(indexes, cursor, limit) == Lap(indexes, cursor, limit) + Passes(indexes[n..], 0, limit)
  {
    var most := |ids| / limit + 1;
    DivBound(|ids|, limit);
    assert Within(indexes[..most], cursor, ids);
    LapMustEnd(indexes[..most], cursor, limit, ids);
    LapPrefix(indexes, cursor, limit, most);
    PassesAreLap(indexes, cursor, limit);
    n := |Lap(indexes, cursor, limit)|;
  }

  lemma DivBound(a: nat, b: nat)
    requires b > 0
    ensures (a / b + 1) * b > a
  {}

  lemma {:induction false} ConcatMember(pages: seq<seq<Id>>, x: Id)
    requires x in Concat(pages)
    ensures exists j :: 0 <= j < |pages| && x in pages[j]
  {
    if x !in pages[0] {
      ConcatMember(pages[1..], x);
      var j :| 0 <= j < |pages[1..]| && x in pages[1..][j];
      assert x in pages[j + 1];
    }
  }

  // ---------- cleanup retries over fixed obligations ----------

  /** The first obligation after the cursor, else the first of all. */
  function Pick(obligations: seq<Id>, cursor: nat): (x: Id)
    requires Sorted(obligations) && obligations != []
    ensures x in obligations
  {
    var n := Bisect(obligations, cursor);
    if n < |obligations| then obligations[n] else obligations[0]
  }

  ghost function Retries(obligations: seq<Id>, cursor: nat, count: nat): (picks: seq<Id>)
    requires Sorted(obligations) && obligations != []
    ensures |picks| == count
    decreases count
  {
    if count == 0 then []
    else
      var x := Pick(obligations, cursor);
      [x] + Retries(obligations, x, count - 1)
  }

  lemma BisectAt(s: seq<Id>, i: nat)
    requires Sorted(s) && i < |s|
    ensures Bisect(s, s[i]) == i + 1
  {
    assert i + 1 < |s| ==> s[i] < s[i + 1];
  }

  /** The k-th retry takes the obligation k places after the cursor, wrapping round. */
  lemma {:induction false} RetryAt(obligations: seq<Id>, cursor: nat, count: nat, k: nat)
    requires Sorted(obligations) && k < count <= |obligations|
    ensures var at := Bisect(obligations, cursor) + k;
            Retries(obligations, cursor, count)[k] ==
              obligations[if at < |obligations| then at else at - |obligations|]
    decreases count
  {
    var n := Bisect(obligations, cursor);
    var at := if n < |obligations| then n else 0;
    if k > 0 {
      BisectAt(obligations, at);
      RetryAt(obligations, obligations[at], count - 1, k - 1);
    }
  }

  lemma RetriesRotate(obligations: seq<Id>, cursor: nat)
    requires Sorted(obligations) && obligations != []
    ensures var n := Bisect(obligations, cursor);
            Retries(obligations, cursor, |obligations|) == obligations[n..] + obligations[..n]
  {
    var n := Bisect(obligations, cursor);
    var picks := Retries(obligations, cursor, |obligations|);
    forall k | 0 <= k < |obligations| ensures picks[k] == (obligations[n..] + obligations[..n])[k] {
      RetryAt(obligations, cursor, |obligations|, k);
    }
  }

  /** As many retries as there are obligations take each exactly once, from any cursor. */
  lemma RetriesTakeEachOnce(obligations: seq<Id>, cursor: nat)
    requires Sorted(obligations) && obligations != []
    ensures multiset(Retries(obligations, cursor, |obligations|)) == multiset(obligations)
  {
    var n := Bisect(obligations, cursor);
    RetriesRotate(obligations, cursor);
    assert obligations == obligations[..n] + obligations[n..];
  }
}
