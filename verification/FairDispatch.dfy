/**
 Choosing which due connectors to run (crates/collector/src/runner.rs): the fair order
 and the per-tick cap on retries of failing connectors.
 */
module FairDispatch {
  import opened Prelude
  import opened Backoff
  import opened Sorting

  /** Fewer failures first, then the most recent success, never-successful last, then the id. */
  predicate FairLe(a: Connector, b: Connector) {
    if a.errorCount != b.errorCount then a.errorCount < b.errorCount
    else if a.lastSuccess != b.lastSuccess then
      match (a.lastSuccess, b.lastSuccess)
      case (Some(x), Some(y)) => y < x
      case (Some(_), None) => true
      case (None, _) => false
    else a.id <= b.id
  }

  const fairLe: (Connector, Connector) -> bool := (a, b) => FairLe(a, b)

  lemma FairLeIsTotal()
    ensures TotalPreorder(fairLe)
  {
  }

  predicate Failing(c: Connector) {
    c.errorCount > 0
  }

  function CountFailing(s: seq<Connector>): nat {
    Count(Failing, s)
  }

  /** What the loop over the sorted list keeps and what it puts off, given `left` retry slots. */
  function Split(s: seq<Connector>, left: nat): (r: (seq<Connector>, seq<Connector>)) {
    if s == [] then ([], [])
    else if !Failing(s[0]) then
      var (keep, defer) := Split(s[1..], left); ([s[0]] + keep, defer)
    else if left == 0 then
      var (keep, defer) := Split(s[1..], 0); (keep, [s[0]] + defer)
    else
      var (keep, defer) := Split(s[1..], left - 1); ([s[0]] + keep, defer)
  }

  lemma {:induction false} SplitAppend(s: seq<Connector>, c: Connector, left: nat)
    ensures var (k, d) := Split(s, left);
            Split(s + [c], left) ==
              if Failing(c) && CountFailing(s) >= left then (k, d + [c]) else (k + [c], d)
    decreases |s|
  {
    if s == [] {
      assert s + [c] == [c] && [c][1..] == [];
      var none: seq<Connector> := [];
      assert Split(none, left) == (none, none) && [c] + none == none + [c] == [c];
    } else {
      SplitAppend(s[1..], c, if Failing(s[0]) && left > 0 then left - 1 else left);
      assert (s + [c])[1..] == s[1..] + [c];
      var (k, d) := Split(s[1..], if Failing(s[0]) && left > 0 then left - 1 else left);
      assert [s[0]] + (k + [c]) == [s[0]] + k + [c];
      assert [s[0]] + (d + [c]) == [s[0]] + d + [c];
    }
  }

  /** The specification of the whole choice. */
  function Chosen(due: seq<Connector>, maxRetry: nat): (seq<Connector>, seq<Connector>) {
    Split(Sort(fairLe, due), Max(maxRetry, 1))
  }

  /** Sorts, then walks the list with a retry counter. */
  method TakeFairDispatch(due: seq<Connector>, maxRetry: nat)
    returns (dispatch: seq<Connector>, deferred: seq<Connector>)
    ensures (dispatch, deferred) == Chosen(due, maxRetry)
  {
    var sorted := Sort(fairLe, due);
    var cap: nat := Max(maxRetry, 1);
    dispatch, deferred := [], [];
    var retries := 0;
    for i := 0 to |sorted|
      invariant (dispatch, deferred) == Split(sorted[..i], cap)
      invariant retries == Min(CountFailing(sorted[..i]), cap)
    {
      assert sorted[..i + 1] == sorted[..i] + [sorted[i]];
      SplitAppend(sorted[..i], sorted[i], cap);
      CountConcat(Failing, sorted[..i], [sorted[i]]);
      if sorted[i].errorCount > 0 {
        if retries >= cap {
          deferred := deferred + [sorted[i]];
          continue;
        }
        retries := retries + 1;
      }
      dispatch := dispatch + [sorted[i]];
    }
    assert sorted[..|sorted|] == sorted;
  }

  /** The retry slots left after looking at `c`. */
  function After(c: Connector, left: nat): nat {
    if Failing(c) && left > 0 then left - 1 else left
  }

  lemma {:induction false} SplitPartitions(s: seq<Connector>, left: nat)
    ensures multiset(Split(s, left).0) + multiset(Split(s, left).1) == multiset(s)
    decreases |s|
  {
    if s != [] {
      SplitPartitions(s[1..], After(s[0], left));
      assert s == [s[0]] + s[1..];
    }
  }

  lemma {:induction false} SplitCounts(s: seq<Connector>, left: nat)
    ensures CountFailing(Split(s, left).0) == Min(left, CountFailing(s))
    ensures forall c :: c in Split(s, left).1 ==> Failing(c)
    ensures left == 0 ==> forall c :: c in Split(s, left).0 ==> !Failing(c)
    decreases |s|
  {
    if s != [] {
      SplitCounts(s[1..], After(s[0], left));
      var (k, d) := Split(s[1..], After(s[0], left));
      assert ([s[0]] + k)[1..] == k;
    }
  }

  lemma {:induction false} SplitOrder(s: seq<Connector>, left: nat, c: Connector, d: Connector)
    requires Sorted(fairLe, s)
    requires c in Split(s, left).0 && d in Split(s, left).1 && Failing(c)
    ensures FairLe(c, d)
    decreases |s|
  {
    SplitPartitions(s, left);
    SplitCounts(s, left);
    var rest := After(s[0], left);
    if c in Split(s[1..], rest).0 && d in Split(s[1..], rest).1 {
      SplitOrder(s[1..], rest, c, d);
    } else if left > 0 {
      assert c == s[0];
      assert d in multiset(s);
      var i :| 0 <= i < |s| && s[i] == d;
      assert i > 0 ==> fairLe(s[0], s[i]);
    }
  }

  /** `d` has failed at least as often as `c` and, if equally often, has not succeeded more recently. */
  predicate NoBetterClaim(d: Connector, c: Connector) {
    && c.errorCount <= d.errorCount
    && (c.errorCount == d.errorCount && d.lastSuccess.Some? ==>
          c.lastSuccess.Some? && c.lastSuccess.value >= d.lastSuccess.value)
  }

  lemma {:induction false} SameCount(s: seq<Connector>)
    ensures CountFailing(s) == Count((c: Connector) => c.errorCount > 0, s)
  {
    if s != [] { SameCount(s[1..]); }
  }

  /**
   What fairness means: nobody is lost or duplicated, every healthy connector runs, the
   number of failing ones that run is exactly the smaller of the cap (at least 1) and how many
   there are, and only failing connectors that come later in the fair order are put off: no
   deferred connector had fewer failures, or as many and a more recent success.
   */
  lemma DispatchIsFair(due: seq<Connector>, maxRetry: nat)
    ensures var (keep, defer) := Chosen(due, maxRetry);
            && multiset(keep) + multiset(defer) == multiset(due)
            && CountFailing(keep) == Min(Max(maxRetry, 1), CountFailing(due))
            && Count((c: Connector) => c.errorCount > 0, keep)
                 == Min(Max(maxRetry, 1), Count((c: Connector) => c.errorCount > 0, due))
            && (forall c :: c in due && c.errorCount <= 0 ==> c in keep)
            && (forall c :: c in defer ==> c.errorCount > 0)
            && (forall c, d :: c in keep && d in defer && Failing(c) ==> FairLe(c, d) && NoBetterClaim(d, c))
  {
    var sorted := Sort(fairLe, due);
    FairLeIsTotal();
    SortSorts(fairLe, due);
    SortPermutes(fairLe, due);
    SplitPartitions(sorted, Max(maxRetry, 1));
    SplitCounts(sorted, Max(maxRetry, 1));
    CountPermutation(Failing, sorted, due);
    SameCount(Split(sorted, Max(maxRetry, 1)).0);
    SameCount(due);
    var (keep, defer) := Chosen(due, maxRetry);
    forall c, d | c in keep && d in defer && Failing(c) ensures FairLe(c, d) && NoBetterClaim(d, c) {
      SplitOrder(sorted, Max(maxRetry, 1), c, d);
    }
    forall c | c in due && !Failing(c) ensures c in keep {
      assert c in multiset(due);
      assert c in multiset(keep) + multiset(defer);
    }
  }

  /** Fewer failures; if equal, a success and the more recent one; if equal, the smaller id. */
  predicate Before(a: Connector, b: Connector) {
    || a.errorCount < b.errorCount
    || (a.errorCount == b.errorCount
        && (|| (a.lastSuccess.Some? && (b.lastSuccess.None? || b.lastSuccess.value < a.lastSuccess.value))
            || (a.lastSuccess == b.lastSuccess && a.id <= b.id)))
  }

  lemma {:induction false} SplitSorted(s: seq<Connector>, left: nat)
    requires Sorted(fairLe, s)
    ensures Sorted(fairLe, Split(s, left).0) && Sorted(fairLe, Split(s, left).1)
    decreases |s|
  {
    if s != [] {
      var rest := After(s[0], left);
      SplitSorted(s[1..], rest);
      SplitPartitions(s[1..], rest);
      var (k, d) := Split(s[1..], rest);
      forall x | x in k || x in d ensures fairLe(s[0], x) {
        assert x in multiset(s[1..]);
        var i :| 0 <= i < |s[1..]| && s[1..][i] == x;
        assert fairLe(s[0], s[i + 1]);
      }
    }
  }

  /** Both lists are in the fair order, first things first. */
  lemma ListsAreInOrder(due: seq<Connector>, maxRetry: nat)
    ensures var (keep, defer) := Chosen(due, maxRetry);
            && (forall i, j :: 0 <= i < j < |keep| ==> Before(keep[i], keep[j]))
            && (forall i, j :: 0 <= i < j < |defer| ==> Before(defer[i], defer[j]))
  {
    FairLeIsTotal();
    SortSorts(fairLe, due);
    SplitSorted(Sort(fairLe, due), Max(maxRetry, 1));
    var (keep, defer) := Chosen(due, maxRetry);
    forall i, j | 0 <= i < j < |keep| ensures Before(keep[i], keep[j]) { assert fairLe(keep[i], keep[j]); }
    forall i, j | 0 <= i < j < |defer| ensures Before(defer[i], defer[j]) { assert fairLe(defer[i], defer[j]); }
  }

  /** With distinct identifiers the choice does not depend on the order the store returned. */
  lemma DispatchIgnoresInputOrder(a: seq<Connector>, b: seq<Connector>, maxRetry: nat)
    requires multiset(a) == multiset(b)
    requires forall x, y :: x in a && y in a && x.id == y.id ==> x == y
    ensures Chosen(a, maxRetry) == Chosen(b, maxRetry)
  {
    FairLeIsTotal();
    SortSorts(fairLe, a);
    SortSorts(fairLe, b);
    SortPermutes(fairLe, a);
    SortPermutes(fairLe, b);
    var sa, sb := Sort(fairLe, a), Sort(fairLe, b);
    forall x, y | x in sa && y in sa && fairLe(x, y) && fairLe(y, x) ensures x == y {
      assert x in multiset(a) && y in multiset(a);
    }
    SortedUnique(fairLe, sa, sb);
  }
}
