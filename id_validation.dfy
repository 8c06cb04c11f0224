/** The core-id check of the construction loop (src/lib.rs:116-150), stated over the ids in
    the order the loop visits them, and what it means once the ids are sorted. */
module IdValidation {
  import opened Types
  import opened Errors

  /** The error the loop reports when the core after `previous` has id `got`: the message
      names the expected, found and previous ids, except when no core has been accepted yet
      (`previous == -1`). */
  function IdSequenceError(previous: int, got: int): (e: ManycoreError)
    ensures e.CoreIdSequence?
    ensures e.detail.Some? <==> previous > -1
    ensures e.detail.Some? ==> e.detail.value == IdDetail(previous + 1, got, previous)
  {
    CoreIdSequence(if previous > -1 then Some(IdDetail(previous + 1, got, previous)) else None)
  }

  /** The loop's check from index `i` on, where the tracker holds `i - 1`: the first core whose
      id does not exceed the tracker by exactly one stops the loop. */
  function CheckIdsFrom(ids: seq<int>, i: nat): (r: Option<ManycoreError>)
    requires i <= |ids|
    ensures r.Some? ==> r.value.CoreIdSequence?
    decreases |ids| - i
  {
    if i == |ids| then None
    else
      var previous := i - 1;
      if ids[i] - previous != 1 then Some(IdSequenceError(previous, ids[i]))
      else CheckIdsFrom(ids, i + 1)
  }

  function CheckIds(ids: seq<int>): (r: Option<ManycoreError>)
    ensures r.Some? ==> r.value.CoreIdSequence?
  {
    CheckIdsFrom(ids, 0)
  }

  /** The identity sequence `0, 1, ..., n - 1`. */
  function Range(n: nat): (r: seq<int>)
    ensures |r| == n && forall k :: 0 <= k < n ==> r[k] == k
  {
    seq(n, k => k)
  }

  predicate Sorted(ids: seq<int>) {
    forall i, j :: 0 <= i < j < |ids| ==> ids[i] <= ids[j]
  }

  lemma {:induction false} CheckIdsFromAccepts(ids: seq<int>, i: nat)
    requires i <= |ids|
    ensures CheckIdsFrom(ids, i) == None <==> forall k :: i <= k < |ids| ==> ids[k] == k
    decreases |ids| - i
  {
    if i < |ids| {
      CheckIdsFromAccepts(ids, i + 1);
    }
  }

  /** The check passes exactly when every core's id is its index. */
  lemma CheckIdsAccepts(ids: seq<int>)
    ensures CheckIds(ids) == None <==> forall k :: 0 <= k < |ids| ==> ids[k] == k
  {
    CheckIdsFromAccepts(ids, 0);
  }

  lemma {:induction false} CheckIdsFromReports(ids: seq<int>, i: nat, k: nat)
    requires i <= k < |ids|
    requires forall j :: i <= j < k ==> ids[j] == j
    requires ids[k] != k
    ensures CheckIdsFrom(ids, i) == Some(IdSequenceError(k - 1, ids[k]))
    decreases k - i
  {
    if i < k {
      CheckIdsFromReports(ids, i + 1, k);
    }
  }

  /** Fail fast: the check reports the first index whose id is wrong, naming that index as the
      expected id, the id found there and the index before it as the previous id. */
  lemma CheckIdsReportsFirst(ids: seq<int>, k: nat)
    requires k < |ids|
    requires forall j :: 0 <= j < k ==> ids[j] == j
    requires ids[k] != k
    ensures CheckIds(ids) == Some(IdSequenceError(k - 1, ids[k]))
  {
    CheckIdsFromReports(ids, 0, k);
  }

  lemma {:induction false} CheckIdsFromFirstViolation(ids: seq<int>, i: nat)
    requires i <= |ids|
    requires CheckIdsFrom(ids, i).Some?
    ensures exists k :: i <= k < |ids| && ids[k] != k && (forall j :: i <= j < k ==> ids[j] == j)
                        && CheckIdsFrom(ids, i) == Some(IdSequenceError(k - 1, ids[k]))
    decreases |ids| - i
  {
    if ids[i] - (i - 1) == 1 {
      CheckIdsFromFirstViolation(ids, i + 1);
      var k :| i + 1 <= k < |ids| && ids[k] != k && (forall j :: i + 1 <= j < k ==> ids[j] == j)
               && CheckIdsFrom(ids, i + 1) == Some(IdSequenceError(k - 1, ids[k]));
      assert forall j :: i <= j < k ==> ids[j] == j;
    }
  }

  /** On sorted ids every failure is a repeat (the id found equals the previous one) or a gap
      (it exceeds the expected one); a failure without detail means the smallest id is not 0. */
  lemma SortedViolationIsRepeatOrGap(ids: seq<int>)
    requires Sorted(ids)
    requires CheckIds(ids).Some?
    ensures CheckIds(ids).value.CoreIdSequence?
    ensures match CheckIds(ids).value.detail
            case Some(d) => d.got == d.previous || d.got > d.expected
            case None => |ids| > 0 && ids[0] != 0
  {
    CheckIdsFromFirstViolation(ids, 0);
    var k :| 0 <= k < |ids| && ids[k] != k && (forall j :: 0 <= j < k ==> ids[j] == j)
             && CheckIds(ids) == Some(IdSequenceError(k - 1, ids[k]));
    if k > 0 {
      assert ids[k - 1] == k - 1 <= ids[k];
    }
  }

  lemma SortedHeadIsLeast(s: seq<int>, x: int)
    requires Sorted(s) && x in multiset(s)
    ensures s[0] <= x
  {
    var j :| 0 <= j < |s| && s[j] == x;
  }

  lemma MultisetTail(s: seq<int>)
    requires |s| > 0
    ensures multiset(s[1..]) == multiset(s) - multiset{s[0]}
  {
    assert s == [s[0]] + s[1..];
  }

  lemma SortedTail(s: seq<int>)
    requires |s| > 0 && Sorted(s)
    ensures Sorted(s[1..])
  {
  }

  lemma SortedSameHead(s: seq<int>, t: seq<int>)
    requires |s| > 0 && |t| > 0
    requires Sorted(s) && Sorted(t) && multiset(s) == multiset(t)
    ensures s[0] == t[0]
  {
    assert t[0] in multiset(t);
    SortedHeadIsLeast(s, t[0]);
    assert s[0] in multiset(s);
    SortedHeadIsLeast(t, s[0]);
  }

  lemma SortedSameTails(s: seq<int>, t: seq<int>)
    requires |s| > 0 && |t| > 0
    requires Sorted(s) && Sorted(t) && multiset(s) == multiset(t)
    ensures Sorted(s[1..]) && Sorted(t[1..]) && multiset(s[1..]) == multiset(t[1..])
  {
    SortedSameHead(s, t);
    MultisetTail(s);
    MultisetTail(t);
    SortedTail(s);
    SortedTail(t);
  }

  /** Two sorted sequences holding the same multiset of ids are equal. */
  lemma {:induction false} SortedUnique(s: seq<int>, t: seq<int>)
    requires Sorted(s) && Sorted(t) && multiset(s) == multiset(t)
    ensures s == t
    decreases |s|
  {
    assert |s| == |multiset(s)| == |multiset(t)| == |t|;
    if |s| > 0 {
      SortedSameHead(s, t);
      SortedSameTails(s, t);
      SortedUnique(s[1..], t[1..]);
      assert s == [s[0]] + s[1..] && t == [t[0]] + t[1..];
    }
  }

  /** Once the ids are sorted, the check passes exactly when they are a permutation of
      `0, 1, ..., n - 1`: every id in range and none repeated, whatever order they came in. */
  lemma SortedAcceptedIffPermutation(ids: seq<int>)
    requires Sorted(ids)
    ensures CheckIds(ids) == None <==> multiset(ids) == multiset(Range(|ids|))
  {
    CheckIdsAccepts(ids);
    if multiset(ids) == multiset(Range(|ids|)) {
      SortedUnique(ids, Range(|ids|));
    } else {
      assert ids != Range(|ids|);
    }
  }

  /** Ids 0, 1, 3: the check expects 2, meets 3, and names 1 as the previous id. */
  lemma GapAfterOne()
    ensures CheckIds([0, 1, 3]) == Some(CoreIdSequence(Some(IdDetail(2, 3, 1))))
  {
    CheckIdsReportsFirst([0, 1, 3], 2);
  }
}
