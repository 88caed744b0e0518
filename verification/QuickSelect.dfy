/** The k-th smallest of an array, and what it says about majorities. */
module Selection {

  // ---- Specification: the k-th element of the sorted sequence --------------

  function Insert(x: int, s: seq<int>): seq<int> {
    if s == [] || x <= s[0] then [x] + s else [s[0]] + Insert(x, s[1..])
  }

  function Sort(s: seq<int>): (r: seq<int>)
    ensures |r| == |s|
  {
    if s == [] then [] else InsertLength(s[0], Sort(s[1..])); Insert(s[0], Sort(s[1..]))
  }

  lemma {:induction false} InsertLength(x: int, s: seq<int>)
    ensures |Insert(x, s)| == |s| + 1
  {
    if s != [] && x > s[0] { InsertLength(x, s[1..]); }
  }

  function KthSmallest(s: seq<int>, k: nat): int
    requires k < |s|
  {
    Sort(s)[k]
  }

  ghost predicate Sorted(s: seq<int>) {
    forall i, j | 0 <= i <= j < |s| :: s[i] <= s[j]
  }

  lemma {:induction false} InsertSorted(x: int, s: seq<int>)
    requires Sorted(s)
    ensures Sorted(Insert(x, s))
    ensures Insert(x, s)[0] == if s == [] || x <= s[0] then x else s[0]
  {
    if s != [] && x > s[0] { InsertSorted(x, s[1..]); }
  }

  lemma {:induction false} SortSorted(s: seq<int>)
    ensures Sorted(Sort(s))
  {
    if s != [] {
      SortSorted(s[1..]);
      InsertSorted(s[0], Sort(s[1..]));
    }
  }

  // ---- Counting ------------------------------------------------------------

  /** How many elements are below b. */
  function Below(s: seq<int>, b: int): nat {
    if s == [] then 0 else (if s[0] < b then 1 else 0) + Below(s[1..], b)
  }

  lemma {:induction false} BelowSplit(s: seq<int>, t: seq<int>, b: int)
    ensures Below(s + t, b) == Below(s, b) + Below(t, b)
  {
    if s == [] {
      assert s + t == t;
    } else {
      assert (s + t)[1..] == s[1..] + t;
      BelowSplit(s[1..], t, b);
    }
  }

  lemma {:induction false} BelowAll(s: seq<int>, b: int)
    ensures Below(s, b) <= |s|
    ensures (forall i | 0 <= i < |s| :: s[i] < b) ==> Below(s, b) == |s|
    ensures (forall i | 0 <= i < |s| :: s[i] >= b) ==> Below(s, b) == 0
  {
    if s != [] { BelowAll(s[1..], b); }
  }

  lemma BelowRemove(t: seq<int>, i: nat, b: int)
    requires i < |t|
    ensures Below(t, b) == Below(t[..i] + t[i + 1..], b) + (if t[i] < b then 1 else 0)
  {
    var u, w := t[..i], t[i..];
    assert t == u + w;
    BelowSplit(u, w, b);
    BelowSplit(u, w[1..], b);
    assert w[1..] == t[i + 1..];
  }

  lemma RemoveMultiset(t: seq<int>, i: nat)
    requires i < |t|
    ensures multiset(t[..i] + t[i + 1..]) == multiset(t) - multiset{t[i]}
  {
    assert t == t[..i] + [t[i]] + t[i + 1..];
  }

  lemma {:induction false} BelowPermuted(s: seq<int>, t: seq<int>, b: int)
    requires multiset(s) == multiset(t)
    ensures Below(s, b) == Below(t, b)
  {
    if s == [] {
      assert |multiset(t)| == |t|;
    } else {
      assert s[0] in multiset(t);
      var i :| 0 <= i < |t| && t[i] == s[0];
      RemoveMultiset(s, 0);
      RemoveMultiset(t, i);
      assert s[..0] + s[1..] == s[1..];
      BelowRemove(t, i, b);
      BelowPermuted(s[1..], t[..i] + t[i + 1..], b);
    }
  }

  lemma {:induction false} InsertPermutes(x: int, s: seq<int>)
    ensures multiset(Insert(x, s)) == multiset{x} + multiset(s)
  {
    if s != [] && x > s[0] {
      InsertPermutes(x, s[1..]);
      assert s == [s[0]] + s[1..];
    }
  }

  lemma {:induction false} SortPermutes(s: seq<int>)
    ensures multiset(Sort(s)) == multiset(s)
  {
    if s != [] {
      SortPermutes(s[1..]);
      InsertPermutes(s[0], Sort(s[1..]));
      assert s == [s[0]] + s[1..];
    }
  }

  /** r has at most k elements below it and more than k at or below it. */
  ghost predicate HasRank(s: seq<int>, k: nat, r: int) {
    Below(s, r) <= k < Below(s, r + 1)
  }

  lemma {:induction false} BelowMonotone(s: seq<int>, a: int, b: int)
    requires a <= b
    ensures Below(s, a) <= Below(s, b)
  {
    if s != [] { BelowMonotone(s[1..], a, b); }
  }

  lemma RankUnique(s: seq<int>, k: nat, a: int, b: int)
    requires HasRank(s, k, a) && HasRank(s, k, b)
    ensures a == b
  {
    if a < b { BelowMonotone(s, a + 1, b); }
    if b < a { BelowMonotone(s, b + 1, a); }
  }

  /** An element with smaller ones before it and greater ones after it. */
  lemma SplitRank(s: seq<int>, k: nat)
    requires k < |s|
    requires forall i | 0 <= i < k :: s[i] <= s[k]
    requires forall i | k < i < |s| :: s[k] <= s[i]
    ensures HasRank(s, k, s[k])
  {
    var r := s[k];
    assert s == s[..k] + s[k..];
    BelowSplit(s[..k], s[k..], r);
    BelowAll(s[..k], r);
    BelowAll(s[k..], r);
    assert s == s[..k + 1] + s[k + 1..];
    BelowSplit(s[..k + 1], s[k + 1..], r + 1);
    BelowAll(s[..k + 1], r + 1);
  }

  lemma KthRank(s: seq<int>, k: nat)
    requires k < |s|
    ensures HasRank(s, k, KthSmallest(s, k))
  {
    SortSorted(s);
    SplitRank(Sort(s), k);
    SortPermutes(s);
    BelowPermuted(Sort(s), s, KthSmallest(s, k));
    BelowPermuted(Sort(s), s, KthSmallest(s, k) + 1);
  }

  // ---- Majorities ----------------------------------------------------------

  /** The positions whose value reaches x. */
  function Reach(s: seq<int>, x: int): set<nat> {
    set p: nat | p < |s| && s[p] >= x
  }

  lemma {:induction false} ReachSize(s: seq<int>, x: int)
    ensures |Reach(s, x)| == |s| - Below(s, x)
  {
    if s == [] {
      assert Reach(s, x) == {};
    } else {
      var n := |s| - 1;
      var t := s[..n];
      ReachSize(t, x);
      assert s == t + [s[n]];
      BelowSplit(t, [s[n]], x);
      assert Below([s[n]], x) == if s[n] < x then 1 else 0;
      if s[n] >= x {
        assert Reach(s, x) == Reach(t, x) + {n};
      } else {
        assert Reach(s, x) == Reach(t, x);
      }
    }
  }

  /** The rank used by a leader of n peers. */
  function MajorityRank(n: nat): nat
    requires n >= 1
  {
    n - (n / 2 + 1)
  }

  /** The value selected is the greatest that a majority of positions reach. */
  lemma MajorityReaches(s: seq<int>, x: int)
    requires |s| >= 1
    ensures 2 * |Reach(s, x)| > |s| <==> x <= KthSmallest(s, MajorityRank(|s|))
  {
    var k := MajorityRank(|s|);
    var r := KthSmallest(s, k);
    KthRank(s, k);
    ReachSize(s, x);
    if x <= r { BelowMonotone(s, x, r); } else { BelowMonotone(s, r + 1, x); }
  }

  // ---- The in-place algorithm ----------------------------------------------

  method Swap(a: array<int>, i: nat, j: nat)
    requires i < a.Length && j < a.Length
    modifies a
    ensures a[i] == old(a[j]) && a[j] == old(a[i])
    ensures forall p | 0 <= p < a.Length && p != i && p != j :: a[p] == old(a[p])
    ensures multiset(a[..]) == multiset(old(a[..]))
  {
    a[i], a[j] := a[j], a[i];
  }

  ghost predicate Between(a: array<int>, left: int, right: int, lo: int, hi: int)
    requires 0 <= left && right < a.Length
    reads a
  {
    forall p | left <= p <= right :: lo <= a[p] <= hi
  }

  /** Lomuto partition around the middle element. */
  method Partition(a: array<int>, left: nat, right: nat, ghost lo: int, ghost hi: int)
    returns (i: nat)
    requires left < right < a.Length && Between(a, left, right, lo, hi)
    modifies a
    ensures left <= i <= right && Between(a, left, right, lo, hi)
    ensures forall p | left <= p < i :: a[p] <= a[i]
    ensures forall p | i < p <= right :: a[i] <= a[p]
    ensures forall p | 0 <= p < left || right < p < a.Length :: a[p] == old(a[p])
    ensures multiset(a[..]) == multiset(old(a[..]))
  {
    var idx := (left + right) / 2;
    var pivot := a[idx];
    Swap(a, idx, right);
    i := left;
    var j := left;
    while j < right
      invariant left <= i <= j <= right
      invariant a[right] == pivot && Between(a, left, right, lo, hi)
      invariant forall p | left <= p < i :: a[p] < pivot
      invariant forall p | i <= p < j :: a[p] >= pivot
      invariant forall p | 0 <= p < left || right < p < a.Length :: a[p] == old(a[p])
      invariant multiset(a[..]) == multiset(old(a[..]))
    {
      if a[j] < pivot {
        Swap(a, i, j);
        i := i + 1;
      }
      j := j + 1;
    }
    Swap(a, i, right);
  }

  /** Permutes the array and returns its k-th smallest element. */
  method QuickSelect(a: array<int>, k: nat) returns (r: int)
    requires k < a.Length
    modifies a
    ensures multiset(a[..]) == multiset(old(a[..]))
    ensures r == KthSmallest(old(a[..]), k)
  {
    ghost var before := a[..];
    var left, right := 0, a.Length - 1;
    ghost var lo, hi := Bounds(a[..]);
    while left != right
      invariant 0 <= left <= k <= right < a.Length
      invariant Between(a, left, right, lo, hi)
      invariant forall p | 0 <= p < left :: a[p] <= lo
      invariant forall p | right < p < a.Length :: hi <= a[p]
      invariant multiset(a[..]) == multiset(before)
      decreases right - left
    {
      var i := Partition(a, left, right, lo, hi);
      if k == i {
        Chosen(a[..], before, k);
        return a[i];
      } else if k < i {
        right, hi := i - 1, a[i];
      } else {
        left, lo := i + 1, a[i];
      }
    }
    Chosen(a[..], before, k);
    return a[left];
  }

  lemma Chosen(s: seq<int>, t: seq<int>, k: nat)
    requires k < |s| && multiset(s) == multiset(t) && |s| == |t|
    requires forall i | 0 <= i < k :: s[i] <= s[k]
    requires forall i | k < i < |s| :: s[k] <= s[i]
    ensures s[k] == KthSmallest(t, k)
  {
    SplitRank(s, k);
    BelowPermuted(s, t, s[k]);
    BelowPermuted(s, t, s[k] + 1);
    KthRank(t, k);
    RankUnique(t, k, s[k], KthSmallest(t, k));
  }

  lemma {:induction false} Bounds(s: seq<int>) returns (lo: int, hi: int)
    ensures forall i | 0 <= i < |s| :: lo <= s[i] <= hi
  {
    if s == [] {
      lo, hi := 0, 0;
    } else {
      lo, hi := Bounds(s[1..]);
      assert forall i | 1 <= i < |s| :: s[i] == s[1..][i - 1];
      lo := if s[0] < lo then s[0] else lo;
      hi := if s[0] > hi then s[0] else hi;
    }
  }
}
