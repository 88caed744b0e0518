/** How shards are spread over replica groups. */
module Balance {

  /** How many shards a group has. */
  function Count(shards: seq<int>, g: int): (n: nat)
    ensures n <= |shards|
  {
    if shards == [] then 0
    else Count(shards[..|shards| - 1], g) + (if shards[|shards| - 1] == g then 1 else 0)
  }

  /** The most heavily loaded group, the smallest number among equals. */
  ghost predicate Most(shards: seq<int>, groups: set<int>, g: int) {
    g in groups && forall h | h in groups ::
      Count(shards, h) < Count(shards, g) || (Count(shards, h) == Count(shards, g) && g <= h)
  }

  ghost predicate Least(shards: seq<int>, groups: set<int>, g: int) {
    g in groups && forall h | h in groups ::
      Count(shards, h) > Count(shards, g) || (Count(shards, h) == Count(shards, g) && g <= h)
  }

  lemma {:induction false} SomeLeast(shards: seq<int>, groups: set<int>)
    requires groups != {}
    ensures exists g :: Least(shards, groups, g)
  {
    assert (forall x :: x !in groups) ==> groups == {};
    var x :| x in groups;
    if groups == {x} {
      assert Least(shards, groups, x);
    } else {
      SomeLeast(shards, groups - {x});
      var h :| Least(shards, groups - {x}, h);
      var g := if Count(shards, x) < Count(shards, h) || (Count(shards, x) == Count(shards, h) && x <= h)
               then x else h;
      assert Least(shards, groups, g);
    }
  }

  lemma {:induction false} SomeMost(shards: seq<int>, groups: set<int>)
    requires groups != {}
    ensures exists g :: Most(shards, groups, g)
  {
    assert (forall x :: x !in groups) ==> groups == {};
    var x :| x in groups;
    if groups == {x} {
      assert Most(shards, groups, x);
    } else {
      SomeMost(shards, groups - {x});
      var h :| Most(shards, groups - {x}, h);
      var g := if Count(shards, x) > Count(shards, h) || (Count(shards, x) == Count(shards, h) && x <= h)
               then x else h;
      assert Most(shards, groups, g);
    }
  }

  ghost function LeastOf(shards: seq<int>, groups: set<int>): (g: int)
    requires groups != {}
    ensures Least(shards, groups, g)
  {
    SomeLeast(shards, groups);
    var g :| Least(shards, groups, g);
    g
  }

  ghost function MostOf(shards: seq<int>, groups: set<int>): (g: int)
    requires groups != {}
    ensures Most(shards, groups, g)
  {
    SomeMost(shards, groups);
    var g :| Most(shards, groups, g);
    g
  }

  // ---- The two phases ------------------------------------------------------

  /** From s on, a shard of no member goes to the group with least at the time. */
  ghost function Assign(shards: seq<int>, groups: set<int>, s: nat): (r: seq<int>)
    requires groups != {} && s <= |shards|
    ensures |r| == |shards|
    decreases |shards| - s
  {
    if s == |shards| then shards
    else if shards[s] in groups then Assign(shards, groups, s + 1)
    else Assign(shards[s := LeastOf(shards, groups)], groups, s + 1)
  }

  /** The first shard of group g. */
  function FirstOf(shards: seq<int>, g: int): (s: nat)
    requires g in shards
    ensures s < |shards| && shards[s] == g && g !in shards[..s]
  {
    if shards[0] == g then 0 else 1 + FirstOf(shards[1..], g)
  }

  lemma {:induction false} FirstUnique(shards: seq<int>, g: int, s: nat)
    requires s < |shards| && shards[s] == g && g !in shards[..s]
    ensures FirstOf(shards, g) == s
  {
    if s > 0 {
      assert shards[0] == shards[..s][0] && shards[1..][..s - 1] == shards[..s][1..];
      FirstUnique(shards[1..], g, s - 1);
    }
  }

  ghost predicate Even(shards: seq<int>, groups: set<int>)
    requires groups != {}
  {
    Count(shards, MostOf(shards, groups)) < Count(shards, LeastOf(shards, groups)) + 2
  }

  /** One shard from the most to the least loaded group. */
  ghost function Shift(shards: seq<int>, groups: set<int>): (r: seq<int>)
    requires groups != {} && !Even(shards, groups)
    ensures |r| == |shards|
  {
    var mg := MostOf(shards, groups);
    Counted(shards, mg);
    shards[FirstOf(shards, mg) := LeastOf(shards, groups)]
  }

  ghost function Level(shards: seq<int>, groups: set<int>): (r: seq<int>)
    requires groups != {}
    ensures |r| == |shards|
    decreases Squares(shards, Listing(groups))
  {
    if Even(shards, groups) then shards
    else
      ShiftLowers(shards, groups);
      Level(Shift(shards, groups), groups)
  }

  ghost function Rebalanced(shards: seq<int>, groups: set<int>): (r: seq<int>)
    ensures |r| == |shards|
  {
    if groups == {} then seq(|shards|, _ => 0)
    else Level(Assign(shards, groups, 0), groups)
  }

  // ---- Counting ------------------------------------------------------------

  lemma {:induction false} Counted(shards: seq<int>, g: int)
    ensures Count(shards, g) > 0 <==> g in shards
  {
    if shards != [] {
      var n := |shards| - 1;
      Counted(shards[..n], g);
      assert shards == shards[..n] + [shards[n]];
    }
  }

  lemma {:induction false} CountUpdate(shards: seq<int>, s: nat, to: int, g: int)
    requires s < |shards|
    ensures Count(shards[s := to], g) ==
            Count(shards, g) - (if shards[s] == g then 1 else 0) + (if to == g then 1 else 0)
  {
    var n := |shards| - 1;
    if s < n {
      CountUpdate(shards[..n], s, to, g);
      assert shards[s := to][..n] == shards[..n][s := to];
    } else {
      assert shards[s := to][..n] == shards[..n];
    }
  }

  // ---- Termination: the sum of squared loads falls -------------------------

  ghost predicate Lists(gs: seq<int>, groups: set<int>) {
    && (forall g :: g in gs <==> g in groups)
    && (forall i, j | 0 <= i < j < |gs| :: gs[i] != gs[j])
  }

  ghost function Listing(groups: set<int>): (gs: seq<int>)
    ensures Lists(gs, groups)
  {
    if groups == {} then []
    else
      assert (forall x :: x !in groups) ==> groups == {};
      var x :| x in groups;
      Listing(groups - {x}) + [x]
  }

  function Squares(shards: seq<int>, gs: seq<int>): nat {
    if gs == [] then 0
    else Squares(shards, gs[..|gs| - 1]) + Square(Count(shards, gs[|gs| - 1]))
  }

  function Square(n: nat): nat {
    n * n
  }

  lemma SquareNext(n: nat)
    ensures Square(n + 1) == Square(n) + 2 * n + 1
  {
  }

  /** The effect of a new load on each group of a list. */
  lemma {:induction false} SquaresMove(shards: seq<int>, s: nat, to: int, gs: seq<int>)
    requires s < |shards| && shards[s] != to
    requires forall i, j | 0 <= i < j < |gs| :: gs[i] != gs[j]
    ensures var a, b := Count(shards, shards[s]), Count(shards, to);
            Squares(shards[s := to], gs) == Squares(shards, gs)
              - (if shards[s] in gs then 2 * a - 1 else 0) + (if to in gs then 2 * b + 1 else 0)
  {
    hide Square, Count;
    if gs != [] {
      var n := |gs| - 1;
      var g := gs[n];
      SquaresMove(shards, s, to, gs[..n]);
      CountUpdate(shards, s, to, g);
      assert gs == gs[..n] + [g];
      if g == to { SquareNext(Count(shards, g)); }
      if g == shards[s] { SquareNext(Count(shards[s := to], g)); }
    }
  }

  lemma ShiftLowers(shards: seq<int>, groups: set<int>)
    requires groups != {} && !Even(shards, groups)
    ensures Squares(Shift(shards, groups), Listing(groups)) < Squares(shards, Listing(groups))
  {
    var mg, lg := MostOf(shards, groups), LeastOf(shards, groups);
    Counted(shards, mg);
    SquaresMove(shards, FirstOf(shards, mg), lg, Listing(groups));
  }

  // ---- The result is balanced ----------------------------------------------

  /** Loads after one shift. */
  lemma ShiftCounts(shards: seq<int>, groups: set<int>, g: int)
    requires groups != {} && !Even(shards, groups)
    ensures var mg, lg := MostOf(shards, groups), LeastOf(shards, groups);
            Count(Shift(shards, groups), g) ==
              if g == mg then Count(shards, g) - 1 else if g == lg then Count(shards, g) + 1 else Count(shards, g)
  {
    var mg := MostOf(shards, groups);
    Counted(shards, mg);
    CountUpdate(shards, FirstOf(shards, mg), LeastOf(shards, groups), g);
  }

  ghost predicate AllIn(shards: seq<int>, groups: set<int>) {
    forall s | 0 <= s < |shards| :: shards[s] in groups
  }

  lemma {:induction false} LevelEven(shards: seq<int>, groups: set<int>)
    requires groups != {}
    ensures Even(Level(shards, groups), groups)
    ensures AllIn(shards, groups) ==> AllIn(Level(shards, groups), groups)
    decreases Squares(shards, Listing(groups))
  {
    hide Squares, Count, Listing, Most;
    if !Even(shards, groups) {
      ShiftLowers(shards, groups);
      LevelEven(Shift(shards, groups), groups);
    }
  }

  lemma {:induction false} AssignAll(shards: seq<int>, groups: set<int>, s: nat)
    requires groups != {} && s <= |shards| && forall i | 0 <= i < s :: shards[i] in groups
    ensures AllIn(Assign(shards, groups, s), groups)
    ensures forall i | 0 <= i < |shards| && shards[i] in groups :: Assign(shards, groups, s)[i] == shards[i]
    decreases |shards| - s
  {
    if s < |shards| {
      var next := if shards[s] in groups then shards else shards[s := LeastOf(shards, groups)];
      AssignAll(next, groups, s + 1);
      forall i | 0 <= i < |shards| && shards[i] in groups
        ensures Assign(shards, groups, s)[i] == shards[i]
      {
        assert next[i] == shards[i];
      }
    }
  }

  /**
   * What the configuration check of the repository asks for: every shard on a
   * member group, and loads that differ by one at most.
   */
  lemma RebalanceBalances(shards: seq<int>, groups: set<int>)
    ensures var r := Rebalanced(shards, groups);
            if groups == {} then forall s | 0 <= s < |r| :: r[s] == 0
            else
              && AllIn(r, groups)
              && forall g, h | g in groups && h in groups :: Count(r, g) <= Count(r, h) + 1
  {
    if groups != {} {
      AssignAll(shards, groups, 0);
      LevelEven(Assign(shards, groups, 0), groups);
    }
  }

  /** A balanced configuration is left as it is, so rebalancing twice changes nothing more. */
  lemma RebalanceStable(shards: seq<int>, groups: set<int>)
    requires groups != {} && AllIn(shards, groups)
    requires forall g, h | g in groups && h in groups :: Count(shards, g) <= Count(shards, h) + 1
    ensures Rebalanced(shards, groups) == shards
  {
    AssignAll(shards, groups, 0);
    assert Assign(shards, groups, 0) == shards;
    assert Even(shards, groups);
  }

  // ---- No shard moves twice ------------------------------------------------

  datatype Transfer = Transfer(shard: nat, from: int, to: int)

  /** The moves of the balancing loop, in order. */
  ghost function Transfers(shards: seq<int>, groups: set<int>): seq<Transfer>
    requires groups != {}
    decreases Squares(shards, Listing(groups))
  {
    if Even(shards, groups) then []
    else
      ShiftLowers(shards, groups);
      var mg := MostOf(shards, groups);
      Counted(shards, mg);
      [Transfer(FirstOf(shards, mg), mg, LeastOf(shards, groups))] + Transfers(Shift(shards, groups), groups)
  }

  /** The groups in rs are within one of the least loaded. */
  ghost predicate Low(shards: seq<int>, groups: set<int>, rs: set<int>)
    requires groups != {}
  {
    forall r | r in rs :: Count(shards, r) <= Count(shards, LeastOf(shards, groups)) + 1
  }

  /** A receiver joins them, and the minimum never falls. */
  lemma LowStays(shards: seq<int>, groups: set<int>, rs: set<int>)
    requires groups != {} && !Even(shards, groups) && Low(shards, groups, rs)
    ensures Low(Shift(shards, groups), groups, rs + {LeastOf(shards, groups)})
  {
    var next := Shift(shards, groups);
    var lg := LeastOf(shards, groups);
    ShiftCounts(shards, groups, LeastOf(next, groups));
    forall r | r in rs + {lg} ensures Count(next, r) <= Count(next, LeastOf(next, groups)) + 1 {
      ShiftCounts(shards, groups, r);
    }
  }

  /** Groups that are low give nothing away from here on. */
  lemma {:induction false} LowKeep(shards: seq<int>, groups: set<int>, rs: set<int>)
    requires groups != {} && Low(shards, groups, rs)
    ensures forall t | t in Transfers(shards, groups) :: t.from !in rs
    ensures forall s | 0 <= s < |shards| && shards[s] in rs ::
              && Level(shards, groups)[s] == shards[s]
              && forall t | t in Transfers(shards, groups) :: t.shard != s
    decreases Squares(shards, Listing(groups))
  {
    if !Even(shards, groups) {
      ShiftLowers(shards, groups);
      LowStays(shards, groups, rs);
      var mg, next := MostOf(shards, groups), Shift(shards, groups);
      Counted(shards, mg);
      LowKeep(next, groups, rs + {LeastOf(shards, groups)});
      forall s | 0 <= s < |shards| && shards[s] in rs
        ensures Level(shards, groups)[s] == shards[s] && forall t | t in Transfers(shards, groups) :: t.shard != s
      {
        assert next[s] == shards[s];
      }
    }
  }

  /** The groups in ds are within one of the most loaded. */
  ghost predicate High(shards: seq<int>, groups: set<int>, ds: set<int>)
    requires groups != {}
  {
    forall d | d in ds :: Count(shards, d) + 1 >= Count(shards, MostOf(shards, groups))
  }

  /** A giver joins them, and the maximum never rises. */
  lemma HighStays(shards: seq<int>, groups: set<int>, ds: set<int>)
    requires groups != {} && !Even(shards, groups) && High(shards, groups, ds)
    ensures High(Shift(shards, groups), groups, ds + {MostOf(shards, groups)})
  {
    var next := Shift(shards, groups);
    var mg := MostOf(shards, groups);
    ShiftCounts(shards, groups, MostOf(next, groups));
    forall d | d in ds + {mg} ensures Count(next, d) + 1 >= Count(next, MostOf(next, groups)) {
      ShiftCounts(shards, groups, d);
    }
  }

  /** Groups that are high receive nothing from here on. */
  lemma {:induction false} HighKeep(shards: seq<int>, groups: set<int>, ds: set<int>)
    requires groups != {} && High(shards, groups, ds)
    ensures forall t | t in Transfers(shards, groups) :: t.to !in ds
    decreases Squares(shards, Listing(groups))
  {
    if !Even(shards, groups) {
      ShiftLowers(shards, groups);
      HighStays(shards, groups, ds);
      Counted(shards, MostOf(shards, groups));
      HighKeep(Shift(shards, groups), groups, ds + {MostOf(shards, groups)});
    }
  }

  /** A group that receives never gives, before or after, and no shard is moved twice. */
  lemma {:induction false} MovesOnce(shards: seq<int>, groups: set<int>, i: nat, j: nat)
    requires groups != {} && i < j < |Transfers(shards, groups)|
    ensures var ts := Transfers(shards, groups);
            ts[j].from != ts[i].to && ts[j].to != ts[i].from && ts[j].shard != ts[i].shard
    decreases Squares(shards, Listing(groups))
  {
    hide Squares, Count, Listing, Most, Least;
    ShiftLowers(shards, groups);
    var next, lg := Shift(shards, groups), LeastOf(shards, groups);
    var ts, rest := Transfers(shards, groups), Transfers(next, groups);
    assert ts == [ts[0]] + rest;
    if i > 0 {
      MovesOnce(next, groups, i - 1, j - 1);
    } else {
      LowStays(shards, groups, {});
      LowKeep(next, groups, {lg});
      HighStays(shards, groups, {});
      HighKeep(next, groups, {MostOf(shards, groups)});
      assert rest[j - 1] in rest && next[ts[0].shard] == lg;
    }
  }
}
