/** The shard configuration object and its rebalancing in place. */
module ShardConfig {
  import opened Balance

  const NSHARDS := 12

  // ---- Group numbers in order ----------------------------------------------

  ghost predicate Ascending(gs: seq<int>) {
    forall i, j | 0 <= i < j < |gs| :: gs[i] < gs[j]
  }

  function Elems(gs: seq<int>): set<int> {
    set g | g in gs
  }

  method Insert(gs: seq<int>, g: int) returns (r: seq<int>)
    requires Ascending(gs) && g !in gs
    ensures Ascending(r) && Elems(r) == Elems(gs) + {g}
  {
    var k := 0;
    while k < |gs| && gs[k] < g
      invariant k <= |gs| && forall i | 0 <= i < k :: gs[i] < g
    {
      k := k + 1;
    }
    r := gs[..k] + [g] + gs[k..];
    InsertedAt(gs, g, k);
  }

  lemma InsertedAt(gs: seq<int>, g: int, k: nat)
    requires Ascending(gs) && g !in gs && k <= |gs|
    requires (forall i | 0 <= i < k :: gs[i] < g) && (k < |gs| ==> g <= gs[k])
    ensures Ascending(gs[..k] + [g] + gs[k..]) && Elems(gs[..k] + [g] + gs[k..]) == Elems(gs) + {g}
  {
    var r := gs[..k] + [g] + gs[k..];
    assert forall i | k <= i < |gs| :: g < gs[i] by {
      assert forall i | k < i < |gs| :: gs[k] < gs[i];
      assert k < |gs| ==> gs[k] in gs;
    }
    assert forall i | 0 <= i < |r| :: r[i] == if i < k then gs[i] else if i == k then g else gs[i - 1];
    assert forall h :: h in gs <==> h in gs[..k] || h in gs[k..] by { assert gs == gs[..k] + gs[k..]; }
  }

  /** The keys, met in any order, then sorted. */
  method SortedKeys(groups: set<int>) returns (gs: seq<int>)
    ensures Ascending(gs) && Elems(gs) == groups
  {
    var rest := groups;
    gs := [];
    while rest != {}
      invariant rest <= groups && Ascending(gs) && Elems(gs) == groups - rest
      decreases |rest|
    {
      assert (forall x :: x !in rest) ==> rest == {};
      var g :| g in rest;
      gs := Insert(gs, g);
      rest := rest - {g};
    }
  }

  lemma MostNext(shards: seq<int>, seen: set<int>, mg: int, g: int)
    requires seen == {} || (Most(shards, seen, mg) && forall h | h in seen :: h < g)
    ensures Most(shards, seen + {g}, if seen == {} || Count(shards, g) > Count(shards, mg) then g else mg)
  {
  }

  lemma LeastNext(shards: seq<int>, seen: set<int>, lg: int, g: int)
    requires seen == {} || (Least(shards, seen, lg) && forall h | h in seen :: h < g)
    ensures Least(shards, seen + {g}, if seen == {} || Count(shards, g) < Count(shards, lg) then g else lg)
  {
  }

  lemma SeenNext(gs: seq<int>, k: nat)
    requires Ascending(gs) && k < |gs|
    ensures Elems(gs[..k + 1]) == Elems(gs[..k]) + {gs[k]} && (Elems(gs[..k]) == {} <==> k == 0)
    ensures forall h | h in Elems(gs[..k]) :: h < gs[k]
  {
    assert gs[..k + 1] == gs[..k] + [gs[k]];
    if k > 0 { assert gs[0] in Elems(gs[..k]); }
  }

  /** The scan of analyze: strict comparisons keep the earliest of equals. */
  method Extremes(counts: map<int, int>, gs: seq<int>, ghost shards: seq<int>)
    returns (mg: int, mn: int, lg: int, ln: int)
    requires Ascending(gs) && |shards| == NSHARDS
    requires forall g :: (if g in counts then counts[g] else 0) == Count(shards, g)
    ensures gs == [] ==> (mg, mn, lg, ln) == (-1, -1, -1, 257)
    ensures gs != [] ==> Most(shards, Elems(gs), mg) && mn == Count(shards, mg)
    ensures gs != [] ==> Least(shards, Elems(gs), lg) && ln == Count(shards, lg)
  {
    hide Most, Least, Elems, Ascending;
    mn, mg, ln, lg := -1, -1, 257, -1;
    var k := 0;
    while k < |gs|
      invariant k <= |gs|
      invariant k == 0 ==> (mg, mn, lg, ln) == (-1, -1, -1, 257)
      invariant k > 0 ==> Most(shards, Elems(gs[..k]), mg) && mn == Count(shards, mg)
      invariant k > 0 ==> Least(shards, Elems(gs[..k]), lg) && ln == Count(shards, lg)
    {
      var g := gs[k];
      var n := if g in counts then counts[g] else 0;
      assert n == Count(shards, g) <= NSHARDS;
      SeenNext(gs, k);
      MostNext(shards, Elems(gs[..k]), mg, g);
      LeastNext(shards, Elems(gs[..k]), lg, g);
      if n < ln { ln, lg := n, g; }
      if n > mn { mn, mg := n, g; }
      k := k + 1;
    }
    assert gs[..k] == gs;
  }

  class ShardConfig {
    var Num: int
    var Shards: array<int>
    var Groups: map<int, seq<string>>

    ghost predicate Valid()
      reads this
    {
      Shards.Length == NSHARDS
    }

    constructor ()
      ensures Valid() && fresh(Shards) && Num == 0 && Groups == map[]
      ensures forall s | 0 <= s < NSHARDS :: Shards[s] == 0
    {
      Num, Groups := 0, map[];
      Shards := new int[NSHARDS](_ => 0);
    }

    method Tally() returns (counts: map<int, int>)
      requires Valid()
      ensures forall g :: (if g in counts then counts[g] else 0) == Count(Shards[..], g)
    {
      counts := map[];
      var s := 0;
      while s < Shards.Length
        invariant s <= Shards.Length
        invariant forall g :: (if g in counts then counts[g] else 0) == Count(Shards[..s], g)
      {
        assert Shards[..s + 1][..s] == Shards[..s];
        var g := Shards[s];
        counts := counts[g := (if g in counts then counts[g] else 0) + 1];
        s := s + 1;
      }
      assert Shards[..s] == Shards[..];
    }

    method Analyze() returns (mg: int, mn: int, lg: int, ln: int)
      requires Valid()
      ensures Groups.Keys == {} ==> (mg, mn, lg, ln) == (-1, -1, -1, 257)
      ensures Groups.Keys != {} ==>
                && mg == MostOf(Shards[..], Groups.Keys) && mn == Count(Shards[..], mg)
                && lg == LeastOf(Shards[..], Groups.Keys) && ln == Count(Shards[..], lg)
    {
      var counts := Tally();
      var gs := SortedKeys(Groups.Keys);
      mg, mn, lg, ln := Extremes(counts, gs, Shards[..]);
    }

    /** The balancing loop body: the first shard of mg goes to lg. */
    method MoveOne(mg: int, lg: int)
      requires Valid() && mg in Shards[..]
      modifies Shards
      ensures Shards[..] == old(Shards[..])[FirstOf(old(Shards[..]), mg) := lg]
    {
      ghost var before := Shards[..];
      var s := 0;
      while s < Shards.Length && Shards[s] != mg
        invariant s <= Shards.Length && Shards[..] == before && mg !in before[..s]
      {
        s := s + 1;
      }
      FirstUnique(before, mg, s);
      Shards[s] := lg;
      assert Shards[..] == before[s := lg];
    }

    /** The outcome is a function of the shards and the set of groups. */
    method Rebalance()
      requires Valid()
      modifies Shards
      ensures Shards[..] == Rebalanced(old(Shards[..]), Groups.Keys)
    {
      ghost var before := Shards[..];
      if |Groups| < 1 {
        var s := 0;
        while s < Shards.Length
          invariant s <= Shards.Length && forall i | 0 <= i < s :: Shards[i] == 0
        {
          Shards[s] := 0;
          s := s + 1;
        }
        return;
      }
      assert Groups.Keys != {};
      AssignOrphans();
      ghost var placed := Shards[..];
      var mg, mn, lg, ln := Analyze();
      while mn >= ln + 2
        invariant Level(Shards[..], Groups.Keys) == Level(placed, Groups.Keys)
        invariant mg == MostOf(Shards[..], Groups.Keys) && mn == Count(Shards[..], mg)
        invariant lg == LeastOf(Shards[..], Groups.Keys) && ln == Count(Shards[..], lg)
        decreases Squares(Shards[..], Listing(Groups.Keys))
      {
        ShiftLowers(Shards[..], Groups.Keys);
        Counted(Shards[..], mg);
        MoveOne(mg, lg);
        mg, mn, lg, ln := Analyze();
      }
    }

    method AssignOrphans()
      requires Valid() && Groups.Keys != {}
      modifies Shards
      ensures Shards[..] == Assign(old(Shards[..]), Groups.Keys, 0)
    {
      ghost var before := Shards[..];
      var s := 0;
      while s < Shards.Length
        invariant s <= Shards.Length
        invariant Assign(Shards[..], Groups.Keys, s) == Assign(before, Groups.Keys, 0)
      {
        if Shards[s] !in Groups {
          var mg, mn, lg, ln := Analyze();
          ghost var shards := Shards[..];
          Shards[s] := lg;
          assert Shards[..] == shards[s := lg];
        }
        s := s + 1;
      }
    }
  }
}
