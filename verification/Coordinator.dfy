/** The MapReduce coordinator: tasks, queues, timeouts and intermediate files. */
module Coordinator {
  import opened FileNames
  import opened Quorums

  /** The capacity of the map queue; the reduce queue has one slot per reduce task. */
  const MAP_SLOTS := 10000

  datatype Status = Idle | InProcess | Completed
  datatype Kind = Map | Reduce

  datatype Coord = Coord(
    maps: seq<Status>, reduces: seq<Status>,
    mapChan: seq<nat>, reduceChan: seq<nat>,
    mapsDone: bool,                      // set by Done once every map is completed
    inter: map<nat, seq<string>>)        // files reported for each reduce task

  datatype Reply = Finished | Nothing | Task(kind: Kind, id: nat, files: seq<string>)

  // ---- The handlers --------------------------------------------------------

  predicate AllCompleted(ts: seq<Status>) {
    forall i | 0 <= i < |ts| :: ts[i] == Completed
  }

  /** Queues hold tasks that exist. */
  predicate Ranged(c: Coord) {
    && (forall i | 0 <= i < |c.mapChan| :: c.mapChan[i] < |c.maps|)
    && (forall i | 0 <= i < |c.reduceChan| :: c.reduceChan[i] < |c.reduces|)
  }

  function FilesFor(inter: map<nat, seq<string>>, r: nat): seq<string> {
    if r in inter then inter[r] else []
  }

  function AddFile(inter: map<nat, seq<string>>, name: string): map<nat, seq<string>>
    requires Parses(name)
  {
    var r := ReduceOf(name);
    inter[r := FilesFor(inter, r) + [name]]
  }

  predicate AllParse(files: seq<string>) {
    forall i | 0 <= i < |files| :: Parses(files[i])
  }

  function AddFiles(inter: map<nat, seq<string>>, files: seq<string>): map<nat, seq<string>>
    requires AllParse(files)
  {
    if files == [] then inter
    else AddFile(AddFiles(inter, files[..|files| - 1]), files[|files| - 1])
  }

  function GetTask(c: Coord): (Coord, Reply)
    requires Ranged(c)
  {
    if AllCompleted(c.maps) && AllCompleted(c.reduces) then (c, Finished)
    else if !c.mapsDone then
      if c.mapChan == [] then (c, Nothing)
      else
        var id := c.mapChan[0];
        (c.(maps := c.maps[id := InProcess], mapChan := c.mapChan[1..]), Task(Map, id, []))
    else if c.reduceChan == [] then (c, Nothing)
    else
      var id := c.reduceChan[0];
      (c.(reduces := c.reduces[id := InProcess], reduceChan := c.reduceChan[1..]),
       Task(Reduce, id, FilesFor(c.inter, id)))
  }

  /** Nothing changes, or the head of one queue goes into process. */
  lemma GetCases(c: Coord)
    requires Ranged(c)
    ensures var (d, reply) := GetTask(c);
            || (d == c && !reply.Task?)
            || (!c.mapsDone && c.mapChan != [] && reply == Task(Map, c.mapChan[0], []) &&
                d == c.(maps := c.maps[c.mapChan[0] := InProcess], mapChan := c.mapChan[1..]))
            || (c.mapsDone && c.reduceChan != [] &&
                reply == Task(Reduce, c.reduceChan[0], FilesFor(c.inter, c.reduceChan[0])) &&
                d == c.(reduces := c.reduces[c.reduceChan[0] := InProcess], reduceChan := c.reduceChan[1..]))
  {
  }

  predicate Known(c: Coord, kind: Kind, id: nat) {
    id < if kind == Map then |c.maps| else |c.reduces|
  }

  function FinishedTask(c: Coord, kind: Kind, id: nat, files: seq<string>): Coord
    requires Known(c, kind, id) && AllParse(files)
  {
    match kind
    case Map =>
      if c.maps[id] == InProcess
      then c.(maps := c.maps[id := Completed], inter := AddFiles(c.inter, files)) else c
    case Reduce =>
      if c.reduces[id] == InProcess then c.(reduces := c.reduces[id := Completed]) else c
  }

  function CheckFinished(c: Coord, kind: Kind, id: nat): Coord
    requires Known(c, kind, id)
  {
    match kind
    case Map =>
      if c.maps[id] == Completed then c
      else c.(maps := c.maps[id := Idle], mapChan := c.mapChan + [id])
    case Reduce =>
      if c.reduces[id] == Completed then c
      else c.(reduces := c.reduces[id := Idle], reduceChan := c.reduceChan + [id])
  }

  function Done(c: Coord): (Coord, bool) {
    (c.(mapsDone := AllCompleted(c.maps)), AllCompleted(c.maps) && AllCompleted(c.reduces))
  }

  function UpTo(n: nat): seq<nat> {
    seq(n, i => i)
  }

  function Make(maps: nat, reduces: nat): Coord {
    Coord(seq(maps, _ => Idle), seq(reduces, _ => Idle), UpTo(maps), UpTo(reduces), false, map[])
  }

  /** The files a map worker writes and reports. */
  function MapFiles(m: nat, n: nat): seq<string> {
    seq(n, r requires 0 <= r < n => Name(m, r))
  }

  lemma MapFilesParse(m: nat, n: nat)
    ensures AllParse(MapFiles(m, n))
  {
    forall r | 0 <= r < n ensures Parses(MapFiles(m, n)[r]) { NameParses(m, r); }
  }

  // ---- Runs ----------------------------------------------------------------

  /** The coordinator and the timeouts it has started that are still to fire. */
  datatype System = System(c: Coord, mapTimers: multiset<nat>, reduceTimers: multiset<nat>)

  datatype Step =
    | Get
    | Finish(kind: Kind, id: nat)
    | Expire(kind: Kind, id: nat)
    | Poll

  /** A finished report may be late or repeated; a timeout fires once per issue. */
  predicate Enabled(s: System, st: Step) {
    match st
    case Finish(kind, id) => Known(s.c, kind, id)
    case Expire(kind, id) => Known(s.c, kind, id) && id in if kind == Map then s.mapTimers else s.reduceTimers
    case _ => true
  }

  function Apply(s: System, st: Step): System
    requires Ranged(s.c) && Enabled(s, st)
  {
    match st
    case Get =>
      var (c, reply) := GetTask(s.c);
      System(c,
             if reply.Task? && reply.kind == Map then s.mapTimers + multiset{reply.id} else s.mapTimers,
             if reply.Task? && reply.kind == Reduce then s.reduceTimers + multiset{reply.id} else s.reduceTimers)
    case Finish(kind, id) =>
      MapFilesParse(id, |s.c.reduces|);
      s.(c := FinishedTask(s.c, kind, id, MapFiles(id, |s.c.reduces|)))
    case Expire(kind, id) =>
      System(CheckFinished(s.c, kind, id),
             if kind == Map then s.mapTimers - multiset{id} else s.mapTimers,
             if kind == Reduce then s.reduceTimers - multiset{id} else s.reduceTimers)
    case Poll => s.(c := Done(s.c).0)
  }

  ghost predicate Moves(ss: seq<System>, k: nat)
    requires k + 1 < |ss|
  {
    Ranged(ss[k].c) && exists st :: Enabled(ss[k], st) && ss[k + 1] == Apply(ss[k], st)
  }

  ghost predicate IsRun(ss: seq<System>) {
    && |ss| >= 1
    && ss[0] == System(Make(|ss[0].c.maps|, |ss[0].c.reduces|), multiset{}, multiset{})
    && forall k: nat | k + 1 < |ss| :: Moves(ss, k)
  }

  // ---- One kind of task ----------------------------------------------------

  /** Queued once exactly while idle; one timeout pending while in process. */
  ghost predicate SideOk(ts: seq<Status>, chan: seq<nat>, timers: multiset<nat>) {
    && (forall i | 0 <= i < |chan| :: chan[i] < |ts|)
    && (forall i: nat | i < |ts| ::
          && multiset(chan)[i] == (if ts[i] == Idle then 1 else 0)
          && timers[i] <= (if ts[i] == Idle then 0 else 1)
          && (ts[i] == InProcess ==> timers[i] == 1))
  }

  lemma PopOk(ts: seq<Status>, chan: seq<nat>, timers: multiset<nat>)
    requires SideOk(ts, chan, timers) && chan != []
    ensures SideOk(ts[chan[0] := InProcess], chan[1..], timers + multiset{chan[0]})
  {
    assert chan == [chan[0]] + chan[1..];
    assert multiset(chan) == multiset{chan[0]} + multiset(chan[1..]);
  }

  lemma FinishOk(ts: seq<Status>, chan: seq<nat>, timers: multiset<nat>, id: nat)
    requires SideOk(ts, chan, timers) && id < |ts| && ts[id] == InProcess
    ensures SideOk(ts[id := Completed], chan, timers)
  {
  }

  lemma ExpireOk(ts: seq<Status>, chan: seq<nat>, timers: multiset<nat>, id: nat)
    requires SideOk(ts, chan, timers) && id < |ts| && id in timers
    ensures if ts[id] == Completed then SideOk(ts, chan, timers - multiset{id})
            else ts[id] == InProcess && SideOk(ts[id := Idle], chan + [id], timers - multiset{id})
  {
    assert multiset(chan + [id]) == multiset(chan) + multiset{id};
  }

  lemma StartOk(n: nat)
    ensures SideOk(seq(n, _ => Idle), UpTo(n), multiset{})
  {
    forall i: nat | i < n ensures multiset(UpTo(n))[i] == 1 { UpToOnce(n, i); }
  }

  lemma {:induction false} UpToOnce(n: nat, i: nat)
    ensures multiset(UpTo(n))[i] == if i < n then 1 else 0
  {
    if n > 0 {
      UpToOnce(n - 1, i);
      assert UpTo(n) == UpTo(n - 1) + [n - 1];
    }
  }

  /** A queue never holds more than there are tasks, so a send never waits. */
  lemma QueueFits(ts: seq<Status>, chan: seq<nat>, timers: multiset<nat>)
    requires SideOk(ts, chan, timers)
    ensures |chan| <= |ts|
  {
    forall i, j | 0 <= i < j < |chan| ensures chan[i] != chan[j] {
      Twice(chan, i, j);
    }
    DistinctSize(chan);
    SubsetSize(Elems(chan), Range(|ts|));
  }

  lemma Twice(chan: seq<nat>, i: nat, j: nat)
    requires i < j < |chan|
    ensures chan[i] == chan[j] ==> multiset(chan)[chan[i]] >= 2
  {
    assert chan == chan[..i] + [chan[i]] + chan[i + 1..j] + [chan[j]] + chan[j + 1..];
  }

  function Elems(chan: seq<nat>): set<nat> {
    set x | x in chan
  }

  lemma {:induction false} DistinctSize(chan: seq<nat>)
    requires forall i, j | 0 <= i < j < |chan| :: chan[i] != chan[j]
    ensures |Elems(chan)| == |chan|
  {
    if chan != [] {
      var n := |chan| - 1;
      DistinctSize(chan[..n]);
      assert chan == chan[..n] + [chan[n]];
      assert Elems(chan) == Elems(chan[..n]) + {chan[n]};
    }
  }

  // ---- Intermediate files --------------------------------------------------

  function NamesFor(order: seq<nat>, r: nat): (names: seq<string>)
    ensures |names| == |order|
  {
    seq(|order|, i requires 0 <= i < |order| => Name(order[i], r))
  }

  /** order lists the completed maps, as they completed. */
  ghost predicate Completes(c: Coord, order: seq<nat>) {
    && (forall i | 0 <= i < |order| :: order[i] < |c.maps|)
    && (forall m: nat | m < |c.maps| :: multiset(order)[m] == if c.maps[m] == Completed then 1 else 0)
    && (forall r: nat | r < |c.reduces| :: FilesFor(c.inter, r) == NamesFor(order, r))
  }

  ghost predicate FilesOk(c: Coord) {
    exists order: seq<nat> :: Completes(c, order)
  }

  /** Reporting a map's files appends one name to each reduce task's list. */
  lemma {:induction false} AddMapFiles(inter: map<nat, seq<string>>, m: nat, n: nat, r: nat)
    ensures AllParse(MapFiles(m, n))
    ensures FilesFor(AddFiles(inter, MapFiles(m, n)), r) ==
            FilesFor(inter, r) + (if r < n then [Name(m, r)] else [])
  {
    MapFilesParse(m, n);
    hide Name, Parses, ReduceOf;
    if n > 0 {
      AddMapFiles(inter, m, n - 1, r);
      var files := MapFiles(m, n);
      assert files[..n - 1] == MapFiles(m, n - 1);
      NameParses(m, n - 1);
    }
  }

  lemma FilesAfterMap(c: Coord, id: nat)
    requires FilesOk(c) && id < |c.maps| && c.maps[id] == InProcess
    ensures AllParse(MapFiles(id, |c.reduces|))
    ensures FilesOk(FinishedTask(c, Map, id, MapFiles(id, |c.reduces|)))
  {
    hide AddFiles, Parses, MapFiles, Name, FilesFor;
    var n := |c.reduces|;
    MapFilesParse(id, n);
    var d := FinishedTask(c, Map, id, MapFiles(id, n));
    var order: seq<nat> :| Completes(c, order);
    var next := order + [id];
    forall r: nat | r < n ensures FilesFor(d.inter, r) == NamesFor(next, r) {
      AddMapFiles(c.inter, id, n, r);
      assert NamesFor(next, r) == NamesFor(order, r) + [Name(id, r)];
    }
    assert Completes(d, next);
  }

  lemma SameFiles(c: Coord, d: Coord)
    requires FilesOk(c) && d.inter == c.inter && |d.maps| == |c.maps| && |d.reduces| == |c.reduces|
    requires forall m | 0 <= m < |c.maps| :: d.maps[m] == Completed <==> c.maps[m] == Completed
    ensures FilesOk(d)
  {
    var order: seq<nat> :| Completes(c, order);
    assert Completes(d, order);
  }

  // ---- The invariant -------------------------------------------------------

  /** Reduce tasks move only once every map is completed. */
  ghost predicate PhaseOk(c: Coord) {
    && (c.mapsDone ==> AllCompleted(c.maps))
    && (!c.mapsDone ==> forall r | 0 <= r < |c.reduces| :: c.reduces[r] == Idle)
  }

  ghost predicate Inv(s: System) {
    && SideOk(s.c.maps, s.c.mapChan, s.mapTimers)
    && SideOk(s.c.reduces, s.c.reduceChan, s.reduceTimers)
    && PhaseOk(s.c) && FilesOk(s.c)
  }

  lemma GetInv(s: System)
    requires Inv(s)
    ensures Inv(Apply(s, Get))
  {
    GetCases(s.c);
    hide FilesOk, GetTask, AllCompleted;
    var c := s.c;
    var t := Apply(s, Get);
    if GetTask(c).1.Task? {
      if GetTask(c).1.kind == Map {
        PopOk(c.maps, c.mapChan, s.mapTimers);
        IdleHead(c.maps, c.mapChan, s.mapTimers);
      } else {
        PopOk(c.reduces, c.reduceChan, s.reduceTimers);
      }
    }
    SameFiles(c, t.c);
  }

  lemma IdleHead(ts: seq<Status>, chan: seq<nat>, timers: multiset<nat>)
    requires SideOk(ts, chan, timers) && chan != []
    ensures ts[chan[0]] == Idle
  {
    assert chan[0] in multiset(chan);
  }

  lemma FinishInv(s: System, kind: Kind, id: nat)
    requires Inv(s) && Enabled(s, Finish(kind, id))
    ensures Inv(Apply(s, Finish(kind, id)))
  {
    var c := s.c;
    var t := Apply(s, Finish(kind, id));
    match kind
    case Map =>
      if c.maps[id] == InProcess {
        FinishOk(c.maps, c.mapChan, s.mapTimers, id);
        FilesAfterMap(c, id);
      }
    case Reduce =>
      if c.reduces[id] == InProcess { FinishOk(c.reduces, c.reduceChan, s.reduceTimers, id); }
      SameFiles(c, t.c);
  }

  lemma ExpireInv(s: System, kind: Kind, id: nat)
    requires Inv(s) && Enabled(s, Expire(kind, id))
    ensures Inv(Apply(s, Expire(kind, id)))
  {
    var c := s.c;
    var t := Apply(s, Expire(kind, id));
    hide FilesOk;
    if kind == Map {
      ExpireOk(c.maps, c.mapChan, s.mapTimers, id);
    } else {
      ExpireOk(c.reduces, c.reduceChan, s.reduceTimers, id);
    }
    SameFiles(c, t.c);
  }

  lemma PollInv(s: System)
    requires Inv(s)
    ensures Inv(Apply(s, Poll))
  {
    hide FilesOk;
    SameFiles(s.c, Done(s.c).0);
  }

  lemma {:induction false} RunInv(ss: seq<System>, k: nat)
    requires IsRun(ss) && k < |ss|
    ensures Inv(ss[k])
  {
    hide Inv, Apply;
    if k == 0 {
      StartInv(ss[0]);
    } else {
      RunInv(ss, k - 1);
      assert Moves(ss, k - 1);
      var st :| Enabled(ss[k - 1], st) && ss[k] == Apply(ss[k - 1], st);
      match st
      case Get => GetInv(ss[k - 1]);
      case Finish(kind, id) => FinishInv(ss[k - 1], kind, id);
      case Expire(kind, id) => ExpireInv(ss[k - 1], kind, id);
      case Poll => PollInv(ss[k - 1]);
    }
  }

  lemma StartInv(s: System)
    requires s == System(Make(|s.c.maps|, |s.c.reduces|), multiset{}, multiset{})
    ensures Inv(s)
  {
    StartOk(|s.c.maps|);
    StartOk(|s.c.reduces|);
    assert Completes(s.c, []);
  }

  // ---- What every run has --------------------------------------------------

  /** A task is queued exactly once while idle and not otherwise; queues never overflow. */
  lemma QueuedIffIdle(ss: seq<System>, k: nat, id: nat)
    requires IsRun(ss) && k < |ss|
    ensures var c := ss[k].c;
            && (id < |c.maps| ==> multiset(c.mapChan)[id] == if c.maps[id] == Idle then 1 else 0)
            && (id < |c.reduces| ==> multiset(c.reduceChan)[id] == if c.reduces[id] == Idle then 1 else 0)
            && |c.mapChan| <= |c.maps| && |c.reduceChan| <= |c.reduces|
            && (|c.maps| <= MAP_SLOTS ==> |c.mapChan| <= MAP_SLOTS)
  {
    RunInv(ss, k);
    QueueFits(ss[k].c.maps, ss[k].c.mapChan, ss[k].mapTimers);
    QueueFits(ss[k].c.reduces, ss[k].c.reduceChan, ss[k].reduceTimers);
  }

  predicate StillDone(ts: seq<Status>, us: seq<Status>) {
    |us| == |ts| && forall i | 0 <= i < |ts| && ts[i] == Completed :: us[i] == Completed
  }

  lemma StepKeepsDone(s: System, st: Step)
    requires Inv(s) && Enabled(s, st)
    ensures StillDone(s.c.maps, Apply(s, st).c.maps) && StillDone(s.c.reduces, Apply(s, st).c.reduces)
  {
    hide FilesOk, Apply, StillDone;
    if st.Get? { GetKeepsDone(s); } else { OtherKeepsDone(s, st); }
  }

  lemma OtherKeepsDone(s: System, st: Step)
    requires Ranged(s.c) && Enabled(s, st) && !st.Get?
    ensures StillDone(s.c.maps, Apply(s, st).c.maps) && StillDone(s.c.reduces, Apply(s, st).c.reduces)
  {
    hide GetTask, MapFiles, AllParse, Ranged, FinishedTask, CheckFinished;
    match st
    case Finish(kind, id) =>
      MapFilesParse(id, |s.c.reduces|);
      FinishKeepsDone(s.c, kind, id, MapFiles(id, |s.c.reduces|));
    case Expire(kind, id) => CheckKeepsDone(s.c, kind, id);
    case Poll =>
  }

  lemma FinishKeepsDone(c: Coord, kind: Kind, id: nat, files: seq<string>)
    requires Known(c, kind, id) && AllParse(files)
    ensures var d := FinishedTask(c, kind, id, files); StillDone(c.maps, d.maps) && StillDone(c.reduces, d.reduces)
  {
  }

  lemma CheckKeepsDone(c: Coord, kind: Kind, id: nat)
    requires Known(c, kind, id)
    ensures var d := CheckFinished(c, kind, id); StillDone(c.maps, d.maps) && StillDone(c.reduces, d.reduces)
  {
  }

  lemma GetKeepsDone(s: System)
    requires Inv(s)
    ensures StillDone(s.c.maps, Apply(s, Get).c.maps) && StillDone(s.c.reduces, Apply(s, Get).c.reduces)
  {
    GetCases(s.c);
    if s.c.mapChan != [] { IdleHead(s.c.maps, s.c.mapChan, s.mapTimers); }
    if s.c.reduceChan != [] { IdleHead(s.c.reduces, s.c.reduceChan, s.reduceTimers); }
    hide FilesOk, GetTask, AllCompleted;
  }

  /** A completed task is never given out or taken back again. */
  lemma {:induction false} CompletedStays(ss: seq<System>, j: nat, k: nat)
    requires IsRun(ss) && j <= k < |ss|
    ensures StillDone(ss[j].c.maps, ss[k].c.maps) && StillDone(ss[j].c.reduces, ss[k].c.reduces)
    decreases k
  {
    hide Apply, Inv, Enabled;
    if j < k {
      CompletedStays(ss, j, k - 1);
      RunInv(ss, k - 1);
      assert Moves(ss, k - 1);
      var st :| Enabled(ss[k - 1], st) && ss[k] == Apply(ss[k - 1], st);
      StepKeepsDone(ss[k - 1], st);
    }
  }

  lemma {:induction false} NamesCount(order: seq<nat>, r: nat, m: nat)
    ensures multiset(NamesFor(order, r))[Name(m, r)] == multiset(order)[m]
  {
    if order != [] {
      var n := |order| - 1;
      NamesCount(order[..n], r, m);
      assert order == order[..n] + [order[n]];
      assert NamesFor(order, r) == NamesFor(order[..n], r) + [Name(order[n], r)];
      if Name(order[n], r) == Name(m, r) { NameInjective(order[n], r, m, r); }
    }
  }

  lemma NamesPermuted(a: seq<nat>, b: seq<nat>, r: nat)
    requires multiset(a) == multiset(b)
    ensures multiset(NamesFor(a, r)) == multiset(NamesFor(b, r))
  {
    forall name ensures multiset(NamesFor(a, r))[name] == multiset(NamesFor(b, r))[name] {
      if m: nat :| name == Name(m, r) {
        NamesCount(a, r, m);
        NamesCount(b, r, m);
      } else {
        assert name !in NamesFor(a, r) && name !in NamesFor(b, r);
      }
    }
  }

  /**
   * A reduce task is given out only when every map is completed, and then with
   * exactly one file per map: mr-0-r, mr-1-r, and so on, in some order.
   */
  lemma ReduceInputs(ss: seq<System>, k: nat)
    requires IsRun(ss) && k < |ss|
    ensures Ranged(ss[k].c)
    ensures var c := ss[k].c; var reply := GetTask(c).1;
            reply.Task? && reply.kind == Reduce ==>
              AllCompleted(c.maps) && multiset(reply.files) == multiset(NamesFor(UpTo(|c.maps|), reply.id))
  {
    RunInv(ss, k);
    var c := ss[k].c;
    var reply := GetTask(c).1;
    if reply.Task? && reply.kind == Reduce {
      var order: seq<nat> :| Completes(c, order);
      forall m: nat ensures multiset(order)[m] == multiset(UpTo(|c.maps|))[m] {
        UpToOnce(|c.maps|, m);
        if m >= |c.maps| { assert m !in order; }
      }
      assert multiset(order) == multiset(UpTo(|c.maps|));
      NamesPermuted(order, UpTo(|c.maps|), reply.id);
    }
  }

  // ---- What the handlers answer --------------------------------------------

  predicate SomeIdle(ts: seq<Status>) {
    exists i :: 0 <= i < |ts| && ts[i] == Idle
  }

  /** Something is queued exactly when some task is idle. */
  lemma QueuedWhenIdle(ts: seq<Status>, chan: seq<nat>, timers: multiset<nat>)
    requires SideOk(ts, chan, timers)
    ensures chan != [] <==> SomeIdle(ts)
  {
    if chan != [] { IdleHead(ts, chan, timers); }
    if SomeIdle(ts) {
      var i: nat :| i < |ts| && ts[i] == Idle;
      assert multiset(chan)[i] == 1;
    }
  }

  /** The whole job is done. */
  predicate JobDone(c: Coord) {
    AllCompleted(c.maps) && AllCompleted(c.reduces)
  }

  /**
   * In every run: a request for a task is told the job is finished exactly
   * when it is, and otherwise gets an idle task of the phase if there is one;
   * that task was idle, is in process now, and nothing else changed.
   */
  lemma GetTaskAnswers(ss: seq<System>, k: nat)
    requires IsRun(ss) && k < |ss|
    ensures Ranged(ss[k].c)
    ensures var c := ss[k].c; var (d, reply) := GetTask(c);
            && (reply == Finished <==> JobDone(c))
            && (reply.Task? && reply.kind == Map <==> !c.mapsDone && SomeIdle(c.maps))
            && (reply.Task? && reply.kind == Reduce <==> c.mapsDone && SomeIdle(c.reduces))
            && (reply.Task? && reply.kind == Map ==>
                  reply.id < |c.maps| && c.maps[reply.id] == Idle && d.reduces == c.reduces &&
                  d.maps == c.maps[reply.id := InProcess])
            && (reply.Task? && reply.kind == Reduce ==>
                  reply.id < |c.reduces| && c.reduces[reply.id] == Idle && d.maps == c.maps &&
                  d.reduces == c.reduces[reply.id := InProcess])
            && (!reply.Task? ==> d == c)
  {
    RunInv(ss, k);
    var s := ss[k];
    hide IsRun, FilesOk;
    QueuedWhenIdle(s.c.maps, s.c.mapChan, s.mapTimers);
    QueuedWhenIdle(s.c.reduces, s.c.reduceChan, s.reduceTimers);
    if s.c.mapChan != [] { IdleHead(s.c.maps, s.c.mapChan, s.mapTimers); }
    if s.c.reduceChan != [] { IdleHead(s.c.reduces, s.c.reduceChan, s.reduceTimers); }
  }

  /**
   * In every run: Done is true exactly when every map and reduce task is
   * completed; from then on it stays true and no task is given out.
   */
  lemma DoneIsFinal(ss: seq<System>, j: nat, k: nat)
    requires IsRun(ss) && j <= k < |ss|
    ensures Done(ss[j].c).1 <==>
              (forall i | 0 <= i < |ss[j].c.maps| :: ss[j].c.maps[i] == Completed) &&
              (forall i | 0 <= i < |ss[j].c.reduces| :: ss[j].c.reduces[i] == Completed)
    ensures Ranged(ss[j].c) && Ranged(ss[k].c)
    ensures Done(ss[j].c).1 <==> GetTask(ss[j].c).1 == Finished
    ensures Done(ss[j].c).1 ==> Done(ss[k].c).1 && GetTask(ss[k].c) == (ss[k].c, Finished)
    ensures Done(ss[j].c).0.mapsDone <==> forall i | 0 <= i < |ss[j].c.maps| :: ss[j].c.maps[i] == Completed
  {
    hide IsRun;
    CompletedStays(ss, j, k);
    GetTaskAnswers(ss, j);
    GetTaskAnswers(ss, k);
  }

  /** A report completes a task exactly when it is in process, and touches no other. */
  lemma FinishAnswers(s: System, kind: Kind, id: nat)
    requires Ranged(s.c) && Enabled(s, Finish(kind, id))
    ensures var ts, us := if kind == Map then s.c.maps else s.c.reduces,
                          if kind == Map then Apply(s, Finish(kind, id)).c.maps
                          else Apply(s, Finish(kind, id)).c.reduces;
            && |us| == |ts| && (us[id] == Completed <==> ts[id] != Idle)
            && forall i | 0 <= i < |ts| && i != id :: us[i] == ts[i]
  {
    hide AddFiles, MapFiles;
  }
}
