/** Whole jobs: the sequential program, the workers, and that they agree. */
module Job {
  import opened MapReduce
  import opened FileNames
  import Coordinator

  datatype Input = Input(name: string, contents: string)

  // ---- Sorting -------------------------------------------------------------

  lemma {:induction false} LeqTotal(a: string, b: string)
    ensures Leq(a, b) || Leq(b, a)
  {
    if a != [] && b != [] { LeqTotal(a[1..], b[1..]); }
  }

  lemma {:induction false} LeqTransitive(a: string, b: string, c: string)
    requires Leq(a, b) && Leq(b, c)
    ensures Leq(a, c)
  {
    if a != [] && a[0] == b[0] == c[0] { LeqTransitive(a[1..], b[1..], c[1..]); }
  }

  lemma InOrder(kvs: seq<KeyValue>, i: nat, j: nat)
    requires Sorted(kvs) && i <= j < |kvs|
    ensures Leq(kvs[i].key, kvs[j].key)
  {
  }

  /** Put kv where everything before it is no greater, and everything after is greater. */
  method Insert(kvs: seq<KeyValue>, kv: KeyValue) returns (r: seq<KeyValue>)
    requires Sorted(kvs)
    ensures Sorted(r) && multiset(r) == multiset(kvs) + multiset{kv}
  {
    hide Sorted;
    var k := |kvs|;
    while k > 0 && !Leq(kvs[k - 1].key, kv.key)
      invariant 0 <= k <= |kvs| && forall i | k <= i < |kvs| :: Leq(kv.key, kvs[i].key)
    {
      LeqTotal(kvs[k - 1].key, kv.key);
      k := k - 1;
    }
    forall i | 0 <= i < k ensures Leq(kvs[i].key, kv.key) {
      InOrder(kvs, i, k - 1);
      LeqTransitive(kvs[i].key, kvs[k - 1].key, kv.key);
    }
    r := kvs[..k] + [kv] + kvs[k..];
    InsertedAt(kvs, kv, k);
    assert kvs == kvs[..k] + kvs[k..];
  }

  lemma InsertedAt(kvs: seq<KeyValue>, kv: KeyValue, k: nat)
    requires Sorted(kvs) && k <= |kvs|
    requires forall i | 0 <= i < k :: Leq(kvs[i].key, kv.key)
    requires forall i | k <= i < |kvs| :: Leq(kv.key, kvs[i].key)
    ensures Sorted(kvs[..k] + [kv] + kvs[k..])
  {
    hide Leq;
    LeqTotal(kv.key, kv.key);
    var r := kvs[..k] + [kv] + kvs[k..];
    assert forall i | 0 <= i < |r| :: r[i] == if i < k then kvs[i] else if i == k then kv else kvs[i - 1];
  }

  /** A sort by key; equal keys may come out in any order. */
  method SortByKey(kvs: seq<KeyValue>) returns (r: seq<KeyValue>)
    ensures Sorted(r) && multiset(r) == multiset(kvs)
  {
    r := [];
    var k := 0;
    while k < |kvs|
      invariant k <= |kvs| && Sorted(r) && multiset(r) == multiset(kvs[..k])
    {
      assert kvs[..k + 1] == kvs[..k] + [kvs[k]];
      r := Insert(r, kvs[k]);
      k := k + 1;
    }
    assert kvs[..k] == kvs;
  }

  /** The lines are those of the pairs, put in some order. */
  ghost predicate OutputOf(lines: seq<Line>, kvs: seq<KeyValue>, reducef: Reducef) {
    exists pairs: seq<KeyValue> :: multiset(pairs) == multiset(kvs) && IsOutput(lines, pairs, reducef)
  }

  // ---- The sequential program ----------------------------------------------

  /** Everything the map phase emits, input after input. */
  function Emitted(mapf: Mapf, inputs: seq<Input>): seq<KeyValue> {
    if inputs == [] then []
    else Emitted(mapf, inputs[..|inputs| - 1]) + mapf(inputs[|inputs| - 1].name, inputs[|inputs| - 1].contents)
  }

  method Sequential(mapf: Mapf, reducef: Reducef, inputs: seq<Input>)
    returns (lines: seq<Line>)
    ensures OutputOf(lines, Emitted(mapf, inputs), reducef)
  {
    var intermediate := [];
    var k := 0;
    while k < |inputs|
      invariant k <= |inputs| && intermediate == Emitted(mapf, inputs[..k])
    {
      assert inputs[..k + 1][..k] == inputs[..k];
      intermediate := intermediate + mapf(inputs[k].name, inputs[k].contents);
      k := k + 1;
    }
    assert inputs[..k] == inputs;
    var ordered := SortByKey(intermediate);
    lines := ReduceSorted(ordered, reducef);
  }

  // ---- The workers ---------------------------------------------------------

  /** The names reported, and what was written under each. */
  method MapWork(id: nat, input: Input, n: nat, mapf: Mapf, partition: string -> nat)
    returns (names: seq<string>, files: seq<seq<KeyValue>>)
    requires n >= 1
    ensures names == Coordinator.MapFiles(id, n) && |files| == n
    ensures forall r | 0 <= r < n :: files[r] == Bucket(mapf(input.name, input.contents), partition, n, r)
  {
    var kva := mapf(input.name, input.contents);
    names := [];
    var i := 0;
    while i < n
      invariant i <= n && names == Coordinator.MapFiles(id, i)
    {
      names := names + ["mr-" + Itoa(id) + "-" + Itoa(i)];
      i := i + 1;
    }
    files := Partition(kva, partition, n);
  }

  method ReduceWork(names: seq<string>, content: string -> seq<KeyValue>, reducef: Reducef)
    returns (lines: seq<Line>)
    ensures OutputOf(lines, ReadAll(content, names), reducef)
  {
    var intermediates := [];
    var k := 0;
    while k < |names|
      invariant k <= |names| && intermediates == ReadAll(content, names[..k])
    {
      assert names[..k + 1][..k] == names[..k];
      intermediates := intermediates + content(names[k]);
      k := k + 1;
    }
    assert names[..k] == names;
    var ordered := SortByKey(intermediates);
    lines := ReduceSorted(ordered, reducef);
  }

  // ---- The job -------------------------------------------------------------

  /** Every map worker wrote its pairs, split by reduce task. */
  ghost predicate Written(content: string -> seq<KeyValue>, mapf: Mapf, inputs: seq<Input>,
                          partition: string -> nat, n: nat)
    requires n >= 1
  {
    forall m: nat, r: nat | m < |inputs| && r < n ::
      content(Name(m, r)) == Bucket(mapf(inputs[m].name, inputs[m].contents), partition, n, r)
  }

  /** The files of reduce task r hold its share of everything emitted. */
  lemma {:induction false} FilesArePart(content: string -> seq<KeyValue>, mapf: Mapf, inputs: seq<Input>,
                                        partition: string -> nat, n: nat, r: nat)
    requires n >= 1 && r < n && Written(content, mapf, inputs, partition, n)
    ensures IsPart(Emitted(mapf, inputs), ReadAll(content, Coordinator.NamesFor(Coordinator.UpTo(|inputs|), r)),
                   partition, n, r)
  {
    if inputs != [] {
      var k := |inputs| - 1;
      var names := Coordinator.NamesFor(Coordinator.UpTo(|inputs|), r);
      assert names[..k] == Coordinator.NamesFor(Coordinator.UpTo(k), r);
      forall m: nat, q: nat | m < k && q < n
        ensures content(Name(m, q)) ==
                Bucket(mapf(inputs[..k][m].name, inputs[..k][m].contents), partition, n, q)
      {
        assert inputs[..k][m] == inputs[m];
      }
      FilesArePart(content, mapf, inputs[..k], partition, n, r);
      var kvs := mapf(inputs[k].name, inputs[k].contents);
      assert content(Name(k, r)) == Bucket(kvs, partition, n, r);
      forall kv ensures multiset(Bucket(kvs, partition, n, r))[kv] ==
                        if Belongs(kv.key, partition, n, r) then multiset(kvs)[kv] else 0
      {
        BucketCount(kvs, partition, n, r, kv);
      }
    }
  }

  /**
   * In any run of the coordinator, with late reports, timeouts and tasks done
   * again: if each reduce task's output was made from the files it was given,
   * all of them together are the sequential program's lines.
   */
  lemma JobIsSequential(ss: seq<Coordinator.System>, at: seq<nat>,
                        content: string -> seq<KeyValue>, mapf: Mapf, reducef: Reducef, inputs: seq<Input>,
                        partition: string -> nat, outs: seq<seq<Line>>, sequential: seq<Line>)
    requires Coordinator.IsRun(ss) && |ss[0].c.maps| == |inputs|
    requires |at| == |outs| == |ss[0].c.reduces| >= 1
    requires Written(content, mapf, inputs, partition, |at|) && OrderInsensitive(reducef)
    requires forall r | 0 <= r < |at| :: at[r] < |ss| && Coordinator.Ranged(ss[at[r]].c)
    requires forall r | 0 <= r < |at| :: MadeFrom(ss[at[r]].c, r, content, reducef, outs[r])
    requires OutputOf(sequential, Emitted(mapf, inputs), reducef)
    ensures multiset(Concat(outs)) == multiset(sequential)
  {
    hide IsOutput, Written, OrderInsensitive, Coordinator.IsRun, Coordinator.GetTask, Coordinator.Ranged;
    var n := |at|;
    var all: seq<KeyValue> :|
      multiset(all) == multiset(Emitted(mapf, inputs)) && IsOutput(sequential, all, reducef);
    var parts: seq<seq<KeyValue>> := [];
    while |parts| < n
      invariant |parts| <= n
      invariant forall r | 0 <= r < |parts| ::
                  IsPart(all, parts[r], partition, n, r) && IsOutput(outs[r], parts[r], reducef)
    {
      var part := PartOf(ss, at[|parts|], |parts|, content, mapf, reducef, inputs, partition, n, outs[|parts|], all);
      parts := parts + [part];
    }
    DistributedIsSequential(all, sequential, parts, outs, partition, n, reducef);
  }

  /** The coordinator gives out reduce task r in c, and out is made from its files. */
  ghost predicate MadeFrom(c: Coordinator.Coord, r: nat, content: string -> seq<KeyValue>, reducef: Reducef,
                           out: seq<Line>)
    requires Coordinator.Ranged(c)
  {
    var reply := Coordinator.GetTask(c).1;
    && reply.Task? && reply.kind == Coordinator.Reduce && reply.id == r
    && OutputOf(out, ReadAll(content, reply.files), reducef)
  }

  lemma PartOf(ss: seq<Coordinator.System>, k: nat, r: nat, content: string -> seq<KeyValue>, mapf: Mapf,
               reducef: Reducef, inputs: seq<Input>, partition: string -> nat, n: nat, out: seq<Line>,
               all: seq<KeyValue>) returns (part: seq<KeyValue>)
    requires Coordinator.IsRun(ss) && |ss[0].c.maps| == |inputs| && k < |ss| && r < n
    requires Written(content, mapf, inputs, partition, n)
    requires Coordinator.Ranged(ss[k].c) && MadeFrom(ss[k].c, r, content, reducef, out)
    requires multiset(all) == multiset(Emitted(mapf, inputs))
    ensures IsPart(all, part, partition, n, r) && IsOutput(out, part, reducef)
  {
    hide IsOutput, Written, Coordinator.IsRun, Coordinator.GetTask;
    var files := Coordinator.GetTask(ss[k].c).1.files;
    part :| multiset(part) == multiset(ReadAll(content, files)) && IsOutput(out, part, reducef);
    Coordinator.ReduceInputs(ss, k);
    Coordinator.CompletedStays(ss, 0, k);
    ReadPermuted(content, files, Coordinator.NamesFor(Coordinator.UpTo(|inputs|), r));
    FilesArePart(content, mapf, inputs, partition, n, r);
  }
}
