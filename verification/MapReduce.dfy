/** What a MapReduce job computes, sequentially and split over workers. */
module MapReduce {

  datatype KeyValue = KeyValue(key: string, value: string)

  /** One line of a reduce output file. */
  datatype Line = Line(key: string, output: string)

  type Mapf = (string, string) -> seq<KeyValue>
  type Reducef = (string, seq<string>) -> string

  // ---- Sorting by key ------------------------------------------------------

  predicate Leq(a: string, b: string) {
    a == [] || (b != [] && (a[0] < b[0] || (a[0] == b[0] && Leq(a[1..], b[1..]))))
  }

  lemma {:induction false} LeqAntisymmetric(a: string, b: string)
    requires Leq(a, b) && Leq(b, a)
    ensures a == b
  {
    if a != [] && b != [] {
      LeqAntisymmetric(a[1..], b[1..]);
      assert a == [a[0]] + a[1..] && b == [b[0]] + b[1..];
    }
  }

  /** What any sort by key, stable or not, leaves behind. */
  ghost predicate Sorted(kvs: seq<KeyValue>) {
    forall i, j | 0 <= i <= j < |kvs| :: Leq(kvs[i].key, kvs[j].key)
  }

  // ---- Keys and values -----------------------------------------------------

  /** The values of one key, in order. */
  function Values(kvs: seq<KeyValue>, key: string): seq<string> {
    if kvs == [] then []
    else Values(kvs[..|kvs| - 1], key) +
         (if kvs[|kvs| - 1].key == key then [kvs[|kvs| - 1].value] else [])
  }

  ghost predicate HasKey(kvs: seq<KeyValue>, key: string) {
    exists i :: 0 <= i < |kvs| && kvs[i].key == key
  }

  lemma {:induction false} ValuesConcat(a: seq<KeyValue>, b: seq<KeyValue>, key: string)
    ensures Values(a + b, key) == Values(a, key) + Values(b, key)
  {
    if b == [] {
      assert a + b == a;
    } else {
      var n := |b| - 1;
      ValuesConcat(a, b[..n], key);
      assert (a + b)[..|a| + n] == a + b[..n];
    }
  }

  lemma {:induction false} ValuesNone(kvs: seq<KeyValue>, key: string)
    requires !HasKey(kvs, key)
    ensures Values(kvs, key) == []
  {
    if kvs != [] {
      var n := |kvs| - 1;
      forall i | 0 <= i < n ensures kvs[..n][i].key != key { assert kvs[i].key != key; }
      assert kvs[n].key != key;
      ValuesNone(kvs[..n], key);
    }
  }

  /** The values of a key, counted: as many as there are such pairs. */
  lemma {:induction false} ValuesCount(kvs: seq<KeyValue>, key: string, v: string)
    ensures multiset(Values(kvs, key))[v] == multiset(kvs)[KeyValue(key, v)]
  {
    if kvs != [] {
      var n := |kvs| - 1;
      ValuesCount(kvs[..n], key, v);
      assert kvs == kvs[..n] + [kvs[n]];
      assert multiset([kvs[n].value])[v] == if kvs[n].value == v then 1 else 0;
    }
  }

  lemma HasKeyMeans(kvs: seq<KeyValue>, key: string)
    ensures HasKey(kvs, key) <==> exists v :: KeyValue(key, v) in multiset(kvs)
  {
    if HasKey(kvs, key) {
      var i :| 0 <= i < |kvs| && kvs[i].key == key;
      assert kvs[i] in multiset(kvs) && kvs[i] == KeyValue(key, kvs[i].value);
    }
    if v :| KeyValue(key, v) in multiset(kvs) {
      assert KeyValue(key, v) in kvs;
    }
  }

  // ---- The reduce phase ----------------------------------------------------

  /** One line per key, with reducef applied to all of its values. */
  ghost predicate IsOutput(lines: seq<Line>, kvs: seq<KeyValue>, reducef: Reducef) {
    && (forall i, j | 0 <= i < j < |lines| :: lines[i].key != lines[j].key)
    && (forall i | 0 <= i < |lines| ::
          HasKey(kvs, lines[i].key) && lines[i].output == reducef(lines[i].key, Values(kvs, lines[i].key)))
    && (forall k | 0 <= k < |kvs| :: HasLine(lines, kvs[k].key))
  }

  ghost predicate HasLine(lines: seq<Line>, key: string) {
    exists i :: 0 <= i < |lines| && lines[i].key == key
  }

  /** The keys of a sorted list up to i do not come back from i on. */
  ghost predicate Cut(kvs: seq<KeyValue>, i: nat)
    requires i <= |kvs|
  {
    forall a, b | 0 <= a < i <= b < |kvs| :: kvs[a].key != kvs[b].key
  }

  /** A run of equal keys ends where the next key differs. */
  lemma RunIsCut(kvs: seq<KeyValue>, i: nat, j: nat)
    requires Sorted(kvs) && i < j <= |kvs| && Cut(kvs, i)
    requires forall k | i <= k < j :: kvs[k].key == kvs[i].key
    requires j < |kvs| ==> kvs[j].key != kvs[i].key
    ensures Cut(kvs, j)
  {
    forall a, b | 0 <= a < j <= b < |kvs| ensures kvs[a].key != kvs[b].key {
      if a >= i && kvs[a].key == kvs[b].key {
        assert Leq(kvs[a].key, kvs[j].key) && Leq(kvs[j].key, kvs[b].key);
        LeqAntisymmetric(kvs[i].key, kvs[j].key);
      }
    }
  }

  /** All values of the run's key are in the run. */
  lemma RunValues(kvs: seq<KeyValue>, i: nat, j: nat)
    requires i < j <= |kvs| && Cut(kvs, i) && Cut(kvs, j)
    requires forall k | i <= k < j :: kvs[k].key == kvs[i].key
    ensures Values(kvs, kvs[i].key) == Values(kvs[i..j], kvs[i].key)
  {
    hide Values, HasKey, Cut;
    NotOutside(kvs, i, j);
    OnlyInside(kvs[..i], kvs[i..j], kvs[j..], kvs[i].key);
    assert kvs == kvs[..i] + kvs[i..j] + kvs[j..];
  }

  lemma OnlyInside(a: seq<KeyValue>, b: seq<KeyValue>, c: seq<KeyValue>, key: string)
    requires !HasKey(a, key) && !HasKey(c, key)
    ensures Values(a + b + c, key) == Values(b, key)
  {
    hide Values;
    ValuesNone(a, key);
    ValuesNone(c, key);
    ValuesConcat(a, b, key);
    ValuesConcat(a + b, c, key);
  }

  lemma NotOutside(kvs: seq<KeyValue>, i: nat, j: nat)
    requires i < j <= |kvs| && Cut(kvs, i) && Cut(kvs, j) && kvs[j - 1].key == kvs[i].key
    ensures !HasKey(kvs[..i], kvs[i].key) && !HasKey(kvs[j..], kvs[i].key)
  {
    forall b | 0 <= b < |kvs| - j ensures kvs[j..][b].key != kvs[i].key {
      assert kvs[j..][b] == kvs[j + b] && kvs[j - 1].key != kvs[j + b].key;
    }
  }

  /** Collecting the run's values one by one. */
  method Collect(kvs: seq<KeyValue>, i: nat, j: nat) returns (values: seq<string>)
    requires i < j <= |kvs| && forall k | i <= k < j :: kvs[k].key == kvs[i].key
    ensures values == Values(kvs[i..j], kvs[i].key)
  {
    values := [];
    var k := i;
    while k < j
      invariant i <= k <= j && values == Values(kvs[i..k], kvs[i].key)
    {
      assert kvs[i..k + 1][..k - i] == kvs[i..k];
      values := values + [kvs[k].value];
      k := k + 1;
    }
  }

  /** The lines so far are the output for the pairs so far. */
  ghost predicate Progress(lines: seq<Line>, kvs: seq<KeyValue>, i: nat, reducef: Reducef)
    requires i <= |kvs|
  {
    && (forall a, b | 0 <= a < b < |lines| :: lines[a].key != lines[b].key)
    && (forall a | 0 <= a < |lines| ::
          HasKey(kvs[..i], lines[a].key) && lines[a].output == reducef(lines[a].key, Values(kvs, lines[a].key)))
    && (forall k | 0 <= k < i :: HasLine(lines, kvs[k].key))
  }

  lemma NextLine(lines: seq<Line>, kvs: seq<KeyValue>, i: nat, j: nat, reducef: Reducef, line: Line)
    requires i < j <= |kvs| && Progress(lines, kvs, i, reducef) && Cut(kvs, i)
    requires forall k | i <= k < j :: kvs[k].key == kvs[i].key
    requires line == Line(kvs[i].key, reducef(kvs[i].key, Values(kvs, kvs[i].key)))
    ensures Progress(lines + [line], kvs, j, reducef)
  {
    var next := lines + [line];
    forall a | 0 <= a < |lines| ensures lines[a].key != line.key && HasKey(kvs[..j], lines[a].key) {
      assert HasKey(kvs[..i], lines[a].key);
      var b :| 0 <= b < i && kvs[..i][b].key == lines[a].key;
      assert kvs[b].key != kvs[i].key && kvs[..j][b].key == lines[a].key;
    }
    assert kvs[..j][i].key == line.key;
    forall k | 0 <= k < j ensures HasLine(next, kvs[k].key) {
      if k < i {
        assert HasLine(lines, kvs[k].key);
        var a :| 0 <= a < |lines| && lines[a].key == kvs[k].key;
        assert next[a].key == kvs[k].key;
      } else {
        assert next[|lines|].key == kvs[k].key;
      }
    }
  }

  /** The grouping loop shared by the reduce workers and the sequential program. */
  method ReduceSorted(kvs: seq<KeyValue>, reducef: Reducef) returns (lines: seq<Line>)
    requires Sorted(kvs)
    ensures IsOutput(lines, kvs, reducef)
  {
    lines := [];
    var i := 0;
    while i < |kvs|
      invariant i <= |kvs| && Cut(kvs, i) && Progress(lines, kvs, i, reducef)
    {
      var j := i + 1;
      while j < |kvs| && kvs[j].key == kvs[i].key
        invariant i < j <= |kvs| && forall k | i <= k < j :: kvs[k].key == kvs[i].key
      {
        j := j + 1;
      }
      RunIsCut(kvs, i, j);
      var values := Collect(kvs, i, j);
      RunValues(kvs, i, j);
      var line := Line(kvs[i].key, reducef(kvs[i].key, values));
      NextLine(lines, kvs, i, j, reducef, line);
      lines := lines + [line];
      i := j;
    }
    assert kvs[..i] == kvs;
  }

  // ---- The map phase -------------------------------------------------------

  /** The pair goes to reduce task r. */
  predicate Belongs(key: string, partition: string -> nat, n: nat, r: nat)
    requires n >= 1
  {
    partition(key) % n == r
  }

  /** The pairs a map worker writes for reduce task r, in the order emitted. */
  function Bucket(kvs: seq<KeyValue>, partition: string -> nat, n: nat, r: nat): seq<KeyValue>
    requires n >= 1
  {
    if kvs == [] then []
    else Bucket(kvs[..|kvs| - 1], partition, n, r) +
         (if Belongs(kvs[|kvs| - 1].key, partition, n, r) then [kvs[|kvs| - 1]] else [])
  }

  method Partition(kva: seq<KeyValue>, partition: string -> nat, n: nat) returns (files: seq<seq<KeyValue>>)
    requires n >= 1
    ensures |files| == n && forall r | 0 <= r < n :: files[r] == Bucket(kva, partition, n, r)
  {
    files := seq(n, _ => []);
    var k := 0;
    while k < |kva|
      invariant k <= |kva| && |files| == n
      invariant forall r | 0 <= r < n :: files[r] == Bucket(kva[..k], partition, n, r)
    {
      assert kva[..k + 1][..k] == kva[..k];
      var i := partition(kva[k].key) % n;
      files := files[i := files[i] + [kva[k]]];
      k := k + 1;
    }
    assert kva[..k] == kva;
  }

  lemma {:induction false} BucketCount(kvs: seq<KeyValue>, partition: string -> nat, n: nat, r: nat, kv: KeyValue)
    requires n >= 1
    ensures multiset(Bucket(kvs, partition, n, r))[kv] ==
            if Belongs(kv.key, partition, n, r) then multiset(kvs)[kv] else 0
  {
    hide Belongs;
    if kvs != [] {
      var m := |kvs| - 1;
      BucketCount(kvs[..m], partition, n, r, kv);
      assert kvs == kvs[..m] + [kvs[m]];
    }
  }

  // ---- Reading several files -----------------------------------------------

  /** What a reader of the named files gets. */
  function ReadAll(content: string -> seq<KeyValue>, names: seq<string>): seq<KeyValue> {
    if names == [] then [] else ReadAll(content, names[..|names| - 1]) + content(names[|names| - 1])
  }

  lemma {:induction false} ReadWithout(content: string -> seq<KeyValue>, names: seq<string>, i: nat)
    requires i < |names|
    ensures multiset(ReadAll(content, names)) ==
            multiset(ReadAll(content, names[..i] + names[i + 1..])) + multiset(content(names[i]))
  {
    var n := |names| - 1;
    if i < n {
      ReadWithout(content, names[..n], i);
      assert names[..n][..i] + names[..n][i + 1..] == (names[..i] + names[i + 1..])[..n - 1];
    } else {
      assert names[..i] + names[i + 1..] == names[..n];
    }
  }

  /** The order in which files are read does not matter to the pairs read. */
  lemma {:induction false} ReadPermuted(content: string -> seq<KeyValue>, a: seq<string>, b: seq<string>)
    requires multiset(a) == multiset(b)
    ensures multiset(ReadAll(content, a)) == multiset(ReadAll(content, b))
    decreases |a|
  {
    assert |multiset(a)| == |a| && |multiset(b)| == |b|;
    if a != [] {
      var n := |a| - 1;
      assert a == a[..n] + [a[n]];
      assert a[n] in multiset(b);
      var i :| 0 <= i < |b| && b[i] == a[n];
      assert b == b[..i] + [b[i]] + b[i + 1..];
      var rest := b[..i] + b[i + 1..];
      assert multiset(rest) == multiset(b) - multiset{b[i]};
      ReadPermuted(content, a[..n], rest);
      ReadWithout(content, b, i);
    }
  }

  // ---- Distributed equals sequential ---------------------------------------

  ghost predicate OrderInsensitive(reducef: Reducef) {
    forall key, v, w | multiset(v) == multiset(w) :: reducef(key, v) == reducef(key, w)
  }

  function Concat(outs: seq<seq<Line>>): seq<Line> {
    if outs == [] then [] else Concat(outs[..|outs| - 1]) + outs[|outs| - 1]
  }

  /** part holds exactly the pairs of all whose key belongs to reduce task r. */
  ghost predicate IsPart(all: seq<KeyValue>, part: seq<KeyValue>, partition: string -> nat, n: nat, r: nat)
    requires n >= 1
  {
    forall kv :: multiset(part)[kv] == if Belongs(kv.key, partition, n, r) then multiset(all)[kv] else 0
  }

  lemma SameValues(all: seq<KeyValue>, part: seq<KeyValue>, partition: string -> nat, n: nat, r: nat,
                   key: string, reducef: Reducef)
    requires n >= 1 && IsPart(all, part, partition, n, r) && partition(key) % n == r
    requires OrderInsensitive(reducef)
    ensures HasKey(part, key) <==> HasKey(all, key)
    ensures reducef(key, Values(part, key)) == reducef(key, Values(all, key))
  {
    HasKeyMeans(part, key);
    HasKeyMeans(all, key);
    assert forall v :: KeyValue(key, v) in multiset(part) <==> KeyValue(key, v) in multiset(all);
    forall v ensures multiset(Values(part, key))[v] == multiset(Values(all, key))[v] {
      ValuesCount(part, key, v);
      ValuesCount(all, key, v);
    }
    assert multiset(Values(part, key)) == multiset(Values(all, key));
  }

  /** A key of a part belongs to it. */
  lemma PartKey(all: seq<KeyValue>, part: seq<KeyValue>, partition: string -> nat, n: nat, r: nat, key: string)
    requires n >= 1 && IsPart(all, part, partition, n, r) && HasKey(part, key)
    ensures partition(key) % n == r
  {
    HasKeyMeans(part, key);
    var v :| KeyValue(key, v) in multiset(part);
    assert multiset(part)[KeyValue(key, v)] > 0;
  }

  /** The line of a key, if the key is there: the same in its part and in the whole. */
  ghost predicate IsLine(all: seq<KeyValue>, reducef: Reducef, l: Line) {
    HasKey(all, l.key) && l.output == reducef(l.key, Values(all, l.key))
  }

  /** An output holds every line of its pairs once, and nothing else. */
  lemma OutputCounts(lines: seq<Line>, kvs: seq<KeyValue>, reducef: Reducef, l: Line)
    requires IsOutput(lines, kvs, reducef)
    ensures multiset(lines)[l] == if IsLine(kvs, reducef, l) then 1 else 0
  {
    Distinct(lines, l);
    if IsLine(kvs, reducef, l) {
      var k :| 0 <= k < |kvs| && kvs[k].key == l.key;
      assert HasLine(lines, kvs[k].key);
      var i :| 0 <= i < |lines| && lines[i].key == l.key;
      assert lines[i] == l;
    }
  }

  lemma {:induction false} Distinct(lines: seq<Line>, l: Line)
    requires forall i, j | 0 <= i < j < |lines| :: lines[i].key != lines[j].key
    ensures multiset(lines)[l] == if l in lines then 1 else 0
  {
    if lines != [] {
      var n := |lines| - 1;
      Distinct(lines[..n], l);
      assert lines == lines[..n] + [lines[n]];
    }
  }

  lemma {:induction false} PartsCount(all: seq<KeyValue>, parts: seq<seq<KeyValue>>, outs: seq<seq<Line>>,
                                      partition: string -> nat, n: nat, reducef: Reducef, l: Line)
    requires n >= 1 && |parts| == |outs| <= n && OrderInsensitive(reducef)
    requires forall r | 0 <= r < |parts| ::
               IsPart(all, parts[r], partition, n, r) && IsOutput(outs[r], parts[r], reducef)
    ensures multiset(Concat(outs))[l] ==
            if IsLine(all, reducef, l) && partition(l.key) % n < |outs| then 1 else 0
  {
    if outs != [] {
      var r := |outs| - 1;
      PartsCount(all, parts[..r], outs[..r], partition, n, reducef, l);
      OutputCounts(outs[r], parts[r], reducef, l);
      PartLine(all, parts[r], partition, n, r, reducef, l);
    }
  }

  lemma PartLine(all: seq<KeyValue>, part: seq<KeyValue>, partition: string -> nat, n: nat, r: nat,
                 reducef: Reducef, l: Line)
    requires n >= 1 && IsPart(all, part, partition, n, r) && OrderInsensitive(reducef)
    ensures IsLine(part, reducef, l) <==> IsLine(all, reducef, l) && partition(l.key) % n == r
  {
    if partition(l.key) % n == r {
      SameValues(all, part, partition, n, r, l.key, reducef);
    } else if HasKey(part, l.key) {
      PartKey(all, part, partition, n, r, l.key);
    }
  }

  /**
   * The lines of all reduce tasks together are the lines of the sequential
   * program, for every partition function and number of reduce tasks.
   */
  lemma DistributedIsSequential(all: seq<KeyValue>, sequential: seq<Line>,
                                parts: seq<seq<KeyValue>>, outs: seq<seq<Line>>,
                                partition: string -> nat, n: nat, reducef: Reducef)
    requires n >= 1 && |parts| == |outs| == n && OrderInsensitive(reducef)
    requires IsOutput(sequential, all, reducef)
    requires forall r | 0 <= r < n ::
               IsPart(all, parts[r], partition, n, r) && IsOutput(outs[r], parts[r], reducef)
    ensures multiset(Concat(outs)) == multiset(sequential)
  {
    forall l ensures multiset(Concat(outs))[l] == multiset(sequential)[l] {
      PartsCount(all, parts, outs, partition, n, reducef, l);
      OutputCounts(sequential, all, reducef, l);
    }
  }
}
