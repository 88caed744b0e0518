/** The coordinator object: the handlers of module Coordinator, in place. */
module CoordinatorServer {
  import opened FileNames
  import C = Coordinator

  class Coordinator {
    var mapsTaskList: seq<C.Status>
    var reduceTaskList: seq<C.Status>
    var mapChan: seq<nat>
    var reduceChan: seq<nat>
    var isAllMapWorkerFinished: bool
    var interFiles: map<nat, seq<string>>

    function Value(): C.Coord
      reads this
    {
      C.Coord(mapsTaskList, reduceTaskList, mapChan, reduceChan, isAllMapWorkerFinished, interFiles)
    }

    constructor (maps: seq<C.Status>, mapQueue: seq<nat>, reduces: seq<C.Status>, reduceQueue: seq<nat>)
      ensures Value() == C.Coord(maps, reduces, mapQueue, reduceQueue, false, map[])
    {
      mapsTaskList, mapChan, reduceTaskList, reduceChan := maps, mapQueue, reduces, reduceQueue;
      isAllMapWorkerFinished, interFiles := false, map[];
    }

    /** n idle tasks, queued in order; a send to a full queue that nobody reads never returns. */
    static method Enqueue(n: nat, slots: nat) returns (tasks: seq<C.Status>, queue: seq<nat>, stuck: bool)
      ensures stuck <==> n > slots
      ensures !stuck ==> tasks == seq(n, _ => C.Idle) && queue == C.UpTo(n)
    {
      var i := 0;
      tasks, queue, stuck := [], [], false;
      while i < n && !stuck
        invariant i <= n && !stuck ==> i <= slots && tasks == seq(i, _ => C.Idle) && queue == C.UpTo(i)
        invariant i <= n && (stuck ==> n > slots)
        decreases n - i, !stuck
      {
        if |queue| == slots {
          stuck := true;
        } else {
          tasks, queue := tasks + [C.Idle], queue + [i];
          i := i + 1;
        }
      }
    }

    /** One map task per input file; null when it hangs filling the map queue. */
    static method MakeCoordinator(files: nat, nReduce: nat) returns (c: Coordinator?)
      ensures c == null <==> files > C.MAP_SLOTS
      ensures c != null ==> fresh(c) && c.Value() == C.Make(files, nReduce)
    {
      var maps, mapQueue, stuck := Enqueue(files, C.MAP_SLOTS);
      if stuck { return null; }
      var reduces, reduceQueue, _ := Enqueue(nReduce, nReduce);
      c := new Coordinator(maps, mapQueue, reduces, reduceQueue);
    }

    static method Completed(tasks: seq<C.Status>) returns (all: bool)
      ensures all == C.AllCompleted(tasks)
    {
      all := true;
      var i := 0;
      while i < |tasks|
        invariant i <= |tasks| && all == forall k | 0 <= k < i :: tasks[k] == C.Completed
      {
        if tasks[i] != C.Completed { all := false; }
        i := i + 1;
      }
    }

    method GetTask() returns (reply: C.Reply)
      requires C.Ranged(Value())
      modifies this
      ensures (Value(), reply) == C.GetTask(old(Value()))
    {
      var mapsDone := Completed(mapsTaskList);
      var reducesDone := Completed(reduceTaskList);
      if mapsDone && reducesDone { return C.Finished; }
      if !isAllMapWorkerFinished {
        if |mapChan| != 0 {
          var id := mapChan[0];
          mapChan := mapChan[1..];
          mapsTaskList := mapsTaskList[id := C.InProcess];
          return C.Task(C.Map, id, []);
        }
        return C.Nothing;
      }
      if |reduceChan| != 0 {
        var id := reduceChan[0];
        reduceChan := reduceChan[1..];
        reduceTaskList := reduceTaskList[id := C.InProcess];
        return C.Task(C.Reduce, id, C.FilesFor(interFiles, id));
      }
      return C.Nothing;
    }

    method FinishedTask(kind: C.Kind, id: nat, files: seq<string>)
      requires C.Known(Value(), kind, id) && C.AllParse(files)
      modifies this
      ensures Value() == C.FinishedTask(old(Value()), kind, id, files)
    {
      if kind == C.Map {
        if mapsTaskList[id] == C.InProcess {
          mapsTaskList := mapsTaskList[id := C.Completed];
          var k := 0;
          while k < |files|
            invariant k <= |files| && interFiles == C.AddFiles(old(interFiles), files[..k])
            modifies `interFiles
          {
            assert files[..k + 1][..k] == files[..k];
            var reduceId := ReduceOf(files[k]);
            interFiles := interFiles[reduceId := C.FilesFor(interFiles, reduceId) + [files[k]]];
            k := k + 1;
          }
          assert files[..k] == files;
        }
      } else if reduceTaskList[id] == C.InProcess {
        reduceTaskList := reduceTaskList[id := C.Completed];
      }
    }

    method CheckFinished(kind: C.Kind, id: nat)
      requires C.Known(Value(), kind, id)
      modifies this
      ensures Value() == C.CheckFinished(old(Value()), kind, id)
    {
      if kind == C.Map {
        if mapsTaskList[id] == C.Completed { return; }
        mapsTaskList := mapsTaskList[id := C.Idle];
        mapChan := mapChan + [id];
      } else {
        if reduceTaskList[id] == C.Completed { return; }
        reduceTaskList := reduceTaskList[id := C.Idle];
        reduceChan := reduceChan + [id];
      }
    }

    method Done() returns (finished: bool)
      modifies this
      ensures (Value(), finished) == C.Done(old(Value()))
    {
      var mapAllFinished := Completed(mapsTaskList);
      isAllMapWorkerFinished := mapAllFinished;
      if !mapAllFinished { return false; }
      finished := Completed(reduceTaskList);
    }
  }
}
