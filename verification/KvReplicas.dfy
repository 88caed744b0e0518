/** Whole lives of replicas of the key/value machine. */
module KvReplicas {
  import opened KvMachine

  /** A replica's life: requests, and snapshots it takes or is restored from. */
  datatype Event = Perform(req: Request) | Reinstall

  function RequestsOf(events: seq<Event>): seq<Request> {
    if events == [] then []
    else
      var rest := RequestsOf(events[..|events| - 1]);
      match events[|events| - 1]
      case Perform(req) => rest + [req]
      case Reinstall => rest
  }

  /** The state and the replies of a replica that starts empty. */
  function Live(events: seq<Event>): (State, seq<Reply>) {
    if events == [] then (Empty, [])
    else
      var (s, replies) := Live(events[..|events| - 1]);
      match events[|events| - 1]
      case Perform(req) => (DoOp(s, req).0, replies + [DoOp(s, req).1])
      case Reinstall => (Restore(Snapshot(s)), replies)
  }

  /** The replies of the machine that never forgets. */
  function RefReplies(log: seq<Request>): seq<Reply> {
    if log == [] then []
    else RefReplies(log[..|log| - 1]) + [RefOp(RefRun(log[..|log| - 1]), log[|log| - 1]).1]
  }

  /**
   * Bounded duplicate tables, trimmed on use and whenever a snapshot is taken
   * or restored, answer like unlimited ones, for every interleaving.
   */
  lemma {:induction false} BoundedIsUnbounded(events: seq<Event>)
    requires Windowed(RequestsOf(events))
    ensures Live(events).1 == RefReplies(RequestsOf(events))
    ensures Live(events).0.cache == RefRun(RequestsOf(events)).cache
    ensures Sim(Live(events).0, RefRun(RequestsOf(events)))
  {
    hide Sim, InWindow, DoOp, RefOp, Snapshot;
    if events == [] {
      SimEmpty();
    } else {
      var before := events[..|events| - 1];
      var log := RequestsOf(before);
      match events[|events| - 1]
      case Perform(req) =>
        assert (log + [req])[..|log|] == log;
        BoundedIsUnbounded(before);
        DoOpSim(Live(before).0, RefRun(log), req);
      case Reinstall =>
        BoundedIsUnbounded(before);
        SnapshotSim(Live(before).0, RefRun(log));
    }
    SimCache(Live(events).0, RefRun(RequestsOf(events)));
  }

  lemma SimCache(s: State, u: Ref)
    requires Sim(s, u)
    ensures s.cache == u.cache
  {
  }

  /** Replicas that snapshot at different points never diverge. */
  lemma NeverDiverge(a: seq<Event>, b: seq<Event>)
    requires RequestsOf(a) == RequestsOf(b) && Windowed(RequestsOf(a))
    ensures Live(a).1 == Live(b).1 && Live(a).0.cache == Live(b).0.cache
  {
    BoundedIsUnbounded(a);
    BoundedIsUnbounded(b);
  }

  // ---- States that stand for a log -----------------------------------------

  /** s is what requests and reinstallations make of exactly these requests. */
  ghost predicate Represents(s: State, log: seq<Request>) {
    exists events: seq<Event> :: RequestsOf(events) == log && Live(events).0 == s
  }

  lemma RepresentsEmpty()
    ensures Represents(Empty, [])
  {
    assert RequestsOf([]) == [] && Live([]).0 == Empty;
  }

  lemma RepresentsOp(s: State, log: seq<Request>, req: Request)
    requires Represents(s, log)
    ensures Represents(DoOp(s, req).0, log + [req])
  {
    hide DoOp, Snapshot;
    var events: seq<Event> :| RequestsOf(events) == log && Live(events).0 == s;
    var more := events + [Perform(req)];
    assert more[..|more| - 1] == events;
    assert RequestsOf(more) == log + [req] && Live(more).0 == DoOp(s, req).0;
  }

  lemma RepresentsRestore(s: State, log: seq<Request>)
    requires Represents(s, log)
    ensures Represents(Restore(Snapshot(s)), log)
  {
    hide DoOp, Snapshot;
    var events: seq<Event> :| RequestsOf(events) == log && Live(events).0 == s;
    var more := events + [Reinstall];
    assert more[..|more| - 1] == events;
    assert RequestsOf(more) == log && Live(more).0 == Restore(Snapshot(s));
  }

  /** Inside the window such a state is the unlimited machine's, and so is its next reply. */
  lemma RepresentsSees(s: State, log: seq<Request>, req: Request)
    requires Represents(s, log) && Windowed(log + [req])
    ensures s.cache == RefRun(log).cache && DoOp(s, req).1 == RefOp(RefRun(log), req).1
  {
    var events: seq<Event> :| RequestsOf(events) == log && Live(events).0 == s;
    assert (log + [req])[..|log|] == log;
    BoundedIsUnbounded(events);
    DoOpSim(s, RefRun(log), req);
  }
}
