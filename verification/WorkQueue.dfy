/**
 The locked blocks of the two executors as an object: a session's queue
 (SessionExecutor) and a model's queue (EngineExecutor) work alike.  The steps
 are those of module Scheduler; the histories are ghost fields.
 */
module WorkQueue {

  import opened Scheduler
  import opened Options

  class TaskQueue {
    var pending: seq<Request>
    var running: bool
    ghost var accepted: seq<Request>
    ghost var taken: seq<Request>

    ghost function Value(): Queue
      reads this
    {
      Queue(pending, running, accepted, taken)
    }

    /** Nothing is lost, and work waits only while someone is responsible for it. */
    ghost predicate Valid()
      reads this
    {
      accepted == taken + pending && (pending != [] ==> running)
    }

    constructor ()
      ensures Valid() && Value() == Fresh()
    {
      pending, running, accepted, taken := [], false, [], [];
    }

    /** Submit: a full queue rejects; the caller that finds nobody responsible must schedule a drain. */
    method Submit(r: Request, cap: nat) returns (ok: bool, needSchedule: bool)
      requires Valid()
      modifies this
      ensures Valid() && Value() == Offer(old(Value()), r, cap)
      ensures ok == (|old(pending)| < cap) && needSchedule == (ok && !old(running))
    {
      needSchedule := false;
      if |pending| >= cap {
        return false, false;
      }
      pending := pending + [r];
      accepted := accepted + [r];
      if !running {
        running := true;
        needSchedule := true;
      }
      return true, needSchedule;
    }

    /** The head of the drain loop: the next task, or none. */
    method Take() returns (task: Option<Request>)
      requires Valid()
      modifies this
      ensures Valid() && Value() == TakeNext(old(Value()))
      ensures task == if old(pending) == [] then None else Some(old(pending)[0])
    {
      if pending == [] {
        running := false;
        return None;
      }
      task := Some(pending[0]);
      taken := taken + [pending[0]];
      pending := pending[1..];
    }

    /** The submissions of other threads while a task runs; none of them is told to schedule a drain. */
    method Arrivals(rs: seq<Request>, cap: nat)
      requires Valid() && running
      modifies this
      ensures Valid() && running && taken == old(taken) && |pending| <= |old(pending)| + |rs|
      ensures |old(accepted)| <= |accepted| && accepted[..|old(accepted)|] == old(accepted)
    {
      for i := 0 to |rs|
        invariant Valid() && running && taken == old(taken) && |pending| <= |old(pending)| + i
        invariant |old(accepted)| <= |accepted| && accepted[..|old(accepted)|] == old(accepted)
      {
        var _, needSchedule := Submit(rs[i], cap);
        assert !needSchedule;
      }
    }

    /** Drain: whatever arrives meanwhile, the one drain executes everything accepted, in order and once, and only
        then gives its responsibility up. */
    method Drain(arrivals: seq<seq<Request>>, cap: nat) returns (executed: seq<Request>)
      requires Valid() && running
      modifies this
      ensures Valid() && !running && pending == []
      ensures taken == old(taken) + executed == accepted
      ensures |old(accepted)| <= |accepted| && accepted[..|old(accepted)|] == old(accepted)
    {
      executed := [];
      var n := 0;
      while true
        invariant Valid() && running && n <= |arrivals| && taken == old(taken) + executed
        invariant |old(accepted)| <= |accepted| && accepted[..|old(accepted)|] == old(accepted)
        decreases |arrivals| - n, |pending|
      {
        var task := Take();
        if task.None? {
          return;
        }
        executed := executed + [task.value];
        if n < |arrivals| {
          Arrivals(arrivals[n], cap);
          n := n + 1;
        }
      }
    }
  }
}
