/** What the scheduler guarantees over whole runs. */
module SchedulerTheorems {

  import opened Tally
  import opened Scheduler
  import opened Reasons
  import opened Options
  import opened SchedulerInvariant

  // ---------------------------------------------------------------- every reachable state

  lemma InitKeeps(cap: Key -> nat, workers: nat)
    ensures Inv(cap, Init(workers))
  {
    hide JourneysOk, TokensOk, LocatedOk, FinishesOk;
    InitJourneys(workers);
    InitOthers(workers);
  }

  lemma InitJourneys(workers: nat)
    ensures var s := Init(workers); JourneysOk(s.threads, s.queues, s.arrived)
  {
    SumEmpty(Init(workers).threads, Submitting);
    SumEmpty(Init(workers).threads, Forwarding);
  }

  lemma InitOthers(workers: nat)
    ensures var s := Init(workers);
      && TokensOk(s.threads, s.pool, s.queues) && LocatedOk(s.threads, s.queues, s.finished, s.arrived)
      && FinishesOk(s.threads, s.log, s.finished, s.arrived)
  {
    hide TokensOk;
    InitTokens(workers);
    SumEmpty(Init(workers).threads, Recording);
    SumEmpty(Init(workers).threads, Holding);
  }

  lemma InitTokens(workers: nat)
    ensures var s := Init(workers); TokensOk(s.threads, s.pool, s.queues)
  {
    SumEmpty(Init(workers).threads, Carry);
  }

  lemma {:induction false} RunKeeps(cap: Key -> nat, s: State, ls: seq<Label>)
    requires Inv(cap, s) && Legal(cap, s, ls)
    ensures Inv(cap, After(cap, s, ls))
    ensures After(cap, s, ls).workers == s.workers
    decreases |ls|
  {
    hide Inv;
    if ls != [] {
      StepKeeps(cap, s, ls[0]);
      RunKeeps(cap, Apply(cap, s, ls[0]), ls[1..]);
    }
  }

  /** The drain-token invariant, and all that rests on it, holds in every reachable state. */
  lemma ReachableKeeps(cap: Key -> nat, workers: nat, ls: seq<Label>)
    requires Legal(cap, Init(workers), ls)
    ensures Inv(cap, After(cap, Init(workers), ls))
  {
    hide Inv;
    InitKeeps(cap, workers);
    RunKeeps(cap, Init(workers), ls);
  }

  // ---------------------------------------------------------------- exclusion and order

  /** At most one engine run is active per model, and at most one task per session. */
  lemma AtMostOnePerKey(cap: Key -> nat, workers: nat, ls: seq<Label>, i: nat, j: nat)
    requires Legal(cap, Init(workers), ls)
    requires var ts := After(cap, Init(workers), ls).threads; i < |ts| && j < |ts| && i != j && Own(ts[i]).Some?
    ensures var ts := After(cap, Init(workers), ls).threads; Own(ts[i]) != Own(ts[j])
    ensures var ts := After(cap, Init(workers), ls).threads;
      ts[i].EngineRun? && ts[j].EngineRun? ==> ts[i].r.model != ts[j].r.model
  {
    hide TokensOk, QueuesOk, JourneysOk, FinishesOk, LocatedOk, HandsOk, OrderOk, WorkersOk, Legal, After;
    ReachableKeeps(cap, workers, ls);
    var s := After(cap, Init(workers), ls);
    OwnerRuns(s.threads, s.pool, s.queues, i, Own(s.threads[i]).value);
  }

  lemma BeforePrefix<T>(xs: seq<T>, ys: seq<T>, x: T, y: T)
    requires Before(xs, x, y)
    ensures Before(xs + ys, x, y)
  {
    var i, j :| 0 <= i < j < |xs| && xs[i] == x && xs[j] == y;
    assert (xs + ys)[i] == x && (xs + ys)[j] == y;
  }

  /** In a sequence without repeats, order is strict. */
  lemma BeforeStrict<T>(xs: seq<T>, x: T, y: T)
    requires Before(xs, x, y) && multiset(xs)[x] <= 1 && multiset(xs)[y] <= 1
    ensures !Before(xs, y, x)
  {
    if Before(xs, y, x) {
      var i, j :| 0 <= i < j < |xs| && xs[i] == x && xs[j] == y;
      var p, q :| 0 <= p < q < |xs| && xs[p] == y && xs[q] == x;
      OnceAt(xs, i, q);
      OnceAt(xs, j, p);
    }
  }

  lemma OnceAt<T>(xs: seq<T>, i: nat, j: nat)
    requires i < |xs| && j < |xs| && xs[i] == xs[j] && multiset(xs)[xs[i]] <= 1
    ensures i == j
  {
    if i < j {
      TwiceCounts(xs, i, j);
    } else if j < i {
      TwiceCounts(xs, j, i);
    }
  }

  lemma TwiceCounts<T>(xs: seq<T>, i: nat, j: nat)
    requires i < j < |xs| && xs[i] == xs[j]
    ensures multiset(xs)[xs[i]] >= 2
  {
    assert xs == xs[..i] + [xs[i]] + xs[i + 1..j] + [xs[j]] + xs[j + 1..];
  }

  /** Requests of one session that name one model start there in the order their session accepted them. */
  lemma StartInSessionOrder(cap: Key -> nat, workers: nat, ls: seq<Label>, m: string, a: nat, b: nat)
    requires Legal(cap, Init(workers), ls)
    requires var started := Q(After(cap, Init(workers), ls).queues, ModelKey(m)).taken;
      a < b < |started| && started[a].session == started[b].session
    ensures var s := After(cap, Init(workers), ls);
      var started := Q(s.queues, ModelKey(m)).taken;
      var accepted := Q(s.queues, SessionKey(started[a].session)).accepted;
      Before(accepted, started[a], started[b]) && !Before(accepted, started[b], started[a])
  {
    hide TokensOk, JourneysOk, QueuesOk, FinishesOk, LocatedOk, HandsOk, OrderOk, WorkersOk, CountersOk, Legal,
      After, Before;
    ReachableKeeps(cap, workers, ls);
    var s := After(cap, Init(workers), ls);
    var started := Q(s.queues, ModelKey(m)).taken;
    OrderAccepted(cap, s, m, a, b);
    AcceptedOnce(s.threads, s.queues, s.arrived, started[a]);
    AcceptedOnce(s.threads, s.queues, s.arrived, started[b]);
    BeforeStrict(Q(s.queues, SessionKey(started[a].session)).accepted, started[a], started[b]);
  }

  lemma OrderAccepted(cap: Key -> nat, s: State, m: string, a: nat, b: nat)
    requires QueuesOk(cap, s.queues) && OrderOk(s.queues)
    requires var started := Q(s.queues, ModelKey(m)).taken;
      a < b < |started| && started[a].session == started[b].session
    ensures var started := Q(s.queues, ModelKey(m)).taken;
      Before(Q(s.queues, SessionKey(started[a].session)).accepted, started[a], started[b])
  {
    hide Before;
    var mq := Q(s.queues, ModelKey(m));
    assert QueueOk(cap, ModelKey(m), mq);
    assert mq.accepted[a] == mq.taken[a] && mq.accepted[b] == mq.taken[b];
    assert OrderOf(s.queues, mq.accepted);
    var sq := Q(s.queues, SessionKey(mq.taken[a].session));
    assert QueueOk(cap, SessionKey(mq.taken[a].session), sq);
    BeforePrefix(sq.taken, sq.pending, mq.taken[a], mq.taken[b]);
  }

  lemma AcceptedOnce(ts: seq<Pc>, qs: map<Key, Queue>, arrived: set<Request>, r: Request)
    requires JourneysOk(ts, qs, arrived)
    ensures multiset(Q(qs, SessionKey(r.session)).accepted)[r] <= 1
  {
    assert JourneyOf(ts, qs, arrived, r);
  }

  // ---------------------------------------------------------------- termination

  function ReturnWeight(ret: Return): nat {
    match ret
    case BackToTop(_) => 1
    case BackToCatchAll => 5
    case BackToWait => 3
    case Leave => 0
  }

  /** How many steps a thread may still cause, counting the work it will enqueue. */
  function Weight(pc: Pc): nat {
    match pc
    case Idle => 0
    case Top(_) => 1
    case Execute(_) => 16
    case Enqueue(_) => 15
    case ScheduleModel(_) => 4
    case Start(_) => 10
    case CheckCancel(_) => 9
    case EngineRun(_) => 8
    case CatchAll(_) => 5
    case CatchCancel(_) => 4
    case Finish(_, _, ret) => 2 + ReturnWeight(ret)
    case Record(_, _, ret) => 1 + ReturnWeight(ret)
    case Submit(_) => 23
    case ScheduleSession(_) => 6
    case Wait(_) => 3
    case Done => 0
  }

  function QueueWeight(k: Key, q: Queue): nat {
    if k.SessionKey? then 16 * |q.pending| else 10 * |q.pending|
  }

  ghost function Measure(s: State): nat {
    Weigh(s.threads, Weight) + 2 * |s.pool| + WeighMap(s.queues, QueueWeight) + 3 * |s.arrived - s.down|
  }

  predicate IsArrival(l: Label) { l.Arrive? || l.ArriveMalformed? }

  lemma QueueReweigh(qs: map<Key, Queue>, k: Key, q: Queue)
    ensures WeighMap(qs[k := q], QueueWeight) + QueueWeight(k, Q(qs, k))
      == WeighMap(qs, QueueWeight) + QueueWeight(k, q)
  {
    WeighMapUpdate(qs, QueueWeight, k, q);
  }

  lemma DrainDecreases(s: State, i: nat)
    requires i < |s.threads| && Active(s, s.threads[i]) && (s.threads[i].Idle? || s.threads[i].Top?)
    ensures Measure(DrainStep(s, i)) < Measure(s)
  {
    WeighUpdate(s.threads, Weight, i, DrainStep(s, i).threads[i]);
    if s.threads[i].Top? {
      QueueReweigh(s.queues, s.threads[i].key, TakeNext(Q(s.queues, s.threads[i].key)));
    }
  }

  lemma SessionTaskDecreases(cap: Key -> nat, s: State, i: nat)
    requires i < |s.threads| && (s.threads[i].Execute? || s.threads[i].Enqueue? || s.threads[i].ScheduleModel?)
    ensures Measure(SessionTaskStep(cap, s, i)) < Measure(s)
  {
    var t := SessionTaskStep(cap, s, i);
    WeighUpdate(s.threads, Weight, i, t.threads[i]);
    if s.threads[i].Enqueue? {
      var k := ModelKey(s.threads[i].r.model);
      QueueReweigh(s.queues, k, Offer(Q(s.queues, k), s.threads[i].r, cap(k)));
    }
  }

  lemma ModelTaskDecreases(s: State, i: nat, choice: Choice)
    requires i < |s.threads| && IsModelTask(s.threads[i])
    ensures Measure(ModelTaskStep(s, i, choice)) < Measure(s)
  {
    WeighUpdate(s.threads, Weight, i, ModelTaskStep(s, i, choice).threads[i]);
  }

  lemma FinishDecreases(s: State, i: nat)
    requires i < |s.threads| && (s.threads[i].Finish? || s.threads[i].Record?)
    ensures Measure(FinishStep(s, i)) < Measure(s)
  {
    WeighUpdate(s.threads, Weight, i, FinishStep(s, i).threads[i]);
  }

  lemma GatewayDecreases(cap: Key -> nat, s: State, i: nat)
    requires i < |s.threads| && Active(s, s.threads[i])
    requires s.threads[i].Submit? || s.threads[i].ScheduleSession? || s.threads[i].Wait?
    ensures Measure(GatewayStep(cap, s, i)) < Measure(s)
  {
    if s.threads[i].Submit? {
      SubmitDecreases(cap, s, i);
    } else {
      WeighUpdate(s.threads, Weight, i, GatewayStep(cap, s, i).threads[i]);
    }
  }

  lemma SubmitDecreases(cap: Key -> nat, s: State, i: nat)
    requires i < |s.threads| && s.threads[i].Submit?
    ensures Measure(GatewayStep(cap, s, i)) < Measure(s)
  {
    var k := SessionKey(s.threads[i].r.session);
    WeighUpdate(s.threads, Weight, i, GatewayStep(cap, s, i).threads[i]);
    QueueReweigh(s.queues, k, Offer(Q(s.queues, k), s.threads[i].r, cap(k)));
  }

  lemma DisconnectDecreases(cap: Key -> nat, s: State, r: Request)
    requires Enabled(s, Disconnect(r))
    ensures Measure(Apply(cap, s, Disconnect(r))) < Measure(s)
  {
    WeighAppend(s.threads, Weight, if r.stream then Done else Finish(r, Cancelled, Leave));
    assert s.arrived - (s.down + {r}) == (s.arrived - s.down) - {r};
  }

  lemma StepDecreases(cap: Key -> nat, s: State, l: Label)
    requires Enabled(s, l) && !IsArrival(l)
    ensures Measure(Apply(cap, s, l)) < Measure(s)
  {
    hide Measure, DrainStep, SessionTaskStep, FinishStep, GatewayStep, ModelTaskStep;
    match l
    case Disconnect(r) => DisconnectDecreases(cap, s, r);
    case Thread(i, choice) =>
      var pc := s.threads[i];
      if pc.Idle? || pc.Top? { DrainDecreases(s, i); }
      else if pc.Execute? || pc.Enqueue? || pc.ScheduleModel? { SessionTaskDecreases(cap, s, i); }
      else if pc.Finish? || pc.Record? { FinishDecreases(s, i); }
      else if pc.Submit? || pc.ScheduleSession? || pc.Wait? { GatewayDecreases(cap, s, i); }
      else { ModelTaskDecreases(s, i, choice); }
  }

  /** Once no new request arrives, every interleaving of threads and disconnects is finite. */
  lemma {:induction false} RunsAreFinite(cap: Key -> nat, s: State, ls: seq<Label>)
    requires Legal(cap, s, ls) && forall i :: 0 <= i < |ls| ==> !IsArrival(ls[i])
    ensures |ls| + Measure(After(cap, s, ls)) <= Measure(s)
    decreases |ls|
  {
    hide Measure, Apply;
    if ls != [] {
      StepDecreases(cap, s, ls[0]);
      RunsAreFinite(cap, Apply(cap, s, ls[0]), ls[1..]);
    }
  }

  // ---------------------------------------------------------------- the end of a run

  /** No thread can move. */
  ghost predicate Quiescent(s: State) {
    forall i :: 0 <= i < |s.threads| ==> !Active(s, s.threads[i])
  }

  /** Nothing is queued or running, every request that arrived is finished and recorded exactly once,
      and no request is in flight. */
  ghost predicate Settled(s: State) {
    && s.pool == []
    && (forall k :: Q(s.queues, k).pending == [] && !Q(s.queues, k).running)
    && s.finished == s.arrived
    && multiset(Logged(s.log)) == multiset(s.arrived)
    && s.inFlight == 0
    && (forall i :: 0 <= i < |s.threads| ==> s.threads[i].Idle? || s.threads[i].Done?)
  }

  lemma QuiescentIsSettled(cap: Key -> nat, s: State)
    requires Inv(cap, s) && s.workers > 0 && Quiescent(s)
    ensures Settled(s)
  {
    hide TokensOk, QueuesOk, JourneysOk, FinishesOk, LocatedOk, HandsOk, OrderOk;
    assert s.pool == [] by { assert IsWorkerPc(s.threads[0]) && !Active(s, s.threads[0]); }
    assert Resting(s.threads) by {
      assert forall i :: 0 <= i < |s.threads| ==> !Active(s, s.threads[i]);
    }
    QueuesIdle(cap, s);
    AllFinished(s);
    LogComplete(s);
    forall i | 0 <= i < |s.threads| ensures s.threads[i].Idle? || s.threads[i].Done? {
      assert !Active(s, s.threads[i]);
      assert Client(s.threads[i]).None? || Client(s.threads[i]).value in s.arrived;
    }
  }

  ghost predicate Resting(ts: seq<Pc>) {
    forall i :: 0 <= i < |ts| ==> ts[i].Idle? || ts[i].Done? || ts[i].Wait?
  }

  lemma QueuesIdle(cap: Key -> nat, s: State)
    requires TokensOk(s.threads, s.pool, s.queues) && QueuesOk(cap, s.queues) && Resting(s.threads) && s.pool == []
    ensures forall k :: Q(s.queues, k).pending == [] && !Q(s.queues, k).running
  {
    NothingCarried(s.threads);
    hide Carry, Resting, QueuesOk;
    forall k ensures Q(s.queues, k).pending == [] && !Q(s.queues, k).running {
      assert Sum(s.threads, Carry)[k] + multiset(s.pool)[k] == Running(s.queues, k);
      IdleIsEmpty(cap, s.queues, k);
    }
  }

  lemma {:induction false} NothingCarried(ts: seq<Pc>)
    requires Resting(ts)
    ensures Sum(ts, Carry) == multiset{}
  {
    if ts != [] {
      assert Carry(ts[0]) == multiset{};
      NothingCarried(ts[1..]);
    }
  }

  lemma IdleIsEmpty(cap: Key -> nat, qs: map<Key, Queue>, k: Key)
    requires QueuesOk(cap, qs) && !Q(qs, k).running
    ensures Q(qs, k).pending == []
  {
    assert QueueOk(cap, k, Q(qs, k));
  }

  lemma AllFinished(s: State)
    requires LocatedOk(s.threads, s.queues, s.finished, s.arrived) &&
      FinishesOk(s.threads, s.log, s.finished, s.arrived)
    requires Resting(s.threads) && forall k :: Q(s.queues, k).pending == []
    ensures s.finished == s.arrived
  {
    SumEmpty(s.threads, Holding);
    hide Held, FinishesOk, Resting;
    assert s.finished <= s.arrived by { FinishedArrived(s); }
    forall r | r in s.arrived ensures r in s.finished {
      assert Located(s.threads, s.queues, s.finished, r);
    }
  }

  lemma FinishedArrived(s: State)
    requires FinishesOk(s.threads, s.log, s.finished, s.arrived)
    ensures s.finished <= s.arrived
  {
  }

  lemma LogComplete(s: State)
    requires FinishesOk(s.threads, s.log, s.finished, s.arrived) && CountersOk(s)
    requires Resting(s.threads) && s.finished == s.arrived
    ensures multiset(Logged(s.log)) == multiset(s.arrived) && s.inFlight == 0
  {
    SumEmpty(s.threads, Recording);
    forall r ensures multiset(Logged(s.log))[r] == multiset(s.arrived)[r] {
      assert Sum(s.threads, Recording)[r] + multiset(Logged(s.log))[r] == Flag(r in s.finished);
    }
    assert |multiset(Logged(s.log))| == |s.log|;
    assert |multiset(s.arrived)| == |s.arrived|;
  }

  /** From every reachable state the threads can run until nothing moves, and every arrival-free run that
      stops there has settled all work, within a bound known at the start. */
  lemma EveryRunSettles(cap: Key -> nat, workers: nat, ls: seq<Label>, ms: seq<Label>)
    requires workers > 0 && Legal(cap, Init(workers), ls)
    requires var s := After(cap, Init(workers), ls);
      Legal(cap, s, ms) && (forall i :: 0 <= i < |ms| ==> !IsArrival(ms[i]))
    ensures var s := After(cap, Init(workers), ls);
      |ms| <= Measure(s) && (Quiescent(After(cap, s, ms)) ==> Settled(After(cap, s, ms)))
  {
    hide Inv, Measure, Settled, Quiescent;
    InitKeeps(cap, workers);
    RunKeeps(cap, Init(workers), ls);
    var s := After(cap, Init(workers), ls);
    RunKeeps(cap, s, ms);
    RunsAreFinite(cap, s, ms);
    if Quiescent(After(cap, s, ms)) {
      QuiescentIsSettled(cap, After(cap, s, ms));
    }
  }

  /** Such an end is always reached: keep moving any thread that can move. */
  lemma {:induction false} SomeRunSettles(cap: Key -> nat, s: State) returns (ms: seq<Label>)
    ensures Legal(cap, s, ms) && (forall i :: 0 <= i < |ms| ==> !IsArrival(ms[i]))
    ensures Quiescent(After(cap, s, ms))
    decreases Measure(s)
  {
    hide Measure, Apply;
    if Quiescent(s) {
      ms := [];
    } else {
      var i :| 0 <= i < |s.threads| && Active(s, s.threads[i]);
      var l := Thread(i, Proceed);
      StepDecreases(cap, s, l);
      var rest := SomeRunSettles(cap, Apply(cap, s, l));
      ms := [l] + rest;
      assert ms[1..] == rest;
    }
  }
}
