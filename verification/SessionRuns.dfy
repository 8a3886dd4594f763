/**
 Engine runs on one session's cache.  The scheduler keeps runs of one model
 apart; a session's runs are apart only as far as the session names one model.
 */
module SessionRuns {

  import opened Tally
  import opened Options
  import opened Scheduler
  import opened SchedulerInvariant
  import opened SchedulerTheorems

  /** The thread is inside the engine's Run, its EmitFinish included. */
  predicate InEngine(pc: Pc) {
    || pc.EngineRun?
    || (pc.Finish? && pc.ret.BackToCatchAll?)
    || (pc.Record? && pc.ret.BackToCatchAll?)
  }

  /** Every request of the session names the same model. */
  ghost predicate OneModel(arrived: set<Request>, session: string) {
    forall r, r' :: r in arrived && r' in arrived && r.session == r'.session == session ==> r.model == r'.model
  }

  lemma EngineServesArrived(s: State, i: nat)
    requires LocatedOk(s.threads, s.queues, s.finished, s.arrived)
    requires FinishesOk(s.threads, s.log, s.finished, s.arrived)
    requires i < |s.threads| && InEngine(s.threads[i])
    ensures s.threads[i].r in s.arrived
  {
    var r := s.threads[i].r;
    if s.threads[i].Record? {
      SumContains(s.threads, Recording, i);
      assert Recording(s.threads[i])[r] == 1;
      assert Sum(s.threads, Recording)[r] > 0;
    } else {
      SumContains(s.threads, Holding, i);
      assert Holding(s.threads[i])[r] == 1;
      assert Sum(s.threads, Holding)[r] > 0;
    }
  }

  /** In every run, no two threads are inside the engine for a session whose requests name one model. */
  lemma OneRunPerSession(cap: Key -> nat, workers: nat, ls: seq<Label>, i: nat, j: nat)
    requires Legal(cap, Init(workers), ls)
    requires var s := After(cap, Init(workers), ls);
      var ts := s.threads;
      && i < |ts| && j < |ts| && i != j && InEngine(ts[i]) && InEngine(ts[j])
      && OneModel(s.arrived, ts[i].r.session)
    ensures var ts := After(cap, Init(workers), ls).threads; ts[i].r.session != ts[j].r.session
  {
    hide TokensOk, QueuesOk, JourneysOk, FinishesOk, LocatedOk, HandsOk, OrderOk, WorkersOk, CountersOk, Legal, After;
    var s := After(cap, Init(workers), ls);
    ReachableKeeps(cap, workers, ls);
    AtMostOnePerKey(cap, workers, ls, i, j);
    EngineServesArrived(s, i);
    EngineServesArrived(s, j);
  }

  // ---------------------------------------------------------------- a session that names two models

  lemma {:induction false} Chain(cap: Key -> nat, s: State, a: seq<Label>, b: seq<Label>)
    requires Legal(cap, s, a) && Legal(cap, After(cap, s, a), b)
    ensures Legal(cap, s, a + b) && After(cap, s, a + b) == After(cap, After(cap, s, a), b)
    decreases |a|
  {
    hide Apply, Enabled;
    if a == [] {
      assert a + b == b;
    } else {
      Chain(cap, Apply(cap, s, a[0]), a[1..], b);
      assert (a + b)[1..] == a[1..] + b;
    }
  }

  lemma One(cap: Key -> nat, s: State, l: Label)
    requires Enabled(s, l)
    ensures Legal(cap, s, [l]) && After(cap, s, [l]) == Apply(cap, s, l)
  {
    hide Apply, Enabled;
    assert [l][1..] == [];
  }

  /** The run so far, and where it leads. */
  datatype Run = Run(labels: seq<Label>, state: State)

  ghost predicate RunOk(cap: Key -> nat, s: State, run: Run) {
    Legal(cap, s, run.labels) && After(cap, s, run.labels) == run.state
  }

  /** The run goes on with one step of thread `i`. */
  lemma Step(cap: Key -> nat, s: State, run: Run, i: nat) returns (more: Run)
    requires RunOk(cap, s, run) && i < |run.state.threads| && Active(run.state, run.state.threads[i])
    ensures RunOk(cap, s, more) && more.state == ThreadStep(cap, run.state, i, Proceed)
  {
    hide ThreadStep, Active;
    One(cap, run.state, Thread(i, Proceed));
    Chain(cap, s, run.labels, [Thread(i, Proceed)]);
    more := Run(run.labels + [Thread(i, Proceed)], ThreadStep(cap, run.state, i, Proceed));
  }

  lemma Arrives(cap: Key -> nat, s: State, run: Run, r: Request) returns (more: Run)
    requires RunOk(cap, s, run) && r !in run.state.arrived
    ensures RunOk(cap, s, more) && more.state == Apply(cap, run.state, Arrive(r))
  {
    hide Apply;
    One(cap, run.state, Arrive(r));
    Chain(cap, s, run.labels, [Arrive(r)]);
    more := Run(run.labels + [Arrive(r)], Apply(cap, run.state, Arrive(r)));
  }

  function QueueOfOne(r: Request): Queue { Queue([r], true, [r], []) }

  lemma OfferedFirst(r: Request, cap: nat)
    requires cap >= 1
    ensures Offer(Fresh(), r, cap) == QueueOfOne(r)
  {
    assert [] + [r] == [r];
  }

  /** A session's drain takes its next request and puts it into the empty queue of its model. */
  lemma Forward(cap: Key -> nat, s: State, run: Run, i: nat, r: Request) returns (more: Run)
    requires RunOk(cap, s, run) && i < |run.state.threads| && run.state.threads[i] == Top(SessionKey(r.session))
    requires Q(run.state.queues, SessionKey(r.session)).pending == [r] && r !in run.state.finished
    requires Q(run.state.queues, ModelKey(r.model)) == Fresh() && cap(ModelKey(r.model)) >= 1
    ensures RunOk(cap, s, more)
    ensures var k, m, t := SessionKey(r.session), ModelKey(r.model), run.state;
      more.state == t.(queues := t.queues[k := TakeNext(Q(t.queues, k))][m := QueueOfOne(r)], pool := t.pool + [m])
  {
    hide RunOk;
    var t := run.state;
    var k, m := SessionKey(r.session), ModelKey(r.model);
    var taken := t.queues[k := TakeNext(Q(t.queues, k))];
    more := Step(cap, s, run, i);
    assert more.state == t.(queues := taken, threads := t.threads[i := Execute(r)]);
    more := Step(cap, s, more, i);
    assert more.state.threads == t.threads[i := Enqueue(r)];
    OfferedFirst(r, cap(m));
    assert Q(more.state.queues, m) == Fresh();
    more := Step(cap, s, more, i);
    assert more.state.threads == t.threads[i := ScheduleModel(r)] && more.state.queues == taken[m := QueueOfOne(r)];
    more := Step(cap, s, more, i);
    assert more.state.threads == t.threads;
  }

  /** An idle worker takes a model's drain and starts the engine on the one request waiting there. */
  lemma Engage(cap: Key -> nat, s: State, run: Run, i: nat, r: Request) returns (more: Run)
    requires RunOk(cap, s, run) && i < |run.state.threads| && run.state.threads[i] == Idle
    requires run.state.pool != [] && run.state.pool[0] == ModelKey(r.model)
    requires Q(run.state.queues, ModelKey(r.model)).pending == [r]
    requires r !in run.state.finished && r !in run.state.cancelled
    ensures RunOk(cap, s, more)
    ensures var m, t := ModelKey(r.model), run.state;
      more.state == t.(pool := t.pool[1..], threads := t.threads[i := EngineRun(r)],
                       queues := t.queues[m := TakeNext(Q(t.queues, m))])
  {
    hide RunOk;
    var t := run.state;
    more := Step(cap, s, run, i);
    assert more.state == t.(pool := t.pool[1..], threads := t.threads[i := Top(ModelKey(r.model))]);
    more := Step(cap, s, more, i);
    assert more.state.threads == t.threads[i := Start(r)];
    more := Step(cap, s, more, i);
    assert more.state.threads == t.threads[i := CheckCancel(r)];
    more := Step(cap, s, more, i);
    assert more.state.threads == t.threads[i := EngineRun(r)];
  }

  /** The first request of a session arrives, is queued, and a worker stands at the session's drain. */
  lemma FirstArrives(cap: Key -> nat, r: Request) returns (run: Run)
    requires cap(SessionKey(r.session)) >= 1 && r.stream
    ensures RunOk(cap, Init(2), run)
    ensures var s := run.state; var k := SessionKey(r.session);
      && s.threads == [Top(k), Idle, Done] && s.pool == [] && s.queues == map[k := QueueOfOne(r)]
      && s.arrived == {r} && s.finished == {} && s.cancelled == {}
  {
    hide RunOk;
    var k := SessionKey(r.session);
    run := Start2(cap);
    run := Arrives(cap, Init(2), run, r);
    assert run.state.threads == [Idle, Idle, Submit(r)];
    OfferedFirst(r, cap(k));
    run := Step(cap, Init(2), run, 2);
    assert run.state.threads == [Idle, Idle, ScheduleSession(r)] && run.state.queues == map[k := QueueOfOne(r)];
    run := Step(cap, Init(2), run, 2);
    assert run.state.threads == [Idle, Idle, Done] && run.state.pool == [k];
    run := Step(cap, Init(2), run, 0);
    assert run.state.threads == [Top(k), Idle, Done];
  }

  lemma Start2(cap: Key -> nat) returns (run: Run)
    ensures run == Run([], Init(2)) && RunOk(cap, Init(2), run)
    ensures Init(2).threads == [Idle, Idle]
  {
    run := Run([], Init(2));
  }

  /** The second request arrives while the worker is between two tasks. */
  lemma SecondArrives(cap: Key -> nat, run: Run, a: Request, b: Request) returns (more: Run)
    requires RunOk(cap, Init(2), run) && a != b && b.stream && cap(SessionKey(b.session)) >= 1
    requires run.state.threads == [Top(SessionKey(b.session)), Idle, Done] && run.state.arrived == {a}
    requires var q := Q(run.state.queues, SessionKey(b.session)); q.pending == [] && q.running
    ensures RunOk(cap, Init(2), more)
    ensures var s, t, k := run.state, more.state, SessionKey(b.session);
      && t.threads == [Top(k), Idle, Done, Done] && t.pool == s.pool && t.arrived == {a, b}
      && t.finished == s.finished && t.cancelled == s.cancelled
      && t.queues == s.queues[k := Offer(Q(s.queues, k), b, cap(k))] && Q(t.queues, k).pending == [b]
  {
    hide RunOk;
    var k := SessionKey(b.session);
    more := Arrives(cap, Init(2), run, b);
    assert more.state.threads == [Top(k), Idle, Done, Submit(b)];
    assert [] + [b] == [b];
    more := Step(cap, Init(2), more, 3);
    assert more.state.threads == [Top(k), Idle, Done, Done];
  }

  /** Two requests of one session that name different models can be inside the engine at the same time, both on the
      session's one cache: the hypothesis is needed. */
  lemma TwoModelsOverlap(cap: Key -> nat, a: Request, b: Request) returns (run: Run)
    requires a.session == b.session && a.model != b.model && a.stream && b.stream && forall k :: cap(k) >= 1
    ensures RunOk(cap, Init(2), run)
    ensures run.state.threads == [EngineRun(a), EngineRun(b), Done, Done] && run.state.arrived == {a, b}
  {
    hide RunOk, Offer, TakeNext;
    var k, m, n := SessionKey(a.session), ModelKey(a.model), ModelKey(b.model);
    run := FirstArrives(cap, a);
    TookAll(QueueOfOne(a));
    run := Forward(cap, Init(2), run, 0, a);
    run := SecondArrives(cap, run, a, b);
    TookAll(Q(run.state.queues, k));
    run := Forward(cap, Init(2), run, 0, b);
    assert run.state.pool == [m, n] && run.state.threads == [Top(k), Idle, Done, Done];
    assert Q(run.state.queues, m) == QueueOfOne(a) && Q(run.state.queues, n) == QueueOfOne(b);
    run := Finale(cap, run, a, b);
  }

  lemma TookAll(q: Queue)
    requires |q.pending| == 1
    ensures TakeNext(q).pending == [] && TakeNext(q).running == q.running
  {
  }

  /** The session's drain retires, and both workers start an engine. */
  lemma Finale(cap: Key -> nat, run: Run, a: Request, b: Request) returns (more: Run)
    requires RunOk(cap, Init(2), run) && a.session == b.session && a.model != b.model
    requires run.state.pool == [ModelKey(a.model), ModelKey(b.model)]
    requires run.state.threads == [Top(SessionKey(a.session)), Idle, Done, Done]
    requires Q(run.state.queues, SessionKey(a.session)).pending == []
    requires Q(run.state.queues, ModelKey(a.model)) == QueueOfOne(a) &&
      Q(run.state.queues, ModelKey(b.model)) == QueueOfOne(b)
    requires run.state.finished == {} && run.state.cancelled == {}
    ensures RunOk(cap, Init(2), more) && more.state.threads == [EngineRun(a), EngineRun(b), Done, Done]
    ensures more.state.arrived == run.state.arrived
  {
    hide RunOk;
    more := Step(cap, Init(2), run, 0);
    assert more.state.threads == [Idle, Idle, Done, Done] && more.state.pool == run.state.pool;
    more := Engage(cap, Init(2), more, 0, a);
    assert more.state.threads == [EngineRun(a), Idle, Done, Done];
    more := Engage(cap, Init(2), more, 1, b);
    assert more.state.threads == [EngineRun(a), EngineRun(b), Done, Done];
  }
}
