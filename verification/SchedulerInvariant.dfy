/** What every step of the scheduler keeps. */
module SchedulerInvariant {

  import opened Tally
  import opened Scheduler
  import opened Reasons
  import opened Options

  // ---------------------------------------------------------------- the invariant

  function Running(qs: map<Key, Queue>, k: Key): nat { if Q(qs, k).running then 1 else 0 }

  /** A queue is marked running exactly when one drain token exists for it, and there is never a second. */
  ghost predicate TokensOk(ts: seq<Pc>, pool: seq<Key>, qs: map<Key, Queue>) {
    forall k :: Sum(ts, Carry)[k] + multiset(pool)[k] == Running(qs, k)
  }

  predicate Matches(k: Key, r: Request) { k == SessionKey(r.session) || k == ModelKey(r.model) }

  /** Waiting work has a drain, nothing accepted is lost or reordered, and the cap holds. */
  ghost predicate QueueOk(cap: Key -> nat, k: Key, q: Queue) {
    && (q.pending != [] ==> q.running)
    && q.taken + q.pending == q.accepted
    && |q.pending| <= cap(k)
    && (forall r :: r in q.accepted ==> Matches(k, r))
  }

  ghost predicate QueuesOk(cap: Key -> nat, qs: map<Key, Queue>) {
    forall k :: QueueOk(cap, k, Q(qs, k))
  }

  function Pending(qs: map<Key, Queue>, k: Key, r: Request): nat { multiset(Q(qs, k).pending)[r] }

  function Accepted(qs: map<Key, Queue>, k: Key, r: Request): nat { multiset(Q(qs, k).accepted)[r] }

  /** A request is in at most one place on its way from the gateway into its model's queue. */
  ghost predicate JourneyOf(ts: seq<Pc>, qs: map<Key, Queue>, arrived: set<Request>, r: Request) {
    var sub := Sum(ts, Submitting)[r];
    var fwd := Sum(ts, Forwarding)[r];
    var acc := Accepted(qs, ModelKey(r.model), r);
    && sub + Pending(qs, SessionKey(r.session), r) + fwd + acc <= 1
    && sub + Accepted(qs, SessionKey(r.session), r) <= 1
    && (r !in arrived ==> sub == fwd == acc == Accepted(qs, SessionKey(r.session), r) == 0)
  }

  ghost predicate JourneysOk(ts: seq<Pc>, qs: map<Key, Queue>, arrived: set<Request>) {
    forall r :: JourneyOf(ts, qs, arrived, r)
  }

  function Flag(b: bool): nat { if b then 1 else 0 }

  /** A request is finished exactly when its one finish callback has been claimed. */
  ghost predicate FinishesOk(ts: seq<Pc>, log: seq<(Request, Reason)>, finished: set<Request>, arrived: set<Request>) {
    && finished <= arrived
    && forall r :: Sum(ts, Recording)[r] + multiset(Logged(log))[r] == Flag(r in finished)
  }

  /** An unfinished request is held by a thread or waits in a queue. */
  ghost predicate Located(ts: seq<Pc>, qs: map<Key, Queue>, finished: set<Request>, r: Request) {
    || r in finished
    || Sum(ts, Holding)[r] > 0
    || r in Q(qs, SessionKey(r.session)).pending
    || r in Q(qs, ModelKey(r.model)).pending
  }

  ghost predicate LocatedOk(ts: seq<Pc>, qs: map<Key, Queue>, finished: set<Request>, arrived: set<Request>) {
    forall r :: (r in arrived ==> Located(ts, qs, finished, r)) && (Sum(ts, Holding)[r] > 0 ==> r in arrived)
  }

  ghost predicate LastIs<T>(xs: seq<T>, x: T) { xs != [] && xs[|xs| - 1] == x }

  /** The request a session task forwards is the last one its session handed out. */
  ghost predicate InHand(qs: map<Key, Queue>, pc: Pc) {
    pc.Execute? || pc.Enqueue? ==> LastIs(Q(qs, SessionKey(pc.r.session)).taken, pc.r)
  }

  ghost predicate HandsOk(ts: seq<Pc>, qs: map<Key, Queue>) {
    forall i :: 0 <= i < |ts| ==> InHand(qs, ts[i])
  }

  ghost predicate Before<T>(xs: seq<T>, x: T, y: T) {
    exists i, j :: 0 <= i < j < |xs| && xs[i] == x && xs[j] == y
  }

  /** A model queue accepted the requests of each session in the order that session handed them out. */
  ghost predicate OrderOf(qs: map<Key, Queue>, acc: seq<Request>) {
    && (forall r :: r in acc ==> r in Q(qs, SessionKey(r.session)).taken)
    && (forall a, b :: 0 <= a < b < |acc| && acc[a].session == acc[b].session ==>
          Before(Q(qs, SessionKey(acc[a].session)).taken, acc[a], acc[b]))
  }

  ghost predicate OrderOk(qs: map<Key, Queue>) {
    forall m :: OrderOf(qs, Q(qs, ModelKey(m)).accepted)
  }

  function CountReason(log: seq<(Request, Reason)>, reason: Reason): nat {
    if log == [] then 0
    else CountReason(log[..|log| - 1], reason) + Flag(log[|log| - 1].1 == reason)
  }

  /** The gateway's counters agree with what arrived and what was recorded. */
  ghost predicate CountersOk(s: State) {
    && s.total == |s.arrived|
    && s.inFlight == |s.arrived| - |s.log|
    && s.errors == CountReason(s.log, Error)
    && s.cancels == CountReason(s.log, Cancelled)
    && s.down <= s.arrived
  }

  /** The pool's workers run drains only, and gateway threads serve requests that have arrived. */
  ghost predicate WorkersOk(ts: seq<Pc>, workers: nat, arrived: set<Request>) {
    && workers <= |ts| && (forall i :: 0 <= i < workers ==> IsWorkerPc(ts[i]))
    && (forall i :: 0 <= i < |ts| ==> Client(ts[i]).None? || Client(ts[i]).value in arrived)
  }

  ghost predicate KeepsRole(a: Pc, b: Pc) {
    (IsWorkerPc(a) ==> IsWorkerPc(b)) && (Client(b).None? || Client(b) == Client(a))
  }

  ghost predicate Inv(cap: Key -> nat, s: State) {
    && TokensOk(s.threads, s.pool, s.queues)
    && QueuesOk(cap, s.queues)
    && JourneysOk(s.threads, s.queues, s.arrived)
    && FinishesOk(s.threads, s.log, s.finished, s.arrived)
    && LocatedOk(s.threads, s.queues, s.finished, s.arrived)
    && HandsOk(s.threads, s.queues)
    && OrderOk(s.queues)
    && CountersOk(s)
    && WorkersOk(s.threads, s.workers, s.arrived)
  }

  // ---------------------------------------------------------------- each part under a change of one thread

  lemma TokensStep(ts: seq<Pc>, pool: seq<Key>, qs: map<Key, Queue>,
                   i: nat, b: Pc, pool': seq<Key>, qs': map<Key, Queue>)
    requires i < |ts| && TokensOk(ts, pool, qs)
    requires forall k :: Carry(b)[k] + multiset(pool')[k] + Running(qs, k)
                      == Carry(ts[i])[k] + multiset(pool)[k] + Running(qs', k)
    ensures TokensOk(ts[i := b], pool', qs')
  {
    SumUpdate(ts, Carry, i, b);
    forall k ensures Sum(ts[i := b], Carry)[k] + multiset(pool')[k] == Running(qs', k) {
      assert (Sum(ts[i := b], Carry) + Carry(ts[i]))[k] == (Sum(ts, Carry) + Carry(b))[k];
    }
  }

  lemma JourneysStep(ts: seq<Pc>, qs: map<Key, Queue>, arrived: set<Request>, i: nat, b: Pc, qs': map<Key, Queue>)
    requires i < |ts| && JourneysOk(ts, qs, arrived)
    requires forall r :: JourneyShift(ts[i], qs, b, qs', r)
    ensures JourneysOk(ts[i := b], qs', arrived)
  {
    SumUpdate(ts, Submitting, i, b);
    SumUpdate(ts, Forwarding, i, b);
    SumContains(ts, Submitting, i);
    SumContains(ts, Forwarding, i);
    var ts' := ts[i := b];
    forall r: Request ensures JourneyOf(ts', qs', arrived, r) {
      assert JourneyShift(ts[i], qs, b, qs', r);
      assert JourneyOf(ts, qs, arrived, r);
      assert (Sum(ts', Submitting) + Submitting(ts[i]))[r] == (Sum(ts, Submitting) + Submitting(b))[r];
      assert (Sum(ts', Forwarding) + Forwarding(ts[i]))[r] == (Sum(ts, Forwarding) + Forwarding(b))[r];
    }
  }

  /** A step moves a request forward on its way or drops it, and never makes a second copy. */
  ghost predicate JourneyShift(a: Pc, qs: map<Key, Queue>, b: Pc, qs': map<Key, Queue>, r: Request) {
    var sk, mk := SessionKey(r.session), ModelKey(r.model);
    && Submitting(b)[r] + Pending(qs', sk, r) + Forwarding(b)[r] + Accepted(qs', mk, r)
       <= Submitting(a)[r] + Pending(qs, sk, r) + Forwarding(a)[r] + Accepted(qs, mk, r)
    && Submitting(b)[r] + Accepted(qs', sk, r) <= Submitting(a)[r] + Accepted(qs, sk, r)
    && Accepted(qs', mk, r) <= Forwarding(a)[r] + Accepted(qs, mk, r)
    && Forwarding(b)[r] <= Forwarding(a)[r] + Accepted(qs, sk, r)
    && Submitting(b)[r] <= Submitting(a)[r]
  }

  lemma FinishesStep(ts: seq<Pc>, log: seq<(Request, Reason)>, finished: set<Request>, arrived: set<Request>,
                     i: nat, b: Pc, log': seq<(Request, Reason)>, finished': set<Request>)
    requires i < |ts| && FinishesOk(ts, log, finished, arrived) && finished' <= arrived
    requires forall r :: Recording(b)[r] + multiset(Logged(log'))[r] + Flag(r in finished)
                      == Recording(ts[i])[r] + multiset(Logged(log))[r] + Flag(r in finished')
    ensures FinishesOk(ts[i := b], log', finished', arrived)
  {
    SumUpdate(ts, Recording, i, b);
    forall r ensures Sum(ts[i := b], Recording)[r] + multiset(Logged(log'))[r] == Flag(r in finished') {
      assert (Sum(ts[i := b], Recording) + Recording(ts[i]))[r] == (Sum(ts, Recording) + Recording(b))[r];
    }
  }

  /** A request this thread holds, or that waits, is finished, held or waiting afterwards. */
  ghost predicate PassedOn(a: Pc, qs: map<Key, Queue>, b: Pc, qs': map<Key, Queue>, finished': set<Request>,
                           r: Request) {
    r in Holding(a) || r in Q(qs, SessionKey(r.session)).pending || r in Q(qs, ModelKey(r.model)).pending
    ==> r in finished' || r in Holding(b)
        || r in Q(qs', SessionKey(r.session)).pending || r in Q(qs', ModelKey(r.model)).pending
  }

  lemma LocatedStep(ts: seq<Pc>, qs: map<Key, Queue>, finished: set<Request>, arrived: set<Request>,
                    i: nat, b: Pc, qs': map<Key, Queue>, finished': set<Request>, arrived': set<Request>)
    requires i < |ts| && LocatedOk(ts, qs, finished, arrived)
    requires finished <= finished' && arrived <= arrived'
    requires forall r :: r in arrived' && r !in arrived ==> r in finished' || r in Holding(b)
    requires forall r :: r in Holding(b) ==> r in arrived'
    requires forall r :: PassedOn(ts[i], qs, b, qs', finished', r)
    ensures LocatedOk(ts[i := b], qs', finished', arrived')
  {
    SumUpdate(ts, Holding, i, b);
    SumContains(ts[i := b], Holding, i);
    forall r ensures (r in arrived' ==> Located(ts[i := b], qs', finished', r)) &&
      (Sum(ts[i := b], Holding)[r] > 0 ==> r in arrived') {
      assert r in arrived ==> Located(ts, qs, finished, r);
      assert PassedOn(ts[i], qs, b, qs', finished', r);
      assert (Sum(ts[i := b], Holding) + Holding(ts[i]))[r] == (Sum(ts, Holding) + Holding(b))[r];
    }
  }

  lemma HandsStep(ts: seq<Pc>, qs: map<Key, Queue>, i: nat, b: Pc)
    requires i < |ts| && HandsOk(ts, qs)
    requires Forwarding(b) == multiset{} || Forwarding(b) == Forwarding(ts[i])
    ensures HandsOk(ts[i := b], qs)
  {
    if b.Execute? || b.Enqueue? {
      assert b.r in Forwarding(b);
      assert InHand(qs, ts[i]);
    }
  }

  lemma WorkersStep(ts: seq<Pc>, workers: nat, arrived: set<Request>, i: nat, b: Pc)
    requires i < |ts| && WorkersOk(ts, workers, arrived) && KeepsRole(ts[i], b)
    ensures WorkersOk(ts[i := b], workers, arrived)
  {
  }

  // ---------------------------------------------------------------- steps that leave the queues alone

  /** The program point changes; the thread keeps its claims and drops only finished requests. */
  ghost predicate QuietMove(s: State, a: Pc, b: Pc) {
    && Recording(a) == Recording(b)
    && Submitting(b) == multiset{} && (Forwarding(b) == multiset{} || Forwarding(b) == Forwarding(a))
    && (forall r :: r in Holding(a) ==> r in Holding(b) || r in s.finished)
    && (forall r :: r in Holding(b) ==> r in Holding(a))
    && KeepsRole(a, b)
  }

  /** Such a move, with any change of the pool that balances the tokens. */
  lemma MoveKeeps(cap: Key -> nat, s: State, i: nat, b: Pc, pool: seq<Key>, cancelled: set<Request>)
    requires Inv(cap, s) && i < |s.threads| && QuietMove(s, s.threads[i], b)
    requires Carry(b) + multiset(pool) == Carry(s.threads[i]) + multiset(s.pool)
    ensures Inv(cap, Go(s.(pool := pool, cancelled := cancelled), i, b))
  {
    hide TokensOk, QueuesOk, JourneysOk, FinishesOk, LocatedOk, HandsOk, OrderOk, WorkersOk;
    TokensMove(s.threads, s.pool, s.queues, i, b, pool);
    JourneysMove(s.threads, s.queues, s.arrived, i, b);
    FinishesMove(s.threads, s.log, s.finished, s.arrived, i, b);
    LocatedMove(s, i, b);
    HandsStep(s.threads, s.queues, i, b);
    WorkersStep(s.threads, s.workers, s.arrived, i, b);
  }

  lemma TokensMove(ts: seq<Pc>, pool: seq<Key>, qs: map<Key, Queue>, i: nat, b: Pc, pool': seq<Key>)
    requires i < |ts| && TokensOk(ts, pool, qs)
    requires Carry(b) + multiset(pool') == Carry(ts[i]) + multiset(pool)
    ensures TokensOk(ts[i := b], pool', qs)
  {
    forall k ensures Carry(b)[k] + multiset(pool')[k] == Carry(ts[i])[k] + multiset(pool)[k] {
      assert (Carry(b) + multiset(pool'))[k] == (Carry(ts[i]) + multiset(pool))[k];
    }
    TokensStep(ts, pool, qs, i, b, pool', qs);
  }

  lemma JourneysMove(ts: seq<Pc>, qs: map<Key, Queue>, arrived: set<Request>, i: nat, b: Pc)
    requires i < |ts| && JourneysOk(ts, qs, arrived)
    requires Submitting(b) == multiset{} && (Forwarding(b) == multiset{} || Forwarding(b) == Forwarding(ts[i]))
    ensures JourneysOk(ts[i := b], qs, arrived)
  {
    assert forall r :: JourneyShift(ts[i], qs, b, qs, r);
    JourneysStep(ts, qs, arrived, i, b, qs);
  }

  lemma FinishesMove(ts: seq<Pc>, log: seq<(Request, Reason)>, finished: set<Request>, arrived: set<Request>, i: nat,
                     b: Pc)
    requires i < |ts| && FinishesOk(ts, log, finished, arrived) && Recording(b) == Recording(ts[i])
    ensures FinishesOk(ts[i := b], log, finished, arrived)
  {
    FinishesStep(ts, log, finished, arrived, i, b, log, finished);
  }

  lemma LocatedMove(s: State, i: nat, b: Pc)
    requires i < |s.threads| && LocatedOk(s.threads, s.queues, s.finished, s.arrived)
    requires QuietMove(s, s.threads[i], b)
    ensures LocatedOk(s.threads[i := b], s.queues, s.finished, s.arrived)
  {
    SumContains(s.threads, Holding, i);
    assert forall r :: PassedOn(s.threads[i], s.queues, b, s.queues, s.finished, r);
    LocatedStep(s.threads, s.queues, s.finished, s.arrived, i, b, s.queues, s.finished, s.arrived);
  }

  // ---------------------------------------------------------------- finishing

  lemma WinKeeps(cap: Key -> nat, s: State, i: nat, r: Request, reason: Reason, ret: Return)
    requires Inv(cap, s) && i < |s.threads| && s.threads[i] == Finish(r, reason, ret) && r !in s.finished
    ensures Inv(cap, Go(s.(finished := s.finished + {r}), i, Record(r, reason, ret)))
  {
    hide TokensOk, QueuesOk, JourneysOk, FinishesOk, LocatedOk, HandsOk, OrderOk, WorkersOk;
    var b := Record(r, reason, ret);
    TokensMove(s.threads, s.pool, s.queues, i, b, s.pool);
    JourneysMove(s.threads, s.queues, s.arrived, i, b);
    FinishesWin(s, i, r, b);
    LocatedWin(s, i, r, b);
    HandsStep(s.threads, s.queues, i, b);
    WorkersStep(s.threads, s.workers, s.arrived, i, b);
  }

  lemma FinishesWin(s: State, i: nat, r: Request, b: Pc)
    requires i < |s.threads| && FinishesOk(s.threads, s.log, s.finished, s.arrived)
    requires LocatedOk(s.threads, s.queues, s.finished, s.arrived) && r in Holding(s.threads[i]) && r !in s.finished
    requires Recording(s.threads[i]) == multiset{} && Recording(b) == multiset{r}
    ensures FinishesOk(s.threads[i := b], s.log, s.finished + {r}, s.arrived)
  {
    SumContains(s.threads, Holding, i);
    FinishesStep(s.threads, s.log, s.finished, s.arrived, i, b, s.log, s.finished + {r});
  }

  lemma LocatedWin(s: State, i: nat, r: Request, b: Pc)
    requires i < |s.threads| && LocatedOk(s.threads, s.queues, s.finished, s.arrived)
    requires Holding(s.threads[i]) == multiset{r} && Holding(b) == multiset{}
    ensures LocatedOk(s.threads[i := b], s.queues, s.finished + {r}, s.arrived)
  {
    assert forall x :: PassedOn(s.threads[i], s.queues, b, s.queues, s.finished + {r}, x);
    LocatedStep(s.threads, s.queues, s.finished, s.arrived, i, b, s.queues, s.finished + {r}, s.arrived);
  }

  lemma RecordKeeps(cap: Key -> nat, s: State, i: nat, r: Request, reason: Reason, ret: Return)
    requires Inv(cap, s) && i < |s.threads| && s.threads[i] == Record(r, reason, ret)
    ensures Inv(cap, Go(Recorded(s, r, reason), i, Resume(r, ret)))
  {
    hide TokensOk, QueuesOk, JourneysOk, FinishesOk, LocatedOk, HandsOk, OrderOk, WorkersOk, CountersOk, Own, Resume,
      IsWorkerPc;
    var b := Resume(r, ret);
    ResumeFacts(r, reason, ret);
    TokensMove(s.threads, s.pool, s.queues, i, b, s.pool);
    JourneysMove(s.threads, s.queues, s.arrived, i, b);
    FinishesRecord(s, i, r, reason, b);
    LocatedRecord(s, i, r, b);
    HandsStep(s.threads, s.queues, i, b);
    WorkersStep(s.threads, s.workers, s.arrived, i, b);
    CountersRecord(s, r, reason, s.threads[i := b]);
  }

  lemma ResumeFacts(r: Request, reason: Reason, ret: Return)
    ensures var a, b := Record(r, reason, ret), Resume(r, ret);
      && Own(a) == Own(b) && Claim(a) == Claim(b) && KeepsRole(a, b)
      && Submitting(b) == multiset{} && Forwarding(b) == multiset{} && Recording(b) == multiset{}
      && (Held(b) == None || Held(b) == Some(r))
  {
    match ret
    case BackToTop(_) =>
    case BackToCatchAll =>
    case BackToWait =>
    case Leave =>
  }

  lemma FinishesRecord(s: State, i: nat, r: Request, reason: Reason, b: Pc)
    requires i < |s.threads| && FinishesOk(s.threads, s.log, s.finished, s.arrived)
    requires Recording(s.threads[i]) == multiset{r} && Recording(b) == multiset{}
    ensures FinishesOk(s.threads[i := b], s.log + [(r, reason)], s.finished, s.arrived)
  {
    var log' := s.log + [(r, reason)];
    assert Logged(log') == Logged(s.log) + [r];
    FinishesStep(s.threads, s.log, s.finished, s.arrived, i, b, log', s.finished);
  }

  lemma LocatedRecord(s: State, i: nat, r: Request, b: Pc)
    requires i < |s.threads| && LocatedOk(s.threads, s.queues, s.finished, s.arrived)
    requires FinishesOk(s.threads, s.log, s.finished, s.arrived)
    requires Recording(s.threads[i]) == multiset{r} && Holding(s.threads[i]) == multiset{} && Holding(b) <= multiset{r}
    ensures LocatedOk(s.threads[i := b], s.queues, s.finished, s.arrived)
  {
    SumContains(s.threads, Recording, i);
    assert r in s.finished by {
      assert Sum(s.threads, Recording)[r] + multiset(Logged(s.log))[r] == Flag(r in s.finished);
    }
    assert forall x :: PassedOn(s.threads[i], s.queues, b, s.queues, s.finished, x);
    LocatedStep(s.threads, s.queues, s.finished, s.arrived, i, b, s.queues, s.finished, s.arrived);
  }

  lemma CountersRecord(s: State, r: Request, reason: Reason, ts: seq<Pc>)
    requires CountersOk(s)
    ensures CountersOk(Recorded(s, r, reason).(threads := ts))
  {
    var log' := s.log + [(r, reason)];
    assert log'[..|log'| - 1] == s.log;
  }

  // ---------------------------------------------------------------- taking work

  lemma QueuesStep(cap: Key -> nat, qs: map<Key, Queue>, k: Key, q: Queue)
    requires QueuesOk(cap, qs) && QueueOk(cap, k, q)
    ensures QueuesOk(cap, qs[k := q])
  {
    var qs' := qs[k := q];
    forall j ensures QueueOk(cap, j, Q(qs', j)) {
      assert QueueOk(cap, j, Q(qs, j));
    }
  }

  lemma RetireKeeps(cap: Key -> nat, s: State, i: nat, k: Key)
    requires Inv(cap, s) && i < |s.threads| && s.threads[i] == Top(k) && Q(s.queues, k).pending == []
    ensures Inv(cap, Go(s.(queues := s.queues[k := TakeNext(Q(s.queues, k))]), i, Idle))
  {
    hide TokensOk, QueuesOk, JourneysOk, FinishesOk, LocatedOk, HandsOk, OrderOk, WorkersOk;
    TokensRetire(s.threads, s.pool, s.queues, i, k);
    QueuesRetire(cap, s.queues, k);
    FramedRetire(s, i, k);
    FinishesMove(s.threads, s.log, s.finished, s.arrived, i, Idle);
    WorkersStep(s.threads, s.workers, s.arrived, i, Idle);
  }

  /** A thread executing a drain means the queue is marked running, and no other thread executes it. */
  lemma OwnerRuns(ts: seq<Pc>, pool: seq<Key>, qs: map<Key, Queue>, i: nat, k: Key)
    requires i < |ts| && TokensOk(ts, pool, qs) && Own(ts[i]) == Some(k)
    ensures Q(qs, k).running
    ensures forall j :: 0 <= j < |ts| && j != i ==> Own(ts[j]) != Some(k)
  {
    assert Sum(ts, Carry)[k] + multiset(pool)[k] == Running(qs, k);
    SumContains(ts, Carry, i);
    assert Carry(ts[i])[k] >= 1;
    forall j | 0 <= j < |ts| && j != i ensures Own(ts[j]) != Some(k) {
      SumContainsTwo(ts, Carry, if i < j then i else j, if i < j then j else i);
      assert (Carry(ts[i]) + Carry(ts[j]))[k] <= 1;
    }
  }

  lemma TokensRetire(ts: seq<Pc>, pool: seq<Key>, qs: map<Key, Queue>, i: nat, k: Key)
    requires i < |ts| && TokensOk(ts, pool, qs) && ts[i] == Top(k) && Q(qs, k).pending == []
    ensures TokensOk(ts[i := Idle], pool, qs[k := TakeNext(Q(qs, k))])
  {
    hide TokensOk;
    var qs' := qs[k := TakeNext(Q(qs, k))];
    OwnerRuns(ts, pool, qs, i, k);
    assert Carry(Top(k)) == multiset{k} && Carry(Idle) == multiset{};
    forall j ensures Running(qs, j) == multiset{k}[j] + Running(qs', j) {
    }
    TokensStep(ts, pool, qs, i, Idle, pool, qs');
  }

  lemma QueuesRetire(cap: Key -> nat, qs: map<Key, Queue>, k: Key)
    requires QueuesOk(cap, qs) && Q(qs, k).pending == []
    ensures QueuesOk(cap, qs[k := TakeNext(Q(qs, k))])
  {
    assert QueueOk(cap, k, Q(qs, k));
    QueuesStep(cap, qs, k, TakeNext(Q(qs, k)));
  }

  /** Retiring a drain changes no queue content. */
  lemma FramedRetire(s: State, i: nat, k: Key)
    requires i < |s.threads| && s.threads[i] == Top(k) && Q(s.queues, k).pending == []
    requires JourneysOk(s.threads, s.queues, s.arrived) && LocatedOk(s.threads, s.queues, s.finished, s.arrived)
    requires HandsOk(s.threads, s.queues) && OrderOk(s.queues)
    ensures var qs := s.queues[k := TakeNext(Q(s.queues, k))];
      && JourneysOk(s.threads[i := Idle], qs, s.arrived) && LocatedOk(s.threads[i := Idle], qs, s.finished, s.arrived)
      && HandsOk(s.threads[i := Idle], qs) && OrderOk(qs)
  {
    hide JourneysOk, LocatedOk, HandsOk, OrderOk;
    var qs := s.queues[k := TakeNext(Q(s.queues, k))];
    assert forall j :: SameContent(Q(s.queues, j), Q(qs, j));
    JourneysMove(s.threads, s.queues, s.arrived, i, Idle);
    LocatedMove(s, i, Idle);
    HandsStep(s.threads, s.queues, i, Idle);
    ContentFrame(s.threads[i := Idle], s.queues, qs, s.finished, s.arrived);
  }

  predicate SameContent(q: Queue, q': Queue) {
    q.pending == q'.pending && q.accepted == q'.accepted && q.taken == q'.taken
  }

  lemma ContentFrame(ts: seq<Pc>, qs: map<Key, Queue>, qs': map<Key, Queue>, finished: set<Request>,
                     arrived: set<Request>)
    requires forall j :: SameContent(Q(qs, j), Q(qs', j))
    ensures JourneysOk(ts, qs, arrived) ==> JourneysOk(ts, qs', arrived)
    ensures LocatedOk(ts, qs, finished, arrived) ==> LocatedOk(ts, qs', finished, arrived)
    ensures HandsOk(ts, qs) ==> HandsOk(ts, qs')
    ensures OrderOk(qs) ==> OrderOk(qs')
  {
    forall r: Request ensures JourneyOf(ts, qs, arrived, r) ==> JourneyOf(ts, qs', arrived, r) {
      assert SameContent(Q(qs, SessionKey(r.session)), Q(qs', SessionKey(r.session)));
      assert SameContent(Q(qs, ModelKey(r.model)), Q(qs', ModelKey(r.model)));
    }
  }

  /** The program point of a drain that has just taken a request from queue `k`. */
  function Begin(k: Key, r: Request): Pc { if k.SessionKey? then Execute(r) else Start(r) }

  function Taken(qs: map<Key, Queue>, k: Key): map<Key, Queue> { qs[k := TakeNext(Q(qs, k))] }

  lemma TakeKeeps(cap: Key -> nat, s: State, i: nat, k: Key)
    requires Inv(cap, s) && i < |s.threads| && s.threads[i] == Top(k) && Q(s.queues, k).pending != []
    ensures Inv(cap, Go(s.(queues := Taken(s.queues, k)), i, Begin(k, Q(s.queues, k).pending[0])))
  {
    hide TokensOk, QueuesOk, JourneysOk, FinishesOk, LocatedOk, HandsOk, OrderOk, WorkersOk;
    var b := Begin(k, Q(s.queues, k).pending[0]);
    TakeFacts(cap, s.queues, k);
    TokensTake(s.threads, s.pool, s.queues, i, k);
    JourneysTake(s.threads, s.queues, s.arrived, i, k);
    FinishesMove(s.threads, s.log, s.finished, s.arrived, i, b);
    LocatedTake(s, i, k);
    HandsTake(s.threads, s.pool, s.queues, i, k);
    OrderTake(s.queues, k);
    WorkersStep(s.threads, s.workers, s.arrived, i, b);
  }

  /** What holds of the request at the head of a queue. */
  ghost predicate HeadOk(qs: map<Key, Queue>, k: Key) {
    var q := Q(qs, k);
    && q.pending != [] && q.running && q.taken + q.pending == q.accepted
    && Own(Begin(k, q.pending[0])) == Some(k)
    && Matches(k, q.pending[0])
  }

  lemma TakeFacts(cap: Key -> nat, qs: map<Key, Queue>, k: Key)
    requires QueuesOk(cap, qs) && Q(qs, k).pending != []
    ensures QueuesOk(cap, Taken(qs, k)) && HeadOk(qs, k)
  {
    var q := Q(qs, k);
    assert QueueOk(cap, k, q);
    assert q.pending == [q.pending[0]] + q.pending[1..];
    assert q.pending[0] in q.accepted;
    assert TakeNext(q).taken + TakeNext(q).pending == q.accepted;
    QueuesStep(cap, qs, k, TakeNext(q));
  }

  lemma TokensTake(ts: seq<Pc>, pool: seq<Key>, qs: map<Key, Queue>, i: nat, k: Key)
    requires i < |ts| && TokensOk(ts, pool, qs) && ts[i] == Top(k) && HeadOk(qs, k)
    ensures TokensOk(ts[i := Begin(k, Q(qs, k).pending[0])], pool, Taken(qs, k))
  {
    hide TokensOk;
    var b := Begin(k, Q(qs, k).pending[0]);
    assert Carry(b) == Carry(ts[i]);
    assert forall j :: Running(Taken(qs, k), j) == Running(qs, j);
    TokensStep(ts, pool, qs, i, b, pool, Taken(qs, k));
  }

  lemma JourneysTake(ts: seq<Pc>, qs: map<Key, Queue>, arrived: set<Request>, i: nat, k: Key)
    requires i < |ts| && JourneysOk(ts, qs, arrived) && ts[i] == Top(k) && HeadOk(qs, k)
    ensures JourneysOk(ts[i := Begin(k, Q(qs, k).pending[0])], Taken(qs, k), arrived)
  {
    hide JourneysOk;
    var h := Q(qs, k).pending[0];
    forall r: Request ensures JourneyShift(ts[i], qs, Begin(k, h), Taken(qs, k), r) {
      ShiftTake(qs, k, r);
    }
    JourneysStep(ts, qs, arrived, i, Begin(k, h), Taken(qs, k));
  }

  lemma ShiftTake(qs: map<Key, Queue>, k: Key, r: Request)
    requires HeadOk(qs, k)
    ensures JourneyShift(Top(k), qs, Begin(k, Q(qs, k).pending[0]), Taken(qs, k), r)
  {
    hide Pending, Accepted, Taken;
    TakenAt(qs, k, SessionKey(r.session), r);
    TakenAt(qs, k, ModelKey(r.model), r);
  }

  lemma TakenAt(qs: map<Key, Queue>, k: Key, at: Key, r: Request)
    requires HeadOk(qs, k)
    ensures Accepted(Taken(qs, k), at, r) == Accepted(qs, at, r)
    ensures Pending(Taken(qs, k), at, r) + Flag(at == k && r == Q(qs, k).pending[0]) == Pending(qs, at, r)
    ensures at == k ==> Pending(qs, at, r) <= Accepted(qs, at, r)
  {
    TakeCounts(Q(qs, k), r);
  }

  lemma TakeCounts(q: Queue, r: Request)
    requires q.pending != [] && q.taken + q.pending == q.accepted
    ensures multiset(q.pending)[r] == (if r == q.pending[0] then 1 else 0) + multiset(TakeNext(q).pending)[r]
    ensures multiset(q.pending)[r] <= multiset(q.accepted)[r]
  {
    assert q.pending == [q.pending[0]] + q.pending[1..];
    assert multiset(q.accepted) == multiset(q.taken) + multiset(q.pending);
  }

  lemma LocatedTake(s: State, i: nat, k: Key)
    requires i < |s.threads| && s.threads[i] == Top(k) && HeadOk(s.queues, k)
    requires LocatedOk(s.threads, s.queues, s.finished, s.arrived) && JourneysOk(s.threads, s.queues, s.arrived)
    ensures LocatedOk(s.threads[i := Begin(k, Q(s.queues, k).pending[0])], Taken(s.queues, k), s.finished, s.arrived)
  {
    hide LocatedOk, JourneysOk;
    var q := Q(s.queues, k);
    var h := q.pending[0];
    assert q.pending == [h] + q.pending[1..];
    assert h in s.arrived by { AcceptedArrived(s, k, h); }
    assert Held(Begin(k, h)) == Some(h) && Held(s.threads[i]) == None;
    assert forall r :: PassedOn(s.threads[i], s.queues, Begin(k, h), Taken(s.queues, k), s.finished, r);
    LocatedStep(s.threads, s.queues, s.finished, s.arrived, i, Begin(k, h), Taken(s.queues, k), s.finished, s.arrived);
  }

  lemma AcceptedArrived(s: State, k: Key, r: Request)
    requires JourneysOk(s.threads, s.queues, s.arrived) && r in Q(s.queues, k).accepted && Matches(k, r)
    ensures r in s.arrived
  {
    assert JourneyOf(s.threads, s.queues, s.arrived, r);
    assert multiset(Q(s.queues, k).accepted)[r] > 0;
  }

  lemma HandsTake(ts: seq<Pc>, pool: seq<Key>, qs: map<Key, Queue>, i: nat, k: Key)
    requires i < |ts| && TokensOk(ts, pool, qs) && HandsOk(ts, qs) && ts[i] == Top(k) && HeadOk(qs, k)
    ensures HandsOk(ts[i := Begin(k, Q(qs, k).pending[0])], Taken(qs, k))
  {
    hide TokensOk;
    OwnerRuns(ts, pool, qs, i, k);
    var ts', qs' := ts[i := Begin(k, Q(qs, k).pending[0])], Taken(qs, k);
    forall j | 0 <= j < |ts'| ensures InHand(qs', ts'[j]) {
      if j != i {
        assert InHand(qs, ts[j]) && Own(ts[j]) != Some(k);
      }
    }
  }

  lemma BeforeAppend<T>(xs: seq<T>, x: T, y: T, z: T)
    requires Before(xs, x, y)
    ensures Before(xs + [z], x, y)
  {
    var i, j :| 0 <= i < j < |xs| && xs[i] == x && xs[j] == y;
    assert (xs + [z])[i] == x && (xs + [z])[j] == y;
  }

  lemma OrderTake(qs: map<Key, Queue>, k: Key)
    requires OrderOk(qs) && Q(qs, k).pending != []
    ensures OrderOk(Taken(qs, k))
  {
    var qs' := Taken(qs, k);
    forall m ensures OrderOf(qs', Q(qs', ModelKey(m)).accepted) {
      var acc := Q(qs, ModelKey(m)).accepted;
      assert OrderOf(qs, acc);
      forall a, b | 0 <= a < b < |acc| && acc[a].session == acc[b].session
        ensures Before(Q(qs', SessionKey(acc[a].session)).taken, acc[a], acc[b])
      {
        if k == SessionKey(acc[a].session) {
          BeforeAppend(Q(qs, k).taken, acc[a], acc[b], Q(qs, k).pending[0]);
        }
      }
    }
  }

  // ---------------------------------------------------------------- offering work

  function Offered(cap: Key -> nat, qs: map<Key, Queue>, k: Key, r: Request): map<Key, Queue> {
    qs[k := Offer(Q(qs, k), r, cap(k))]
  }

  /** An accepting offer of `r` to queue `k`, moving the offering thread from `a` to `b`. */
  ghost predicate Accepting(cap: Key -> nat, qs: map<Key, Queue>, k: Key, r: Request, a: Pc, b: Pc) {
    && |Q(qs, k).pending| < cap(k) && Matches(k, r)
    && Own(a) == Own(b) && Claim(a) == None && Claim(b) == (if Q(qs, k).running then None else Some(k))
    && Submitting(b) == Forwarding(b) == Recording(a) == Recording(b) == multiset{}
    && (if k.SessionKey? then Submitting(a) == multiset{r} && Forwarding(a) == multiset{}
        else Submitting(a) == multiset{} && Forwarding(a) == multiset{r})
    && Held(a) == Some(r) && Held(b) == None
    && KeepsRole(a, b)
  }

  lemma OfferKeeps(cap: Key -> nat, s: State, i: nat, k: Key, r: Request, b: Pc)
    requires Inv(cap, s) && i < |s.threads| && Accepting(cap, s.queues, k, r, s.threads[i], b)
    ensures Inv(cap, Go(s.(queues := Offered(cap, s.queues, k, r)), i, b))
  {
    hide TokensOk, QueuesOk, JourneysOk, FinishesOk, LocatedOk, HandsOk, OrderOk, WorkersOk, Own, Held, IsWorkerPc;
    TokensOffer(cap, s.threads, s.pool, s.queues, i, k, r, b);
    QueuesOffer(cap, s.queues, k, r);
    JourneysOffer(cap, s.threads, s.queues, s.arrived, i, k, r, b);
    FinishesMove(s.threads, s.log, s.finished, s.arrived, i, b);
    LocatedOffer(cap, s, i, k, r, b);
    HandsOffer(cap, s.threads, s.queues, i, k, r, b);
    OrderOffer(cap, s.threads, s.queues, s.arrived, i, k, r, b);
    WorkersStep(s.threads, s.workers, s.arrived, i, b);
  }

  lemma TokensOffer(cap: Key -> nat, ts: seq<Pc>, pool: seq<Key>, qs: map<Key, Queue>, i: nat, k: Key, r: Request,
                    b: Pc)
    requires i < |ts| && TokensOk(ts, pool, qs) && Accepting(cap, qs, k, r, ts[i], b)
    ensures TokensOk(ts[i := b], pool, Offered(cap, qs, k, r))
  {
    hide TokensOk, Own, Held, IsWorkerPc;
    var qs' := Offered(cap, qs, k, r);
    forall j ensures Carry(b)[j] + Running(qs, j) == Carry(ts[i])[j] + Running(qs', j) {
    }
    TokensStep(ts, pool, qs, i, b, pool, qs');
  }

  lemma QueuesOffer(cap: Key -> nat, qs: map<Key, Queue>, k: Key, r: Request)
    requires QueuesOk(cap, qs) && |Q(qs, k).pending| < cap(k) && Matches(k, r)
    ensures QueuesOk(cap, Offered(cap, qs, k, r))
  {
    assert QueueOk(cap, k, Q(qs, k));
    QueuesStep(cap, qs, k, Offer(Q(qs, k), r, cap(k)));
  }

  lemma JourneysOffer(cap: Key -> nat, ts: seq<Pc>, qs: map<Key, Queue>, arrived: set<Request>, i: nat, k: Key,
                      r: Request, b: Pc)
    requires i < |ts| && JourneysOk(ts, qs, arrived) && Accepting(cap, qs, k, r, ts[i], b)
    ensures JourneysOk(ts[i := b], Offered(cap, qs, k, r), arrived)
  {
    hide JourneysOk, Own, Held, IsWorkerPc;
    forall x: Request ensures JourneyShift(ts[i], qs, b, Offered(cap, qs, k, r), x) {
      ShiftOffer(cap, qs, k, r, ts[i], b, x);
    }
    JourneysStep(ts, qs, arrived, i, b, Offered(cap, qs, k, r));
  }

  lemma ShiftOffer(cap: Key -> nat, qs: map<Key, Queue>, k: Key, r: Request, a: Pc, b: Pc, x: Request)
    requires Accepting(cap, qs, k, r, a, b)
    ensures JourneyShift(a, qs, b, Offered(cap, qs, k, r), x)
  {
    hide Own, Held, IsWorkerPc, Submitting, Forwarding, Recording;
    OfferedCounts(cap, qs, k, r, x);
    assert Submitting(a)[x] == Flag(k.SessionKey? && x == r) && Forwarding(a)[x] == Flag(k.ModelKey? && x == r);
  }

  lemma OfferedCounts(cap: Key -> nat, qs: map<Key, Queue>, k: Key, r: Request, x: Request)
    requires |Q(qs, k).pending| < cap(k) && Matches(k, r)
    ensures var qs', sk, mk := Offered(cap, qs, k, r), SessionKey(x.session), ModelKey(x.model);
      && Pending(qs', sk, x) == Pending(qs, sk, x) + Flag(k.SessionKey? && x == r)
      && Accepted(qs', sk, x) == Accepted(qs, sk, x) + Flag(k.SessionKey? && x == r)
      && Accepted(qs', mk, x) == Accepted(qs, mk, x) + Flag(k.ModelKey? && x == r)
  {
    hide Pending, Accepted;
    OfferedAt(cap, qs, k, r, SessionKey(x.session), x);
    OfferedAt(cap, qs, k, r, ModelKey(x.model), x);
  }

  lemma OfferedAt(cap: Key -> nat, qs: map<Key, Queue>, k: Key, r: Request, at: Key, x: Request)
    requires |Q(qs, k).pending| < cap(k)
    ensures var qs' := Offered(cap, qs, k, r);
      && Pending(qs', at, x) == Pending(qs, at, x) + Flag(at == k && x == r)
      && Accepted(qs', at, x) == Accepted(qs, at, x) + Flag(at == k && x == r)
  {
    OfferCounts(Q(qs, k), r, cap(k), x);
  }

  lemma OfferCounts(q: Queue, r: Request, cap: nat, x: Request)
    requires |q.pending| < cap
    ensures multiset(Offer(q, r, cap).pending)[x] == multiset(q.pending)[x] + Flag(x == r)
    ensures multiset(Offer(q, r, cap).accepted)[x] == multiset(q.accepted)[x] + Flag(x == r)
  {
  }

  lemma LocatedOffer(cap: Key -> nat, s: State, i: nat, k: Key, r: Request, b: Pc)
    requires i < |s.threads| && LocatedOk(s.threads, s.queues, s.finished, s.arrived)
    requires Accepting(cap, s.queues, k, r, s.threads[i], b)
    ensures LocatedOk(s.threads[i := b], Offered(cap, s.queues, k, r), s.finished, s.arrived)
  {
    hide LocatedOk, Own, Held, IsWorkerPc, Submitting, Forwarding, Recording;
    var qs' := Offered(cap, s.queues, k, r);
    assert forall x :: PassedOn(s.threads[i], s.queues, b, qs', s.finished, x);
    LocatedStep(s.threads, s.queues, s.finished, s.arrived, i, b, qs', s.finished, s.arrived);
  }

  lemma HandsOffer(cap: Key -> nat, ts: seq<Pc>, qs: map<Key, Queue>, i: nat, k: Key, r: Request, b: Pc)
    requires i < |ts| && HandsOk(ts, qs) && Forwarding(b) == multiset{}
    ensures HandsOk(ts[i := b], Offered(cap, qs, k, r))
  {
    HandsStep(ts, qs, i, b);
  }

  lemma OrderOffer(cap: Key -> nat, ts: seq<Pc>, qs: map<Key, Queue>, arrived: set<Request>, i: nat, k: Key,
                   r: Request, b: Pc)
    requires i < |ts| && OrderOk(qs) && HandsOk(ts, qs) && JourneysOk(ts, qs, arrived) &&
      Accepting(cap, qs, k, r, ts[i], b)
    ensures OrderOk(Offered(cap, qs, k, r))
  {
    hide Own, Held, IsWorkerPc, JourneysOk, HandsOk;
    if k.ModelKey? {
      assert LastIs(Q(qs, SessionKey(r.session)).taken, r) && r !in Q(qs, k).accepted by {
        ForwardFacts(ts, qs, arrived, i, r);
      }
      OrderForward(cap, qs, k, r);
    } else {
      var qs' := Offered(cap, qs, k, r);
      forall m ensures OrderOf(qs', Q(qs', ModelKey(m)).accepted) {
        assert OrderOf(qs, Q(qs, ModelKey(m)).accepted);
      }
    }
  }

  lemma ForwardFacts(ts: seq<Pc>, qs: map<Key, Queue>, arrived: set<Request>, i: nat, r: Request)
    requires i < |ts| && HandsOk(ts, qs) && JourneysOk(ts, qs, arrived) && Forwarding(ts[i]) == multiset{r}
    ensures LastIs(Q(qs, SessionKey(r.session)).taken, r)
    ensures r !in Q(qs, ModelKey(r.model)).accepted
  {
    assert r in Forwarding(ts[i]);
    assert InHand(qs, ts[i]);
    SumContains(ts, Forwarding, i);
    assert JourneyOf(ts, qs, arrived, r);
    assert multiset(Q(qs, ModelKey(r.model)).accepted)[r] == 0;
  }

  /** A request forwarded last comes after everything its session forwarded before. */
  lemma OrderForward(cap: Key -> nat, qs: map<Key, Queue>, k: Key, r: Request)
    requires OrderOk(qs) && k == ModelKey(r.model) && |Q(qs, k).pending| < cap(k)
    requires LastIs(Q(qs, SessionKey(r.session)).taken, r) && r !in Q(qs, k).accepted
    ensures OrderOk(Offered(cap, qs, k, r))
  {
    var qs' := Offered(cap, qs, k, r);
    forall m ensures OrderOf(qs', Q(qs', ModelKey(m)).accepted) {
      assert OrderOf(qs, Q(qs, ModelKey(m)).accepted);
      assert forall j: string :: Q(qs', SessionKey(j)) == Q(qs, SessionKey(j));
      if ModelKey(m) == k {
        OrderExtend(qs, Q(qs, k).accepted, r);
      }
      OrderFrame(qs, qs', Q(qs', ModelKey(m)).accepted);
    }
  }

  lemma OrderExtend(qs: map<Key, Queue>, acc: seq<Request>, r: Request)
    requires OrderOf(qs, acc) && LastIs(Q(qs, SessionKey(r.session)).taken, r) && r !in acc
    ensures OrderOf(qs, acc + [r])
  {
    var t := Q(qs, SessionKey(r.session)).taken;
    forall a | 0 <= a < |acc| && acc[a].session == r.session ensures Before(t, acc[a], r) {
      assert acc[a] in t;
      var p :| 0 <= p < |t| && t[p] == acc[a];
      assert t[|t| - 1] == r;
    }
  }

  lemma OrderFrame(qs: map<Key, Queue>, qs': map<Key, Queue>, acc: seq<Request>)
    requires OrderOf(qs, acc) && forall j: string :: Q(qs', SessionKey(j)) == Q(qs, SessionKey(j))
    ensures OrderOf(qs', acc)
  {
  }

  // ---------------------------------------------------------------- new threads

  lemma SpawnKeeps(cap: Key -> nat, s: State)
    requires Inv(cap, s)
    ensures Inv(cap, s.(threads := s.threads + [Done]))
  {
    hide QueuesOk, OrderOk, TokensOk, FinishesOk, JourneysOk, LocatedOk, HandsOk, WorkersOk;
    SpawnJourneySums(s.threads);
    SpawnOtherSums(s.threads);
    JourneysFrame(s.threads, s.threads + [Done], s.queues, s.arrived);
    LocatedFrame(s.threads, s.threads + [Done], s);
    HandsSpawn(s.threads, s.queues, s.workers, s.arrived);
  }

  lemma JourneysFrame(ts: seq<Pc>, ts': seq<Pc>, qs: map<Key, Queue>, arrived: set<Request>)
    requires JourneysOk(ts, qs, arrived)
    requires Sum(ts, Submitting) == Sum(ts', Submitting) && Sum(ts, Forwarding) == Sum(ts', Forwarding)
    ensures JourneysOk(ts', qs, arrived)
  {
    forall r: Request ensures JourneyOf(ts', qs, arrived, r) {
      assert JourneyOf(ts, qs, arrived, r);
    }
  }

  lemma LocatedFrame(ts: seq<Pc>, ts': seq<Pc>, s: State)
    requires Sum(ts, Holding) == Sum(ts', Holding) && Sum(ts, Carry) == Sum(ts', Carry) &&
      Sum(ts, Recording) == Sum(ts', Recording)
    ensures LocatedOk(ts, s.queues, s.finished, s.arrived) ==> LocatedOk(ts', s.queues, s.finished, s.arrived)
    ensures TokensOk(ts, s.pool, s.queues) ==> TokensOk(ts', s.pool, s.queues)
    ensures FinishesOk(ts, s.log, s.finished, s.arrived) ==> FinishesOk(ts', s.log, s.finished, s.arrived)
  {
    assert forall r :: Located(ts, s.queues, s.finished, r) ==> Located(ts', s.queues, s.finished, r);
  }

  lemma SpawnJourneySums(ts: seq<Pc>)
    ensures Sum(ts + [Done], Submitting) == Sum(ts, Submitting)
    ensures Sum(ts + [Done], Forwarding) == Sum(ts, Forwarding)
  {
    SumAppendNothing(ts, Submitting, Done);
    SumAppendNothing(ts, Forwarding, Done);
  }

  lemma SpawnOtherSums(ts: seq<Pc>)
    ensures Sum(ts + [Done], Carry) == Sum(ts, Carry)
    ensures Sum(ts + [Done], Recording) == Sum(ts, Recording)
    ensures Sum(ts + [Done], Holding) == Sum(ts, Holding)
  {
    SpawnCarry(ts);
    SpawnRecording(ts);
    SpawnHolding(ts);
  }

  lemma SpawnCarry(ts: seq<Pc>)
    ensures Sum(ts + [Done], Carry) == Sum(ts, Carry)
  {
    SumAppendNothing(ts, Carry, Done);
  }

  lemma SpawnRecording(ts: seq<Pc>)
    ensures Sum(ts + [Done], Recording) == Sum(ts, Recording)
  {
    SumAppendNothing(ts, Recording, Done);
  }

  lemma SpawnHolding(ts: seq<Pc>)
    ensures Sum(ts + [Done], Holding) == Sum(ts, Holding)
  {
    SumAppendNothing(ts, Holding, Done);
  }

  lemma HandsSpawn(ts: seq<Pc>, qs: map<Key, Queue>, workers: nat, arrived: set<Request>)
    requires HandsOk(ts, qs) && WorkersOk(ts, workers, arrived)
    ensures HandsOk(ts + [Done], qs) && WorkersOk(ts + [Done], workers, arrived)
  {
  }

  /** A new thread replaces a placeholder that holds nothing. */
  lemma Fill(ts: seq<Pc>, b: Pc)
    ensures (ts + [Done])[|ts| := b] == ts + [b]
  {
  }

  lemma PendingAccepted(cap: Key -> nat, qs: map<Key, Queue>, k: Key, r: Request)
    requires QueuesOk(cap, qs)
    ensures Pending(qs, k, r) <= Accepted(qs, k, r)
  {
    var q := Q(qs, k);
    assert QueueOk(cap, k, q);
    assert multiset(q.accepted) == multiset(q.taken) + multiset(q.pending);
  }

  lemma JourneysArrive(cap: Key -> nat, ts: seq<Pc>, qs: map<Key, Queue>, arrived: set<Request>, i: nat, r: Request)
    requires i < |ts| && QueuesOk(cap, qs) && JourneysOk(ts, qs, arrived) && r !in arrived && ts[i].Done?
    ensures JourneysOk(ts[i := Submit(r)], qs, arrived + {r})
  {
    hide QueuesOk;
    var ts' := ts[i := Submit(r)];
    SumUpdate(ts, Submitting, i, Submit(r));
    SumUpdate(ts, Forwarding, i, Submit(r));
    PendingAccepted(cap, qs, SessionKey(r.session), r);
    forall x: Request ensures JourneyOf(ts', qs, arrived + {r}, x) {
      assert JourneyOf(ts, qs, arrived, x);
      assert (Sum(ts', Submitting) + Submitting(ts[i]))[x] == (Sum(ts, Submitting) + Submitting(Submit(r)))[x];
      assert (Sum(ts', Forwarding) + Forwarding(ts[i]))[x] == (Sum(ts, Forwarding) + Forwarding(Submit(r)))[x];
    }
  }

  lemma FinishesWiden(ts: seq<Pc>, log: seq<(Request, Reason)>, finished: set<Request>, arrived: set<Request>,
                      arrived': set<Request>)
    requires FinishesOk(ts, log, finished, arrived) && arrived <= arrived'
    ensures FinishesOk(ts, log, finished, arrived')
  {
  }

  lemma JourneysWiden(ts: seq<Pc>, qs: map<Key, Queue>, arrived: set<Request>, arrived': set<Request>)
    requires JourneysOk(ts, qs, arrived) && arrived <= arrived'
    ensures JourneysOk(ts, qs, arrived')
  {
    forall r: Request ensures JourneyOf(ts, qs, arrived', r) {
      assert JourneyOf(ts, qs, arrived, r);
    }
  }

  lemma LocatedSpawn(s: State, i: nat, b: Pc, finished: set<Request>, arrived: set<Request>)
    requires i < |s.threads| && s.threads[i].Done? && LocatedOk(s.threads, s.queues, s.finished, s.arrived)
    requires s.finished <= finished && s.arrived <= arrived
    requires forall r :: r in arrived && r !in s.arrived ==> r in finished || Held(b) == Some(r)
    requires Held(b).Some? ==> Held(b).value in arrived
    ensures LocatedOk(s.threads[i := b], s.queues, finished, arrived)
  {
    hide LocatedOk;
    assert forall r :: PassedOn(s.threads[i], s.queues, b, s.queues, finished, r);
    LocatedStep(s.threads, s.queues, s.finished, s.arrived, i, b, s.queues, finished, arrived);
  }

  /** The parts of the invariant that a new thread without tokens does not touch. */
  lemma SpawnRest(s: State, i: nat, b: Pc, arrived: set<Request>)
    requires i < |s.threads| && s.threads[i].Done? && Carry(b) == multiset{} && Forwarding(b) == multiset{}
    requires s.arrived <= arrived && (Client(b).None? || Client(b).value in arrived)
    requires TokensOk(s.threads, s.pool, s.queues) && HandsOk(s.threads, s.queues) &&
      WorkersOk(s.threads, s.workers, s.arrived)
    ensures TokensOk(s.threads[i := b], s.pool, s.queues) && HandsOk(s.threads[i := b], s.queues)
    ensures WorkersOk(s.threads[i := b], s.workers, arrived)
  {
    hide TokensOk, HandsOk;
    TokensMove(s.threads, s.pool, s.queues, i, b, s.pool);
    HandsStep(s.threads, s.queues, i, b);
  }

  lemma ArriveKeeps(cap: Key -> nat, s: State, r: Request)
    requires Inv(cap, s) && Enabled(s, Arrive(r))
    ensures Inv(cap, Apply(cap, s, Arrive(r)))
  {
    hide TokensOk, QueuesOk, JourneysOk, FinishesOk, LocatedOk, HandsOk, OrderOk, WorkersOk;
    SpawnKeeps(cap, s);
    var t := s.(threads := s.threads + [Done]);
    var b := Submit(r);
    Fill(s.threads, b);
    SpawnRest(t, |s.threads|, b, s.arrived + {r});
    JourneysArrive(cap, t.threads, t.queues, t.arrived, |s.threads|, r);
    FinishesMove(t.threads, t.log, t.finished, t.arrived, |s.threads|, b);
    FinishesWiden(s.threads + [b], s.log, s.finished, s.arrived, s.arrived + {r});
    LocatedSpawn(t, |s.threads|, b, t.finished, t.arrived + {r});
  }

  lemma ArriveMalformedKeeps(cap: Key -> nat, s: State, r: Request)
    requires Inv(cap, s) && Enabled(s, ArriveMalformed(r))
    ensures Inv(cap, Apply(cap, s, ArriveMalformed(r)))
  {
    hide TokensOk, QueuesOk, JourneysOk, FinishesOk, LocatedOk, HandsOk, OrderOk, WorkersOk;
    SpawnKeeps(cap, s);
    var t := s.(threads := s.threads + [Done]);
    var b := Record(r, Error, Leave);
    Fill(s.threads, b);
    SpawnRest(t, |s.threads|, b, s.arrived + {r});
    JourneysMove(t.threads, t.queues, t.arrived, |s.threads|, b);
    JourneysWiden(s.threads + [b], s.queues, s.arrived, s.arrived + {r});
    FinishesMalformed(t, |s.threads|, r, b);
    LocatedSpawn(t, |s.threads|, b, t.finished + {r}, t.arrived + {r});
  }

  lemma FinishesMalformed(s: State, i: nat, r: Request, b: Pc)
    requires i < |s.threads| && FinishesOk(s.threads, s.log, s.finished, s.arrived) && r !in s.arrived
    requires Recording(s.threads[i]) == multiset{} && Recording(b) == multiset{r}
    ensures FinishesOk(s.threads[i := b], s.log, s.finished + {r}, s.arrived + {r})
  {
    FinishesStep(s.threads, s.log, s.finished, s.arrived + {r}, i, b, s.log, s.finished + {r});
  }

  lemma DisconnectKeeps(cap: Key -> nat, s: State, r: Request)
    requires Inv(cap, s) && Enabled(s, Disconnect(r))
    ensures Inv(cap, Apply(cap, s, Disconnect(r)))
  {
    hide TokensOk, QueuesOk, JourneysOk, FinishesOk, LocatedOk, HandsOk, OrderOk, WorkersOk;
    if r.stream {
      SpawnKeeps(cap, s);
    } else {
      CancelWaiter(cap, s, r);
    }
  }

  lemma CancelWaiter(cap: Key -> nat, s: State, r: Request)
    requires Inv(cap, s) && r in s.arrived
    ensures Inv(cap, s.(threads := s.threads + [Finish(r, Cancelled, Leave)]))
  {
    hide TokensOk, QueuesOk, JourneysOk, FinishesOk, LocatedOk, HandsOk, OrderOk, WorkersOk;
    SpawnKeeps(cap, s);
    var t := s.(threads := s.threads + [Done]);
    var b := Finish(r, Cancelled, Leave);
    Fill(s.threads, b);
    SpawnRest(t, |s.threads|, b, s.arrived);
    JourneysMove(t.threads, t.queues, t.arrived, |s.threads|, b);
    FinishesMove(t.threads, t.log, t.finished, t.arrived, |s.threads|, b);
    LocatedSpawn(t, |s.threads|, b, t.finished, t.arrived);
  }

  // ---------------------------------------------------------------- every step

  /** Steps of a thread inside its own code, with no effect on queues, pool or finish state. */
  ghost predicate LocalMove(finished: set<Request>, a: Pc, b: Pc) {
    && Own(a) == Own(b) && Claim(a) == Claim(b)
    && Recording(a) == Recording(b) && Submitting(b) == multiset{}
    && (Forwarding(b) == multiset{} || Forwarding(b) == Forwarding(a))
    && (Held(a) == Held(b) || (Held(b) == None && Held(a).Some? && Held(a).value in finished))
    && KeepsRole(a, b)
  }

  lemma LocalKeeps(cap: Key -> nat, s: State, i: nat, b: Pc)
    requires Inv(cap, s) && i < |s.threads| && LocalMove(s.finished, s.threads[i], b)
    ensures Inv(cap, Go(s, i, b))
  {
    hide Inv, Own, Held, IsWorkerPc, Recording, Submitting, Forwarding;
    MoveKeeps(cap, s, i, b, s.pool, s.cancelled);
  }

  lemma ModelTaskLocal(pc: Pc, finished: set<Request>, cancelled: bool, choice: Choice)
    requires IsModelTask(pc)
    ensures LocalMove(finished, pc, ModelTaskNext(pc, pc.r in finished, cancelled, choice))
  {
    match pc
    case Start(_) =>
    case CheckCancel(_) =>
    case EngineRun(_) =>
    case CatchAll(_) =>
    case CatchCancel(_) =>
  }

  lemma DrainKeeps(cap: Key -> nat, s: State, i: nat)
    requires Inv(cap, s) && i < |s.threads| && Active(s, s.threads[i]) && (s.threads[i].Idle? || s.threads[i].Top?)
    ensures Inv(cap, DrainStep(s, i))
  {
    hide Inv;
    match s.threads[i]
    case Idle => PickKeeps(cap, s, i);
    case Top(k) => if Q(s.queues, k).pending == [] { RetireKeeps(cap, s, i, k); } else { TakeKeeps(cap, s, i, k); }
  }

  lemma PickKeeps(cap: Key -> nat, s: State, i: nat)
    requires Inv(cap, s) && i < |s.threads| && s.threads[i].Idle? && s.pool != []
    ensures Inv(cap, DrainStep(s, i))
  {
    hide Inv;
    assert s.pool == [s.pool[0]] + s.pool[1..];
    MoveKeeps(cap, s, i, Top(s.pool[0]), s.pool[1..], s.cancelled);
  }

  lemma ModelTaskKeeps(cap: Key -> nat, s: State, i: nat, choice: Choice)
    requires Inv(cap, s) && i < |s.threads|
    requires IsModelTask(s.threads[i])
    ensures Inv(cap, ModelTaskStep(s, i, choice))
  {
    hide Inv, ModelTaskNext, LocalMove;
    var pc := s.threads[i];
    ModelTaskLocal(pc, s.finished, pc.r in s.cancelled, choice);
    LocalKeeps(cap, s, i, ModelTaskNext(pc, pc.r in s.finished, pc.r in s.cancelled, choice));
  }

  lemma SessionTaskKeeps(cap: Key -> nat, s: State, i: nat)
    requires Inv(cap, s) && i < |s.threads|
    requires s.threads[i].Execute? || s.threads[i].Enqueue? || s.threads[i].ScheduleModel?
    ensures Inv(cap, SessionTaskStep(cap, s, i))
  {
    hide Inv;
    match s.threads[i]
    case Execute(r) => ExecuteKeeps(cap, s, i, r);
    case Enqueue(r) => EnqueueKeeps(cap, s, i, r);
    case ScheduleModel(r) => ScheduleKeeps(cap, s, i, ModelKey(r.model), Top(SessionKey(r.session)));
  }

  lemma ExecuteKeeps(cap: Key -> nat, s: State, i: nat, r: Request)
    requires Inv(cap, s) && i < |s.threads| && s.threads[i] == Execute(r)
    ensures Inv(cap, SessionTaskStep(cap, s, i))
  {
    hide Inv;
    LocalKeeps(cap, s, i, if r in s.finished then Top(SessionKey(r.session)) else Enqueue(r));
  }

  lemma EnqueueKeeps(cap: Key -> nat, s: State, i: nat, r: Request)
    requires Inv(cap, s) && i < |s.threads| && s.threads[i] == Enqueue(r)
    ensures Inv(cap, SessionTaskStep(cap, s, i))
  {
    hide Inv;
    var k := ModelKey(r.model);
    if |Q(s.queues, k).pending| >= cap(k) {
      LocalKeeps(cap, s, i, Finish(r, Error, BackToTop(SessionKey(r.session))));
    } else {
      OfferKeeps(cap, s, i, k, r, if Q(s.queues, k).running then Top(SessionKey(r.session)) else ScheduleModel(r));
    }
  }

  /** Handing a claimed drain to the pool. */
  lemma ScheduleKeeps(cap: Key -> nat, s: State, i: nat, k: Key, b: Pc)
    requires Inv(cap, s) && i < |s.threads| && Claim(s.threads[i]) == Some(k) && Claim(b) == None &&
      Own(s.threads[i]) == Own(b)
    requires Held(b) == None && Submitting(b) == Forwarding(b) == Recording(b) == multiset{}
    requires KeepsRole(s.threads[i], b)
    ensures Inv(cap, Go(s.(pool := s.pool + [k]), i, b))
  {
    hide Inv;
    assert Held(s.threads[i]) == None && Recording(s.threads[i]) == multiset{};
    assert Carry(b) + multiset(s.pool + [k]) == Carry(s.threads[i]) + multiset(s.pool);
    MoveKeeps(cap, s, i, b, s.pool + [k], s.cancelled);
  }

  lemma FinishKeeps(cap: Key -> nat, s: State, i: nat)
    requires Inv(cap, s) && i < |s.threads| && (s.threads[i].Finish? || s.threads[i].Record?)
    ensures Inv(cap, FinishStep(s, i))
  {
    hide Inv, Own, Held, IsWorkerPc, Resume;
    match s.threads[i]
    case Finish(r, reason, ret) =>
      if r in s.finished {
        LoseKeeps(cap, s, i, r, reason, ret);
      } else {
        WinKeeps(cap, s, i, r, reason, ret);
      }
    case Record(r, reason, ret) => RecordKeeps(cap, s, i, r, reason, ret);
  }

  lemma LoseKeeps(cap: Key -> nat, s: State, i: nat, r: Request, reason: Reason, ret: Return)
    requires Inv(cap, s) && i < |s.threads| && s.threads[i] == Finish(r, reason, ret) && r in s.finished
    ensures Inv(cap, Go(s, i, Resume(r, ret)))
  {
    hide Inv, Resume;
    ResumeFacts(r, reason, ret);
    LocalKeeps(cap, s, i, Resume(r, ret));
  }

  lemma GatewayKeeps(cap: Key -> nat, s: State, i: nat)
    requires Inv(cap, s) && i < |s.threads| && Active(s, s.threads[i])
    requires s.threads[i].Submit? || s.threads[i].ScheduleSession? || s.threads[i].Wait?
    ensures Inv(cap, GatewayStep(cap, s, i))
  {
    hide Inv;
    match s.threads[i]
    case Submit(r) => SubmitKeeps(cap, s, i, r);
    case ScheduleSession(r) => ScheduleKeeps(cap, s, i, SessionKey(r.session), AfterSubmit(r));
    case Wait(r) => WaitKeeps(cap, s, i, r);
  }

  lemma SubmitKeeps(cap: Key -> nat, s: State, i: nat, r: Request)
    requires Inv(cap, s) && i < |s.threads| && s.threads[i] == Submit(r)
    ensures Inv(cap, GatewayStep(cap, s, i))
  {
    hide Inv;
    var k := SessionKey(r.session);
    if |Q(s.queues, k).pending| >= cap(k) {
      LocalKeeps(cap, s, i, Finish(r, Error, if r.stream then Leave else BackToWait));
    } else {
      OfferKeeps(cap, s, i, k, r, if Q(s.queues, k).running then AfterSubmit(r) else ScheduleSession(r));
    }
  }

  lemma WaitKeeps(cap: Key -> nat, s: State, i: nat, r: Request)
    requires Inv(cap, s) && i < |s.threads| && s.threads[i] == Wait(r) && Active(s, s.threads[i])
    ensures Inv(cap, GatewayStep(cap, s, i))
  {
    hide Inv;
    if r in s.finished {
      LocalKeeps(cap, s, i, Done);
    } else {
      CancelKeeps(cap, s, i, r);
    }
  }

  /** A waiter that sees its connection gone turns to finishing the request as cancelled. */
  lemma CancelKeeps(cap: Key -> nat, s: State, i: nat, r: Request)
    requires Inv(cap, s) && i < |s.threads| && s.threads[i] == Wait(r) && r in s.down
    ensures Inv(cap, Go(s.(cancelled := s.cancelled + {r}), i, Finish(r, Cancelled, Leave)))
  {
    hide TokensOk, QueuesOk, JourneysOk, FinishesOk, LocatedOk, HandsOk, OrderOk, WorkersOk;
    var b := Finish(r, Cancelled, Leave);
    TokensMove(s.threads, s.pool, s.queues, i, b, s.pool);
    JourneysMove(s.threads, s.queues, s.arrived, i, b);
    FinishesMove(s.threads, s.log, s.finished, s.arrived, i, b);
    HandsStep(s.threads, s.queues, i, b);
    WorkersCancel(s.threads, s.workers, s.arrived, i, b);
    LocatedGain(s, i, r, b);
  }

  lemma WorkersCancel(ts: seq<Pc>, workers: nat, arrived: set<Request>, i: nat, b: Pc)
    requires i < |ts| && ts[i].Wait? && Client(b).None? && WorkersOk(ts, workers, arrived)
    ensures WorkersOk(ts[i := b], workers, arrived)
  {
  }

  lemma LocatedGain(s: State, i: nat, r: Request, b: Pc)
    requires i < |s.threads| && LocatedOk(s.threads, s.queues, s.finished, s.arrived)
    requires Held(s.threads[i]) == None && Held(b) == Some(r) && r in s.arrived
    ensures LocatedOk(s.threads[i := b], s.queues, s.finished, s.arrived)
  {
    hide LocatedOk;
    assert forall x :: PassedOn(s.threads[i], s.queues, b, s.queues, s.finished, x);
    LocatedStep(s.threads, s.queues, s.finished, s.arrived, i, b, s.queues, s.finished, s.arrived);
  }

  lemma StepKeeps(cap: Key -> nat, s: State, l: Label)
    requires Inv(cap, s) && Enabled(s, l)
    ensures Inv(cap, Apply(cap, s, l))
  {
    hide Inv, DrainStep, SessionTaskStep, FinishStep, GatewayStep, ModelTaskStep;
    match l
    case Arrive(r) => ArriveKeeps(cap, s, r);
    case ArriveMalformed(r) => ArriveMalformedKeeps(cap, s, r);
    case Disconnect(r) => DisconnectKeeps(cap, s, r);
    case Thread(i, choice) =>
      var pc := s.threads[i];
      if pc.Idle? || pc.Top? { DrainKeeps(cap, s, i); }
      else if pc.Execute? || pc.Enqueue? || pc.ScheduleModel? { SessionTaskKeeps(cap, s, i); }
      else if pc.Finish? || pc.Record? { FinishKeeps(cap, s, i); }
      else if pc.Submit? || pc.ScheduleSession? || pc.Wait? { GatewayKeeps(cap, s, i); }
      else { ModelTaskKeeps(cap, s, i, choice); }
  }
}
