/**
 The two-layer request scheduler: one bounded FIFO per session and one per
 model, each served by at most one drain at a time, all drains sharing one
 thread pool.  The gateway counts requests and every request context can be
 finished by several racing parties.

 Each mutex-protected block and each atomic operation of the program is one
 step here; any number of threads interleave.  A run is a sequence of labels.
 */
module Scheduler {

  import opened Tally
  import opened Reasons
  import opened Options

  // ---------------------------------------------------------------- data

  /** A session's queue lives in its session object, a model's in the executor's table.  A session key stands for one
      such object: after an eviction, a new object under the same id has a queue of its own and would have to be
      given another key here. */
  datatype Key = SessionKey(session: string) | ModelKey(model: string)

  /** One request context; the id stands for the object's identity. */
  datatype Request = Request(id: nat, session: string, model: string, stream: bool)

  /** `pending` and `running` are the program's fields; `accepted` and `taken` are histories:
      everything ever pushed and everything ever popped, in order. */
  datatype Queue = Queue(pending: seq<Request>, running: bool, accepted: seq<Request>, taken: seq<Request>)

  /** Where a thread goes on after an EmitFinish call returns. */
  datatype Return = BackToTop(key: Key) | BackToCatchAll | BackToWait | Leave

  /** What a thread does next. */
  datatype Pc =
    | Idle                                  // pool worker waiting for a token
    | Top(key: Key)                         // at the head of a drain loop
    | Execute(r: Request)                   // session task: the `finished` test of Execute
    | Enqueue(r: Request)                   // session task: the locked block of SubmitPerModel
    | ScheduleModel(r: Request)             // session task: hand the model's drain to the pool
    | Start(r: Request)                     // model task: the `finished` test
    | CheckCancel(r: Request)               // model task: the `cancelled`, timeout and engine tests
    | EngineRun(r: Request)                 // model task: inside the engine
    | CatchAll(r: Request)                  // model task: has the engine finished the context?
    | CatchCancel(r: Request)               // model task: pick the reason for a forgotten finish
    | Finish(r: Request, reason: Reason, ret: Return)   // the exchange on `finished`
    | Record(r: Request, reason: Reason, ret: Return)   // the winner's finish callback
    | Submit(r: Request)                    // gateway: the locked block of the session queue
    | ScheduleSession(r: Request)           // gateway: hand the session's drain to the pool
    | Wait(r: Request)                      // gateway: waiting for finish or disconnect
    | Done

  datatype State = State(
    queues: map<Key, Queue>,
    pool: seq<Key>,
    threads: seq<Pc>,
    workers: nat,
    arrived: set<Request>,
    finished: set<Request>,
    cancelled: set<Request>,
    down: set<Request>,
    log: seq<(Request, Reason)>,
    total: int, inFlight: int, errors: int, cancels: int)

  /** Outcomes the program does not control. */
  datatype Choice = Proceed | QueueTimeout | NoEngine | EngineFinishes(reason: Reason) | EngineForgets

  datatype Label =
    | Arrive(r: Request)        // a well-formed chat request enters the gateway
    | ArriveMalformed(r: Request)  // a request answered with 400
    | Disconnect(r: Request)    // the connection of a request goes down
    | Thread(i: nat, choice: Choice)

  function Fresh(): Queue { Queue([], false, [], []) }

  function Q(qs: map<Key, Queue>, k: Key): Queue { if k in qs then qs[k] else Fresh() }

  // ---------------------------------------------------------------- steps

  /** The locked block of a submit: reject when full, else push and claim the drain if nobody has it. */
  function Offer(q: Queue, r: Request, cap: nat): Queue {
    if |q.pending| >= cap then q
    else Queue(q.pending + [r], true, q.accepted + [r], q.taken)
  }

  /** The locked block at the head of a drain loop. */
  function TakeNext(q: Queue): Queue {
    if q.pending == [] then q.(running := false)
    else q.(pending := q.pending[1..], taken := q.taken + [q.pending[0]])
  }

  function Resume(r: Request, ret: Return): Pc {
    match ret
    case BackToTop(k) => Top(k)
    case BackToCatchAll => CatchAll(r)
    case BackToWait => Wait(r)
    case Leave => Done
  }

  function AfterSubmit(r: Request): Pc { if r.stream then Done else Wait(r) }

  function Go(s: State, i: nat, pc: Pc): State
    requires i < |s.threads|
  {
    s.(threads := s.threads[i := pc])
  }

  predicate Enabled(s: State, l: Label) {
    match l
    case Arrive(r) => r !in s.arrived
    case ArriveMalformed(r) => r !in s.arrived
    case Disconnect(r) => r in s.arrived && r !in s.down
    case Thread(i, _) => i < |s.threads| && Active(s, s.threads[i])
  }

  /** Every program point can move except an idle worker without work and a waiter without news. */
  predicate Active(s: State, pc: Pc) {
    match pc
    case Idle => s.pool != []
    case Wait(r) => r in s.finished || r in s.down
    case Done => false
    case _ => true
  }

  function Apply(cap: Key -> nat, s: State, l: Label): State
    requires Enabled(s, l)
  {
    match l
    case Arrive(r) =>
      s.(arrived := s.arrived + {r}, total := s.total + 1, inFlight := s.inFlight + 1,
         threads := s.threads + [Submit(r)])
    case ArriveMalformed(r) =>
      s.(arrived := s.arrived + {r}, total := s.total + 1, inFlight := s.inFlight + 1,
         finished := s.finished + {r}, threads := s.threads + [Record(r, Error, Leave)])
    case Disconnect(r) =>
      s.(down := s.down + {r}, cancelled := s.cancelled + {r},
         threads := s.threads + [if r.stream then Done else Finish(r, Cancelled, Leave)])
    case Thread(i, choice) => ThreadStep(cap, s, i, choice)
  }

  function ThreadStep(cap: Key -> nat, s: State, i: nat, choice: Choice): State
    requires i < |s.threads| && Active(s, s.threads[i])
  {
    var pc := s.threads[i];
    if pc.Idle? || pc.Top? then DrainStep(s, i)
    else if pc.Execute? || pc.Enqueue? || pc.ScheduleModel? then SessionTaskStep(cap, s, i)
    else if pc.Finish? || pc.Record? then FinishStep(s, i)
    else if pc.Submit? || pc.ScheduleSession? || pc.Wait? then GatewayStep(cap, s, i)
    else ModelTaskStep(s, i, choice)
  }

  /** ThreadPool::WorkerLoop, and the heads of SessionExecutor::Drain and EngineExecutor::RunModelQueue. */
  function DrainStep(s: State, i: nat): State
    requires i < |s.threads| && Active(s, s.threads[i]) && (s.threads[i].Idle? || s.threads[i].Top?)
  {
    match s.threads[i]
    case Idle => Go(s.(pool := s.pool[1..]), i, Top(s.pool[0]))
    case Top(k) =>
      var q := Q(s.queues, k);
      var t := s.(queues := s.queues[k := TakeNext(q)]);
      if q.pending == [] then Go(t, i, Idle)
      else if k.SessionKey? then Go(t, i, Execute(q.pending[0]))
      else Go(t, i, Start(q.pending[0]))
  }

  /** EngineExecutor::Execute and SubmitPerModel, run as a session task. */
  function SessionTaskStep(cap: Key -> nat, s: State, i: nat): State
    requires i < |s.threads| && (s.threads[i].Execute? || s.threads[i].Enqueue? || s.threads[i].ScheduleModel?)
  {
    match s.threads[i]
    case Execute(r) =>
      if r in s.finished then Go(s, i, Top(SessionKey(r.session))) else Go(s, i, Enqueue(r))
    case Enqueue(r) =>
      var k := ModelKey(r.model);
      if |Q(s.queues, k).pending| >= cap(k) then Go(s, i, Finish(r, Error, BackToTop(SessionKey(r.session))))
      else
        Go(s.(queues := s.queues[k := Offer(Q(s.queues, k), r, cap(k))]), i,
           if Q(s.queues, k).running then Top(SessionKey(r.session)) else ScheduleModel(r))
    case ScheduleModel(r) =>
      Go(s.(pool := s.pool + [ModelKey(r.model)]), i, Top(SessionKey(r.session)))
  }

  predicate IsModelTask(pc: Pc) { pc.Start? || pc.CheckCancel? || pc.EngineRun? || pc.CatchAll? || pc.CatchCancel? }

  /** The task EngineExecutor::Execute puts into the model's queue: where it goes next. */
  function ModelTaskNext(pc: Pc, finished: bool, cancelled: bool, choice: Choice): Pc
    requires IsModelTask(pc)
  {
    match pc
    case Start(r) => if finished then Top(ModelKey(r.model)) else CheckCancel(r)
    case CheckCancel(r) =>
      if cancelled then Finish(r, Cancelled, BackToTop(ModelKey(r.model)))
      else if choice == QueueTimeout || choice == NoEngine then Finish(r, Error, BackToTop(ModelKey(r.model)))
      else EngineRun(r)
    case EngineRun(r) => if choice.EngineFinishes? then Finish(r, choice.reason, BackToCatchAll) else CatchAll(r)
    case CatchAll(r) => if finished then Top(ModelKey(r.model)) else CatchCancel(r)
    case CatchCancel(r) => Finish(r, if cancelled then Cancelled else Stop, BackToTop(ModelKey(r.model)))
  }

  function ModelTaskStep(s: State, i: nat, choice: Choice): State
    requires i < |s.threads| && IsModelTask(s.threads[i])
  {
    var pc := s.threads[i];
    Go(s, i, ModelTaskNext(pc, pc.r in s.finished, pc.r in s.cancelled, choice))
  }

  /** ServingContext::EmitFinish: the exchange, then the winner's callback with HttpGateway::RecordFinish. */
  function FinishStep(s: State, i: nat): State
    requires i < |s.threads| && (s.threads[i].Finish? || s.threads[i].Record?)
  {
    match s.threads[i]
    case Finish(r, reason, ret) =>
      if r in s.finished then Go(s, i, Resume(r, ret))
      else Go(s.(finished := s.finished + {r}), i, Record(r, reason, ret))
    case Record(r, reason, ret) => Go(Recorded(s, r, reason), i, Resume(r, ret))
  }

  function Recorded(s: State, r: Request, reason: Reason): State {
    s.(log := s.log + [(r, reason)], inFlight := s.inFlight - 1,
       errors := s.errors + (if reason == Error then 1 else 0),
       cancels := s.cancels + (if reason == Cancelled then 1 else 0))
  }

  /** SessionExecutor::Submit and WaitFinishOrCancel, as called by the gateway's handlers. */
  function GatewayStep(cap: Key -> nat, s: State, i: nat): State
    requires i < |s.threads| && Active(s, s.threads[i])
    requires s.threads[i].Submit? || s.threads[i].ScheduleSession? || s.threads[i].Wait?
  {
    match s.threads[i]
    case Submit(r) =>
      var k := SessionKey(r.session);
      if |Q(s.queues, k).pending| >= cap(k) then
        Go(s, i, Finish(r, Error, if r.stream then Leave else BackToWait))
      else
        Go(s.(queues := s.queues[k := Offer(Q(s.queues, k), r, cap(k))]), i,
           if Q(s.queues, k).running then AfterSubmit(r) else ScheduleSession(r))
    case ScheduleSession(r) =>
      Go(s.(pool := s.pool + [SessionKey(r.session)]), i, AfterSubmit(r))
    case Wait(r) =>
      if r in s.finished then Go(s, i, Done)
      else Go(s.(cancelled := s.cancelled + {r}), i, Finish(r, Cancelled, Leave))
  }

  function Init(workers: nat): State {
    State(map[], [], seq(workers, _ => Idle), workers, {}, {}, {}, {}, [], 0, 0, 0, 0)
  }

  predicate Legal(cap: Key -> nat, s: State, ls: seq<Label>)
    decreases |ls|
  {
    ls == [] || (Enabled(s, ls[0]) && Legal(cap, Apply(cap, s, ls[0]), ls[1..]))
  }

  function After(cap: Key -> nat, s: State, ls: seq<Label>): State
    requires Legal(cap, s, ls)
    decreases |ls|
  {
    if ls == [] then s else After(cap, Apply(cap, s, ls[0]), ls[1..])
  }

  // ---------------------------------------------------------------- what threads hold

  function Bag<T>(m: Option<T>): multiset<T> { if m.None? then multiset{} else multiset{m.value} }

  /** The drain a thread is executing. */
  function Own(pc: Pc): Option<Key> {
    match pc
    case Top(k) => Some(k)
    case Execute(r) => Some(SessionKey(r.session))
    case Enqueue(r) => Some(SessionKey(r.session))
    case ScheduleModel(r) => Some(SessionKey(r.session))
    case Start(r) => Some(ModelKey(r.model))
    case CheckCancel(r) => Some(ModelKey(r.model))
    case EngineRun(r) => Some(ModelKey(r.model))
    case CatchAll(r) => Some(ModelKey(r.model))
    case CatchCancel(r) => Some(ModelKey(r.model))
    case Finish(r, _, ret) => OwnReturn(r, ret)
    case Record(r, _, ret) => OwnReturn(r, ret)
    case _ => None
  }

  function OwnReturn(r: Request, ret: Return): Option<Key> {
    match ret
    case BackToTop(k) => Some(k)
    case BackToCatchAll => Some(ModelKey(r.model))
    case _ => None
  }

  /** The drain a thread has claimed and not yet handed to the pool. */
  function Claim(pc: Pc): Option<Key> {
    if pc.ScheduleModel? then Some(ModelKey(pc.r.model))
    else if pc.ScheduleSession? then Some(SessionKey(pc.r.session))
    else None
  }

  /** The drain tokens a thread holds. */
  function Carry(pc: Pc): multiset<Key> {
    if Claim(pc).None? then Bag(Own(pc)) else Bag(Own(pc)) + Bag(Claim(pc))
  }

  /** The request a gateway thread has yet to offer to its session. */
  function Submitting(pc: Pc): multiset<Request> {
    if pc.Submit? then multiset{pc.r} else multiset{}
  }

  /** The request a session task has yet to offer to its model. */
  function Forwarding(pc: Pc): multiset<Request> {
    if pc.Execute? || pc.Enqueue? then multiset{pc.r} else multiset{}
  }

  /** The request whose finish callback this thread has won and not yet run. */
  function Recording(pc: Pc): multiset<Request> {
    if pc.Record? then multiset{pc.r} else multiset{}
  }

  /** The request this thread is bound to pass on or to finish. */
  function Held(pc: Pc): Option<Request> {
    match pc
    case Submit(r) => Some(r)
    case Execute(r) => Some(r)
    case Enqueue(r) => Some(r)
    case Start(r) => Some(r)
    case CheckCancel(r) => Some(r)
    case EngineRun(r) => Some(r)
    case CatchAll(r) => Some(r)
    case CatchCancel(r) => Some(r)
    case Finish(r, _, _) => Some(r)
    case _ => None
  }

  function Holding(pc: Pc): multiset<Request> { Bag(Held(pc)) }

  predicate IsWorkerPc(pc: Pc) {
    match pc
    case Finish(_, _, ret) => ret.BackToTop? || ret.BackToCatchAll?
    case Record(_, _, ret) => ret.BackToTop? || ret.BackToCatchAll?
    case Submit(_) => false
    case ScheduleSession(_) => false
    case Wait(_) => false
    case Done => false
    case _ => true
  }

  /** The request a gateway thread serves. */
  function Client(pc: Pc): Option<Request> {
    match pc
    case Submit(r) => Some(r)
    case ScheduleSession(r) => Some(r)
    case Wait(r) => Some(r)
    case Finish(r, _, ret) => if ret.BackToWait? then Some(r) else None
    case Record(r, _, ret) => if ret.BackToWait? then Some(r) else None
    case _ => None
  }

  function Logged(log: seq<(Request, Reason)>): seq<Request> { seq(|log|, i requires 0 <= i < |log| => log[i].0) }
}
