/**
 Why requests finish as they do, and when the engine runs: read off the labels
 of a run and the states between them.
 */
module SchedulerReasons {

  import opened Reasons
  import opened Options
  import opened Scheduler

  // ---------------------------------------------------------------- the states of a run

  /** The state before step `n` of a run. */
  function StateAt(cap: Key -> nat, s: State, ls: seq<Label>, n: nat): State
    requires Legal(cap, s, ls) && n <= |ls|
    decreases n
  {
    if n == 0 then s else StateAt(cap, Apply(cap, s, ls[0]), ls[1..], n - 1)
  }

  lemma {:induction false} StateAtStep(cap: Key -> nat, s: State, ls: seq<Label>, n: nat)
    requires Legal(cap, s, ls) && n < |ls|
    ensures Enabled(StateAt(cap, s, ls, n), ls[n])
    ensures StateAt(cap, s, ls, n + 1) == Apply(cap, StateAt(cap, s, ls, n), ls[n])
    decreases n
  {
    hide Apply, Enabled;
    if n > 0 {
      StateAtStep(cap, Apply(cap, s, ls[0]), ls[1..], n - 1);
    }
  }

  lemma {:induction false} StateAtEnd(cap: Key -> nat, s: State, ls: seq<Label>)
    requires Legal(cap, s, ls)
    ensures StateAt(cap, s, ls, |ls|) == After(cap, s, ls)
    decreases |ls|
  {
    hide Apply, Enabled;
    if ls != [] {
      StateAtEnd(cap, Apply(cap, s, ls[0]), ls[1..]);
    }
  }

  // ---------------------------------------------------------------- causes

  /** Thread `i` moves by this label, standing at `pc`. */
  predicate Moves(s: State, l: Label, pc: Pc) { l.Thread? && l.i < |s.threads| && s.threads[l.i] == pc }

  /** The step, taken in state `s`, that decides that a request is to finish with a reason. */
  predicate Cause(cap: Key -> nat, s: State, l: Label, r: Request, reason: Reason) {
    match reason
    case Cancelled =>
      || (l == Disconnect(r) && !r.stream)                      // the connection's close callback
      || (Moves(s, l, Wait(r)) && r in s.down)                  // the waiting handler finds the connection down
      || (Moves(s, l, CheckCancel(r)) && r in s.cancelled)      // the model task finds it cancelled before the engine
      || (Moves(s, l, CatchCancel(r)) && r in s.cancelled)      // or after an engine that forgot to finish
      || (Moves(s, l, EngineRun(r)) && l.choice == EngineFinishes(Cancelled))
    case Error =>
      || l == ArriveMalformed(r)
      || (Moves(s, l, Submit(r)) && |Q(s.queues, SessionKey(r.session)).pending| >= cap(SessionKey(r.session)))
      || (Moves(s, l, Enqueue(r)) && |Q(s.queues, ModelKey(r.model)).pending| >= cap(ModelKey(r.model)))
      || (Moves(s, l, CheckCancel(r)) && r !in s.cancelled && (l.choice == QueueTimeout || l.choice == NoEngine))
      || (Moves(s, l, EngineRun(r)) && l.choice == EngineFinishes(Error))
    case Stop =>
      || (Moves(s, l, EngineRun(r)) && l.choice == EngineFinishes(Stop))
      || (Moves(s, l, CatchCancel(r)) && r !in s.cancelled)
    case Length => Moves(s, l, EngineRun(r)) && l.choice == EngineFinishes(Length)
  }

  /** Some step of the run decided so. */
  ghost predicate Caused(cap: Key -> nat, s: State, ls: seq<Label>, r: Request, reason: Reason)
    requires Legal(cap, s, ls)
  {
    exists n :: 0 <= n < |ls| && Cause(cap, StateAt(cap, s, ls, n), ls[n], r, reason)
  }

  /** What a thread is about to finish a request with. */
  function Verdict(pc: Pc): Option<(Request, Reason)> {
    match pc
    case Finish(r, reason, _) => Some((r, reason))
    case Record(r, reason, _) => Some((r, reason))
    case _ => None
  }

  ghost predicate Decided(s: State, r: Request, reason: Reason) {
    exists j :: 0 <= j < |s.threads| && Verdict(s.threads[j]) == Some((r, reason))
  }

  /** A thread comes to finish a request with a reason only by a step that causes it. */
  lemma StepDecides(cap: Key -> nat, s: State, l: Label, r: Request, reason: Reason)
    requires Enabled(s, l) && Decided(Apply(cap, s, l), r, reason)
    ensures Decided(s, r, reason) || Cause(cap, s, l, r, reason)
  {
    var t := Apply(cap, s, l);
    var j :| 0 <= j < |t.threads| && Verdict(t.threads[j]) == Some((r, reason));
    if j < |s.threads| && t.threads[j] == s.threads[j] {
    } else if l.Thread? {
      ThreadDecides(cap, s, l.i, l.choice, j, r, reason);
    }
  }

  lemma ThreadDecides(cap: Key -> nat, s: State, i: nat, choice: Choice, j: nat, r: Request, reason: Reason)
    requires i < |s.threads| && Active(s, s.threads[i])
    requires var t := ThreadStep(cap, s, i, choice);
      j < |t.threads| && t.threads[j] != s.threads[j] && Verdict(t.threads[j]) == Some((r, reason))
    ensures Decided(s, r, reason) || Cause(cap, s, Thread(i, choice), r, reason)
  {
    assert i == j;
    if s.threads[i].Finish? || s.threads[i].Record? {
      hide Cause;
      assert Verdict(s.threads[i]) == Some((r, reason));
    } else if IsModelTask(s.threads[i]) {
      ModelTaskDecides(cap, s, i, choice, r, reason);
    } else {
      hide ModelTaskStep, FinishStep;
    }
  }

  lemma ModelTaskDecides(cap: Key -> nat, s: State, i: nat, choice: Choice, r: Request, reason: Reason)
    requires i < |s.threads| && IsModelTask(s.threads[i])
    requires Verdict(ModelTaskStep(s, i, choice).threads[i]) == Some((r, reason))
    ensures Cause(cap, s, Thread(i, choice), r, reason)
  {
  }

  /** The log grows only by what a thread at its finish callback carries. */
  lemma StepLogs(cap: Key -> nat, s: State, l: Label)
    requires Enabled(s, l)
    ensures var t := Apply(cap, s, l);
      || t.log == s.log
      || (&& l.Thread? && s.threads[l.i].Record?
          && t.log == s.log + [(s.threads[l.i].r, s.threads[l.i].reason)])
  {
  }

  lemma CausedLater(cap: Key -> nat, s: State, ls: seq<Label>, r: Request, reason: Reason)
    requires Legal(cap, s, ls) && ls != [] && Caused(cap, Apply(cap, s, ls[0]), ls[1..], r, reason)
    ensures Caused(cap, s, ls, r, reason)
  {
    hide Apply, Enabled, Cause;
    var t, rest := Apply(cap, s, ls[0]), ls[1..];
    var n :| 0 <= n < |rest| && Cause(cap, StateAt(cap, t, rest, n), rest[n], r, reason);
    assert StateAt(cap, s, ls, n + 1) == StateAt(cap, t, rest, n) && ls[n + 1] == rest[n];
  }

  lemma CausedNow(cap: Key -> nat, s: State, ls: seq<Label>, r: Request, reason: Reason)
    requires Legal(cap, s, ls) && ls != [] && Cause(cap, s, ls[0], r, reason)
    ensures Caused(cap, s, ls, r, reason)
  {
    assert StateAt(cap, s, ls, 0) == s;
  }

  /** Whatever a thread has decided at the end of a run was decided at its start or caused by one of its steps. */
  lemma {:induction false} DecidedIsCaused(cap: Key -> nat, s: State, ls: seq<Label>, r: Request, reason: Reason)
    requires Legal(cap, s, ls) && Decided(After(cap, s, ls), r, reason)
    ensures Decided(s, r, reason) || Caused(cap, s, ls, r, reason)
    decreases |ls|
  {
    hide Apply, Enabled, Decided, Cause, Caused;
    if ls != [] {
      var t := Apply(cap, s, ls[0]);
      DecidedIsCaused(cap, t, ls[1..], r, reason);
      if Decided(t, r, reason) {
        StepDecides(cap, s, ls[0], r, reason);
        if Cause(cap, s, ls[0], r, reason) {
          CausedNow(cap, s, ls, r, reason);
        }
      } else {
        CausedLater(cap, s, ls, r, reason);
      }
    }
  }

  /** Whatever is logged during a run was decided at its start or caused by one of its steps. */
  lemma {:induction false} LoggedIsCaused(cap: Key -> nat, s: State, ls: seq<Label>, k: nat)
    requires Legal(cap, s, ls)
    ensures s.log <= After(cap, s, ls).log
    ensures |s.log| <= k < |After(cap, s, ls).log| ==>
      var (r, reason) := After(cap, s, ls).log[k]; Decided(s, r, reason) || Caused(cap, s, ls, r, reason)
    decreases |ls|
  {
    hide Apply, Enabled, Decided, Cause, Caused;
    if ls != [] {
      var t, u := Apply(cap, s, ls[0]), After(cap, s, ls);
      LoggedIsCaused(cap, t, ls[1..], k);
      LogStep(cap, s, ls[0]);
      if |s.log| <= k < |u.log| {
        var r, reason := u.log[k].0, u.log[k].1;
        if k >= |t.log| {
          if Decided(t, r, reason) {
            StepDecides(cap, s, ls[0], r, reason);
            if Cause(cap, s, ls[0], r, reason) {
              CausedNow(cap, s, ls, r, reason);
            }
          } else {
            CausedLater(cap, s, ls, r, reason);
          }
        } else {
          assert u.log[k] == t.log[k];
        }
      }
    }
  }

  lemma LogStep(cap: Key -> nat, s: State, l: Label)
    requires Enabled(s, l)
    ensures var t := Apply(cap, s, l);
      && s.log <= t.log && |t.log| <= |s.log| + 1
      && (|t.log| > |s.log| ==> Decided(s, t.log[|s.log|].0, t.log[|s.log|].1))
  {
    StepLogs(cap, s, l);
    var t := Apply(cap, s, l);
    hide Apply;
    if t.log != s.log {
      assert Verdict(s.threads[l.i]) == Some((s.threads[l.i].r, s.threads[l.i].reason));
    }
  }

  /** In every run each recorded reason has its cause: an error means a malformed request, a full queue, a queue
      timeout, a missing engine or an engine's error; stop and length are the engine's, or stop stands for an engine
      that forgot to finish an uncancelled request. */
  lemma ReasonsHaveCauses(cap: Key -> nat, workers: nat, ls: seq<Label>, k: nat)
    requires Legal(cap, Init(workers), ls) && k < |After(cap, Init(workers), ls).log|
    ensures var (r, reason) := After(cap, Init(workers), ls).log[k]; Caused(cap, Init(workers), ls, r, reason)
  {
    var s := Init(workers);
    LoggedIsCaused(cap, s, ls, k);
    var (r, reason) := After(cap, s, ls).log[k];
    hide Legal, After, Caused;
    assert !Decided(s, r, reason);
  }

  // ---------------------------------------------------------------- cancellation

  lemma CancelGrows(cap: Key -> nat, s: State, l: Label)
    requires Enabled(s, l) && s.cancelled == s.down
    ensures Apply(cap, s, l).cancelled == Apply(cap, s, l).down && s.cancelled <= Apply(cap, s, l).cancelled
  {
  }

  lemma CancelStep(cap: Key -> nat, s: State, l: Label, r: Request)
    requires Enabled(s, l)
    ensures r in Apply(cap, s, l).down <==> r in s.down || l == Disconnect(r)
  {
  }

  /** A request is cancelled exactly when its connection has gone down. */
  lemma {:induction false} CancelledIff(cap: Key -> nat, s: State, ls: seq<Label>, r: Request)
    requires Legal(cap, s, ls) && s.cancelled == s.down
    ensures var t := After(cap, s, ls);
      t.cancelled == t.down && (r in t.cancelled <==> r in s.cancelled || Disconnect(r) in ls)
    decreases |ls|
  {
    hide Apply, Enabled;
    if ls != [] {
      CancelGrows(cap, s, ls[0]);
      CancelStep(cap, s, ls[0], r);
      CancelledIff(cap, Apply(cap, s, ls[0]), ls[1..], r);
      assert Disconnect(r) in ls <==> ls[0] == Disconnect(r) || Disconnect(r) in ls[1..] by {
        assert ls == [ls[0]] + ls[1..];
      }
    }
  }

  lemma {:induction false} CancelledStays(cap: Key -> nat, workers: nat, ls: seq<Label>, n: nat, m: nat)
    requires Legal(cap, Init(workers), ls) && n <= m <= |ls|
    ensures StateAt(cap, Init(workers), ls, n).cancelled <= StateAt(cap, Init(workers), ls, m).cancelled
    ensures StateAt(cap, Init(workers), ls, m).cancelled == StateAt(cap, Init(workers), ls, m).down
    decreases m
  {
    if m > 0 {
      hide Apply, Enabled, StateAt;
      CancelledStays(cap, workers, ls, if n < m then n else n - 1, m - 1);
      StateAtStep(cap, Init(workers), ls, m - 1);
      CancelGrows(cap, StateAt(cap, Init(workers), ls, m - 1), ls[m - 1]);
    }
  }

  // ---------------------------------------------------------------- the way into the engine

  /** A step that takes thread `i` to a program point where it was not. */
  predicate Reaches(cap: Key -> nat, s: State, l: Label, i: nat, pc: Pc)
    requires Enabled(s, l)
  {
    var t := Apply(cap, s, l);
    i < |t.threads| && t.threads[i] == pc && !(i < |s.threads| && s.threads[i] == pc)
  }

  /** The engine is entered only from the cancellation check of the same request, uncancelled, in time, and with an
      engine at hand. */
  predicate PassesCheck(s: State, l: Label, i: nat, r: Request) {
    && Moves(s, l, CheckCancel(r)) && l.i == i && r !in s.cancelled
    && l.choice != QueueTimeout && l.choice != NoEngine
  }

  lemma EngineEntry(cap: Key -> nat, s: State, l: Label, i: nat, r: Request)
    requires Enabled(s, l) && Reaches(cap, s, l, i, EngineRun(r))
    ensures PassesCheck(s, l, i, r)
  {
  }

  /** The cancellation check is reached only from the start of the same request, found unfinished. */
  predicate PassesStart(s: State, l: Label, i: nat, r: Request) {
    Moves(s, l, Start(r)) && l.i == i && r !in s.finished
  }

  lemma CheckEntry(cap: Key -> nat, s: State, l: Label, i: nat, r: Request)
    requires Enabled(s, l) && Reaches(cap, s, l, i, CheckCancel(r))
    ensures PassesStart(s, l, i, r)
  {
  }

  /** A session task is forwarded only when found unfinished. */
  lemma ForwardEntry(cap: Key -> nat, s: State, l: Label, i: nat, r: Request)
    requires Enabled(s, l) && Reaches(cap, s, l, i, Enqueue(r))
    ensures Moves(s, l, Execute(r)) && l.i == i && r !in s.finished
  {
  }

  /** A forgotten finish is made up for only when the context was found unfinished after the engine returned. */
  lemma ForgottenEntry(cap: Key -> nat, s: State, l: Label, i: nat, r: Request)
    requires Enabled(s, l) && Reaches(cap, s, l, i, CatchCancel(r))
    ensures Moves(s, l, CatchAll(r)) && l.i == i && r !in s.finished
  {
  }

  /** The step that took thread `i` to a program point where it now stands. */
  lemma {:induction false} Reached(cap: Key -> nat, workers: nat, ls: seq<Label>, n: nat, i: nat, pc: Pc)
    returns (m: nat)
    requires Legal(cap, Init(workers), ls) && n <= |ls| && !pc.Idle?
    requires var s := StateAt(cap, Init(workers), ls, n); i < |s.threads| && s.threads[i] == pc
    ensures m < n && Enabled(StateAt(cap, Init(workers), ls, m), ls[m])
    ensures Reaches(cap, StateAt(cap, Init(workers), ls, m), ls[m], i, pc)
    decreases n
  {
    m := 0;
    if n > 0 {
      hide Apply, Enabled;
      StateAtStep(cap, Init(workers), ls, n - 1);
      var s := StateAt(cap, Init(workers), ls, n - 1);
      if i < |s.threads| && s.threads[i] == pc {
        m := Reached(cap, workers, ls, n - 1, i, pc);
      } else {
        m := n - 1;
      }
    }
  }

  /** In every run a request is inside the engine only after one step of its thread found it unfinished and a later
      one found it uncancelled. */
  lemma EngineRunsTested(cap: Key -> nat, workers: nat, ls: seq<Label>, i: nat, r: Request)
    returns (found: nat, passed: nat)
    requires Legal(cap, Init(workers), ls)
    requires var s := After(cap, Init(workers), ls); i < |s.threads| && s.threads[i] == EngineRun(r)
    ensures found < passed < |ls|
    ensures PassesStart(StateAt(cap, Init(workers), ls, found), ls[found], i, r)
    ensures PassesCheck(StateAt(cap, Init(workers), ls, passed), ls[passed], i, r)
  {
    var s := Init(workers);
    StateAtEnd(cap, s, ls);
    hide Apply, Enabled, Reaches, PassesStart, StateAt;
    passed := Reached(cap, workers, ls, |ls|, i, EngineRun(r));
    EngineEntry(cap, StateAt(cap, s, ls, passed), ls[passed], i, r);
    found := Reached(cap, workers, ls, passed, i, CheckCancel(r));
    CheckEntry(cap, StateAt(cap, s, ls, found), ls[found], i, r);
  }

  /** A request whose connection went down before it reached the engine never enters it. */
  lemma CancelledSkipsEngine(cap: Key -> nat, workers: nat, ls: seq<Label>, n: nat, m: nat, i: nat, r: Request)
    requires Legal(cap, Init(workers), ls) && n <= m < |ls|
    requires r in StateAt(cap, Init(workers), ls, n).down
    requires Enabled(StateAt(cap, Init(workers), ls, m), ls[m])
    ensures !Reaches(cap, StateAt(cap, Init(workers), ls, m), ls[m], i, EngineRun(r))
  {
    hide Apply, Enabled, Reaches, StateAt;
    CancelledStays(cap, workers, ls, n, n);
    CancelledStays(cap, workers, ls, n, m);
    if Reaches(cap, StateAt(cap, Init(workers), ls, m), ls[m], i, EngineRun(r)) {
      EngineEntry(cap, StateAt(cap, Init(workers), ls, m), ls[m], i, r);
    }
  }

  // ---------------------------------------------------------------- what a recorded cancellation means

  /** The engine finishes a request as cancelled only if it is; module Generation proves this of its loop. */
  ghost predicate HonestEngine(cap: Key -> nat, s: State, ls: seq<Label>)
    requires Legal(cap, s, ls)
  {
    forall n :: 0 <= n < |ls| ==> Honest(StateAt(cap, s, ls, n), ls[n])
  }

  predicate Honest(s: State, l: Label) {
    l.Thread? && l.i < |s.threads| && s.threads[l.i].EngineRun? && l.choice == EngineFinishes(Cancelled) ==>
      s.threads[l.i].r in s.cancelled
  }

  /** With such an engine, a request recorded as cancelled has lost its connection. */
  lemma CancelledMeansDisconnected(cap: Key -> nat, workers: nat, ls: seq<Label>, k: nat)
    requires Legal(cap, Init(workers), ls) && HonestEngine(cap, Init(workers), ls)
    requires k < |After(cap, Init(workers), ls).log| && After(cap, Init(workers), ls).log[k].1 == Cancelled
    ensures Disconnect(After(cap, Init(workers), ls).log[k].0) in ls
  {
    var s := Init(workers);
    var r := After(cap, s, ls).log[k].0;
    ReasonsHaveCauses(cap, workers, ls, k);
    hide Apply, Enabled;
    var n :| 0 <= n < |ls| && Cause(cap, StateAt(cap, s, ls, n), ls[n], r, Cancelled);
    assert Honest(StateAt(cap, s, ls, n), ls[n]);
    CancelledStays(cap, workers, ls, n, |ls|);
    CancelledStays(cap, workers, ls, n, n);
    StateAtEnd(cap, s, ls);
    CancelledIff(cap, s, ls, r);
  }

  // ---------------------------------------------------------------- waiting handlers

  /** A handler that serves a plain request, or may leave it. */
  predicate Serves(s: State, i: nat, r: Request) {
    i < |s.threads| && (Client(s.threads[i]) == Some(r) || r in s.finished || r in s.down)
  }

  lemma ServesStep(cap: Key -> nat, s: State, l: Label, i: nat, r: Request)
    requires Enabled(s, l) && !r.stream && Serves(s, i, r)
    ensures Serves(Apply(cap, s, l), i, r)
  {
  }

  /** The handler of a plain request stays with it until the request is finished or its connection is down. */
  lemma {:induction false} HandlerWaits(cap: Key -> nat, s: State, ls: seq<Label>, n: nat, m: nat)
    requires Legal(cap, s, ls) && n < m <= |ls| && ls[n].Arrive? && !ls[n].r.stream
    ensures Serves(StateAt(cap, s, ls, m), |StateAt(cap, s, ls, n).threads|, ls[n].r)
    decreases m
  {
    StateAtStep(cap, s, ls, m - 1);
    if m == n + 1 {
      assert StateAt(cap, s, ls, m).threads[|StateAt(cap, s, ls, n).threads|] == Submit(ls[n].r);
    } else {
      hide Apply, Enabled, Serves, StateAt;
      HandlerWaits(cap, s, ls, n, m - 1);
      ServesStep(cap, StateAt(cap, s, ls, m - 1), ls[m - 1], |StateAt(cap, s, ls, n).threads|, ls[n].r);
    }
  }
}
