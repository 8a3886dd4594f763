/**
 The event loop's functor queue and its eventfd wakeup.  Other threads push a
 functor under the mutex and then write the eventfd; the loop thread polls,
 handles events, swaps the queue out and runs the batch.  Every push, eventfd
 write, poll return and swap is one step; threads interleave freely.
 */
module EventLoop {

  /** Where the loop thread is. `owes` marks a push made by a running functor whose wakeup is still to come. */
  datatype LoopPc<F> =
    | BeforeLoop
    | Polling
    | Handling(woken: bool)
    | Swapping
    | Calling(batch: seq<F>, owes: bool)

  /** `waking` counts other threads between their push and their wakeup.  `pushed` and `executed` are
      histories; `early` records a push by the loop thread before loop() that no swap has taken yet. */
  datatype State<F> = State(
    pc: LoopPc<F>,
    pending: seq<F>,
    eventfd: nat,
    waking: nat,
    pushed: seq<F>,
    executed: seq<F>,
    early: bool)

  datatype Label<F> =
    | ForeignPush(f: F)       // queueInLoop on another thread: the locked push
    | ForeignWake             // ... and its write to the eventfd
    | OwnPush(f: F)           // queueInLoop on the loop thread
    | OwnWake                 // ... and its wakeup, due only while functors are being called
    | EnterLoop
    | PollReturns             // epoll reports the eventfd exactly when its counter is positive
    | HandleWakeup            // reading the eventfd resets its counter
    | EndHandling
    | Swap
    | RunNext
    | EndCalling

  function Init<F>(): State<F> { State(BeforeLoop, [], 0, 0, [], [], false) }

  predicate Enabled<F>(s: State<F>, l: Label<F>) {
    match l
    case ForeignPush(_) => true
    case ForeignWake => s.waking > 0
    case OwnPush(_) => s.pc.BeforeLoop? || s.pc.Handling? || (s.pc.Calling? && !s.pc.owes)
    case OwnWake => s.pc.Calling? && s.pc.owes
    case EnterLoop => s.pc.BeforeLoop?
    case PollReturns => s.pc.Polling?
    case HandleWakeup => s.pc.Handling? && s.pc.woken
    case EndHandling => s.pc.Handling? && !s.pc.woken
    case Swap => s.pc.Swapping?
    case RunNext => s.pc.Calling? && !s.pc.owes && s.pc.batch != []
    case EndCalling => s.pc.Calling? && !s.pc.owes && s.pc.batch == []
  }

  function Apply<F>(s: State<F>, l: Label<F>): State<F>
    requires Enabled(s, l)
  {
    match l
    case ForeignPush(f) => s.(pending := s.pending + [f], pushed := s.pushed + [f], waking := s.waking + 1)
    case ForeignWake => s.(waking := s.waking - 1, eventfd := s.eventfd + 1)
    case OwnPush(f) =>
      s.(pending := s.pending + [f], pushed := s.pushed + [f],
         early := s.early || s.pc.BeforeLoop?,
         pc := if s.pc.Calling? then s.pc.(owes := true) else s.pc)
    case OwnWake => s.(eventfd := s.eventfd + 1, pc := s.pc.(owes := false))
    case EnterLoop => s.(pc := Polling)
    case PollReturns => s.(pc := Handling(s.eventfd > 0))
    case HandleWakeup => s.(eventfd := 0, pc := Handling(false))
    case EndHandling => s.(pc := Swapping)
    case Swap => s.(pc := Calling(s.pending, false), pending := [], early := false)
    case RunNext => s.(executed := s.executed + [s.pc.batch[0]], pc := Calling(s.pc.batch[1..], false))
    case EndCalling => s.(pc := Polling)
  }

  predicate Legal<F>(s: State<F>, ls: seq<Label<F>>)
    decreases |ls|
  {
    ls == [] || (Enabled(s, ls[0]) && Legal(Apply(s, ls[0]), ls[1..]))
  }

  function After<F>(s: State<F>, ls: seq<Label<F>>): State<F>
    requires Legal(s, ls)
    decreases |ls|
  {
    if ls == [] then s else After(Apply(s, ls[0]), ls[1..])
  }

  // ---------------------------------------------------------------- the invariant

  function Batch<F>(s: State<F>): seq<F> { if s.pc.Calling? then s.pc.batch else [] }

  /** Every functor is in exactly one place, in push order. */
  ghost predicate InOrder<F>(s: State<F>) { s.executed + Batch(s) + s.pending == s.pushed }

  /** Someone will wake the next poll. */
  predicate WakeupDue<F>(s: State<F>) {
    s.eventfd > 0 || s.waking > 0 || s.early || (s.pc.Calling? && s.pc.owes)
  }

  /** Outside event handling, waiting functors always have a wakeup on the way. */
  predicate Covered<F>(s: State<F>) {
    (s.pc.BeforeLoop? || s.pc.Polling? || s.pc.Calling?) && s.pending != [] ==> WakeupDue(s)
  }

  ghost predicate Inv<F>(s: State<F>) { InOrder(s) && Covered(s) }

  lemma StepKeeps<F>(s: State<F>, l: Label<F>)
    requires Inv(s) && Enabled(s, l)
    ensures Inv(Apply(s, l))
  {
    var t := Apply(s, l);
    match l
    case ForeignPush(f) =>
      assert s.executed + Batch(s) + (s.pending + [f]) == (s.executed + Batch(s) + s.pending) + [f];
    case OwnPush(f) =>
      assert s.executed + Batch(s) + (s.pending + [f]) == (s.executed + Batch(s) + s.pending) + [f];
    case Swap => assert s.executed + s.pending + [] == s.executed + [] + s.pending;
    case RunNext =>
      assert s.pc.batch == [s.pc.batch[0]] + s.pc.batch[1..];
      assert t.executed + Batch(t) == s.executed + Batch(s);
    case ForeignWake =>
    case OwnWake =>
    case EnterLoop =>
    case PollReturns =>
    case HandleWakeup =>
    case EndHandling =>
    case EndCalling =>
  }

  lemma {:induction false} RunKeeps<F>(s: State<F>, ls: seq<Label<F>>)
    requires Inv(s) && Legal(s, ls)
    ensures Inv(After(s, ls))
    decreases |ls|
  {
    if ls != [] {
      StepKeeps(s, ls[0]);
      RunKeeps(Apply(s, ls[0]), ls[1..]);
    }
  }

  // ---------------------------------------------------------------- whole runs

  /** The functors queued by the labels of a run, in order. */
  function Queued<F>(ls: seq<Label<F>>): seq<F> {
    if ls == [] then [] else (if ls[0].ForeignPush? || ls[0].OwnPush? then [ls[0].f] else []) + Queued(ls[1..])
  }

  /** How many functors the labels of a run execute. */
  function Runs<F>(ls: seq<Label<F>>): nat { if ls == [] then 0 else (if ls[0].RunNext? then 1 else 0) + Runs(ls[1..]) }

  /** The eventfd counter: one more for each wakeup, zero again when it is read. */
  function Counter<F>(n: nat, ls: seq<Label<F>>): nat
    decreases |ls|
  {
    if ls == [] then n
    else
      Counter(if ls[0].ForeignWake? || ls[0].OwnWake? then n + 1 else if ls[0].HandleWakeup? then 0 else n, ls[1..])
  }

  /** In every run what has been queued and executed, and the counter, are what the labels say. */
  lemma {:induction false} RunSays<F>(s: State<F>, ls: seq<Label<F>>)
    requires Legal(s, ls)
    ensures var t := After(s, ls);
      && t.pushed == s.pushed + Queued(ls) && |t.executed| == |s.executed| + Runs(ls)
      && t.eventfd == Counter(s.eventfd, ls)
    decreases |ls|
  {
    if ls != [] {
      RunSays(Apply(s, ls[0]), ls[1..]);
    }
  }

  /** In every run the functors executed so far are the first ones queued, each once, in the order of queueing. */
  lemma ExecutedInPushOrder<F>(ls: seq<Label<F>>)
    requires Legal(Init<F>(), ls)
    ensures Runs(ls) <= |Queued(ls)| && After(Init<F>(), ls).executed == Queued(ls)[..Runs(ls)]
  {
    RunKeeps(Init<F>(), ls);
    RunSays(Init<F>(), ls);
    assert [] + Queued(ls) == Queued(ls);
  }

  /** The loop thread queued nothing before it entered loop(). */
  predicate QuietStart<F>(s: State<F>, ls: seq<Label<F>>)
    requires Legal(s, ls)
    decreases |ls|
  {
    ls == [] || (!(s.pc.BeforeLoop? && ls[0].OwnPush?) && QuietStart(Apply(s, ls[0]), ls[1..]))
  }

  lemma {:induction false} QuietIsNeverEarly<F>(s: State<F>, ls: seq<Label<F>>)
    requires Legal(s, ls) && QuietStart(s, ls) && !s.early
    ensures !After(s, ls).early
    decreases |ls|
  {
    if ls != [] {
      QuietIsNeverEarly(Apply(s, ls[0]), ls[1..]);
    }
  }

  /** No functor is lost: when the loop is about to poll with work waiting, the poll will return at once,
      or some thread is between its push and its wakeup. */
  lemma NoLostFunctor<F>(ls: seq<Label<F>>)
    requires Legal(Init<F>(), ls) && QuietStart(Init<F>(), ls)
    ensures var s := After(Init<F>(), ls); s.pc.Polling? && s.pending != [] ==> s.eventfd > 0 || s.waking > 0
  {
    RunKeeps(Init<F>(), ls);
    QuietIsNeverEarly(Init<F>(), ls);
  }

  /** The loop sleeps although work waits and nobody is about to wake it. */
  predicate Stuck<F>(s: State<F>) { s.pc.Polling? && s.pending != [] && s.eventfd == 0 && s.waking == 0 }

  predicate HasSwap<F>(ls: seq<Label<F>>) { exists i :: 0 <= i < |ls| && ls[i].Swap? }

  predicate HasForeignPush<F>(ls: seq<Label<F>>) { exists i :: 0 <= i < |ls| && ls[i].ForeignPush? }

  /** What a state tells about the run that led to it: whether the loop thread queued before loop(), whether another
      thread queued, and whether the queue has been swapped out. */
  ghost predicate Tells<F>(s: State<F>, own: bool, foreign: bool, swapped: bool) {
    && Inv(s)
    && (s.early <==> own && !swapped)
    && (s.pc.BeforeLoop? ==> !swapped) && (s.pc.Calling? ==> swapped)
    && ((s.pc.BeforeLoop? || s.pc.Polling?) && !swapped ==>
          (s.pending != [] <==> own || foreign) && (s.eventfd + s.waking > 0 <==> foreign))
  }

  lemma TellsStep<F>(s: State<F>, l: Label<F>, own: bool, foreign: bool, swapped: bool)
    requires Tells(s, own, foreign, swapped) && Enabled(s, l)
    ensures Tells(Apply(s, l), own || (s.pc.BeforeLoop? && l.OwnPush?), foreign || l.ForeignPush?, swapped || l.Swap?)
  {
    StepKeeps(s, l);
    hide InOrder;
  }

  lemma {:induction false} TellsRun<F>(s: State<F>, ls: seq<Label<F>>, own: bool, foreign: bool, swapped: bool)
    requires Tells(s, own, foreign, swapped) && Legal(s, ls)
    ensures Tells(After(s, ls), own || !QuietStart(s, ls), foreign || HasForeignPush(ls), swapped || HasSwap(ls))
    decreases |ls|
  {
    hide Tells, Enabled, Apply;
    if ls != [] {
      var l := ls[0];
      TellsStep(s, l, own, foreign, swapped);
      var own' := own || (s.pc.BeforeLoop? && l.OwnPush?);
      TellsRun(Apply(s, l), ls[1..], own', foreign || l.ForeignPush?, swapped || l.Swap?);
      HasMore(ls);
    }
  }

  lemma HasMore<F>(ls: seq<Label<F>>)
    requires ls != []
    ensures HasForeignPush(ls) <==> ls[0].ForeignPush? || HasForeignPush(ls[1..])
    ensures HasSwap(ls) <==> ls[0].Swap? || HasSwap(ls[1..])
  {
    assert forall i :: 1 <= i < |ls| ==> ls[i] == ls[1..][i - 1];
  }

  /** The hypothesis is exact: in every run, a loop about to poll sleeps on waiting work that nobody is about to
      announce if and only if the loop thread queued something before loop(), nobody else has queued anything, and
      the queue has not been swapped out yet. */
  lemma StuckIffQueuedEarly<F>(ls: seq<Label<F>>)
    requires Legal(Init<F>(), ls) && After(Init<F>(), ls).pc.Polling?
    ensures Stuck(After(Init<F>(), ls)) <==> !QuietStart(Init<F>(), ls) && !HasForeignPush(ls) && !HasSwap(ls)
  {
    TellsRun(Init<F>(), ls, false, false, false);
    hide Legal, After, QuietStart, HasForeignPush, HasSwap;
  }

  /** Delivery: from a poll, the loop alone reaches its next poll with everything pushed so far executed. */
  lemma LoopDelivers<F>(s: State<F>) returns (ls: seq<Label<F>>)
    requires Inv(s) && s.pc.Polling?
    ensures Legal(s, ls) && After(s, ls).pc.Polling? && After(s, ls).executed == After(s, ls).pushed == s.pushed
  {
    var t := Apply(s, PollReturns);
    var u := if s.eventfd > 0 then Apply(t, HandleWakeup) else t;
    var v := Apply(u, EndHandling);
    ls := RunBatch(Apply(v, Swap));
    ls := Prepend(v, Swap, ls);
    ls := Prepend(u, EndHandling, ls);
    if s.eventfd > 0 {
      ls := Prepend(t, HandleWakeup, ls);
    }
    ls := Prepend(s, PollReturns, ls);
    assert s.executed + [] + s.pending == s.executed + s.pending;
  }

  lemma Prepend<F>(s: State<F>, l: Label<F>, ls: seq<Label<F>>) returns (more: seq<Label<F>>)
    requires Enabled(s, l) && Legal(Apply(s, l), ls)
    ensures Legal(s, more) && After(s, more) == After(Apply(s, l), ls)
  {
    more := [l] + ls;
    assert more[1..] == ls;
  }

  lemma {:induction false} RunBatch<F>(s: State<F>) returns (ls: seq<Label<F>>)
    requires s.pc.Calling? && !s.pc.owes
    ensures Legal(s, ls) && After(s, ls) == s.(pc := Polling, executed := s.executed + s.pc.batch)
    decreases |Batch(s)|
  {
    if s.pc.batch == [] {
      ls := [EndCalling];
      assert ls[1..] == [];
      assert s.executed + s.pc.batch == s.executed;
    } else {
      var t := Apply(s, RunNext);
      var rest := RunBatch(t);
      ls := [RunNext] + rest;
      assert ls[1..] == rest;
      assert s.executed + s.pc.batch == s.executed + [s.pc.batch[0]] + s.pc.batch[1..];
    }
  }
}
