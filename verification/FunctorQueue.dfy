/** The loop thread's side of the functor queue as an object: queueing, waking, and calling a batch. */
module FunctorQueue {

  import opened Bytes
  import opened EventLoop

  class LoopQueue<F> {
    var pending: seq<F>
    var calling: bool
    var eventfd: nat
    ghost var pushed: seq<F>
    ghost var executed: seq<F>

    /** The rest of the batch that is being called. */
    ghost var batch: seq<F>

    /** Every functor is in one place, in push order. */
    ghost predicate Valid()
      reads this
    {
      executed + batch + pending == pushed && (batch != [] ==> calling)
    }

    /** This object as a state of the step machine, the loop thread between two steps. */
    ghost function Value(): State<F>
      reads this
    {
      State(if calling then Calling(batch, false) else Swapping, pending, eventfd, 0, pushed, executed, false)
    }

    constructor ()
      ensures Valid() && pushed == [] && !calling
    {
      pending, calling, eventfd := [], false, 0;
      pushed, executed, batch := [], [], [];
    }

    /** queueInLoop on the loop thread: the poll must be woken only if functors are being called. */
    method QueueInLoop(f: F)
      requires Valid()
      modifies this`pending, this`pushed, this`eventfd
      ensures Valid() && pushed == old(pushed) + [f]
      ensures calling ==> Value() == Apply(Apply(old(Value()), OwnPush(f)), OwnWake)
      ensures !calling ==> eventfd == old(eventfd) && pending == old(pending) + [f]
    {
      pending := pending + [f];
      pushed := pushed + [f];
      if calling {
        eventfd := eventfd + 1;
      }
    }

    /** The functors that a running functor queues. */
    method QueueAll(fs: seq<F>)
      requires Valid() && calling
      modifies this`pending, this`pushed, this`eventfd
      ensures Valid() && pending == old(pending) + fs && eventfd == old(eventfd) + |fs|
      ensures pushed == old(pushed) + fs
    {
      for i := 0 to |fs|
        invariant Valid() && pending == old(pending) + fs[..i] && eventfd == old(eventfd) + i &&
          pushed == old(pushed) + fs[..i]
      {
        QueueInLoop(fs[i]);
      }
    }

    /** One functor of the batch runs. */
    method CallNext(f: F, fs: seq<F>)
      requires Valid() && calling && batch != [] && f == batch[0]
      modifies this`pending, this`pushed, this`eventfd, this`executed, this`batch
      ensures Valid() && executed == old(executed) + [f] && batch == old(batch)[1..]
      ensures pending == old(pending) + fs && eventfd == old(eventfd) + |fs| && pushed == old(pushed) + fs
    {
      executed, batch := executed + [f], batch[1..];
      QueueAll(fs);
    }

    /** doPendingFunctors, the i-th functor queueing `more[i]`: the batch swapped out is executed whole and in order,
        what was queued meanwhile waits for the next round, and then the next poll returns at once. */
    method DoPendingFunctors(more: seq<seq<F>>)
      requires Valid() && !calling && |more| == |pending|
      modifies this
      ensures Valid() && !calling && batch == []
      ensures executed == old(executed) + old(pending) && pending == Concat(more)
      ensures pushed == old(pushed) + Concat(more)
      ensures pending != [] ==> eventfd > 0
    {
      ghost var was, base := executed, pushed;
      calling := true;
      var functors := pending;
      batch, pending := functors, [];
      assert more[..0] == [];
      for i := 0 to |functors|
        invariant Valid() && calling && batch == functors[i..] && executed == was + functors[..i]
        invariant pending == Concat(more[..i]) && pushed == base + Concat(more[..i])
        invariant pending != [] ==> eventfd > 0
      {
        assert more[..i + 1] == more[..i] + [more[i]];
        ConcatOne(more[..i], more[i]);
        Associative(base, Concat(more[..i]), more[i]);
        hide Concat;
        CallNext(functors[i], more[i]);
      }
      assert more[..|more|] == more;
      calling := false;
    }
  }
}
