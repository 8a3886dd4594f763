/**
 Channels, the poller and the kernel's interest set.  A channel keeps the mask
 it wants, the poller keeps an index per channel and a map from descriptors to
 channels, and epoll keeps masks of its own; nothing but the order of the
 updates keeps the three in step.
 */
module Poller {

  datatype Event = ReadEvent | WriteEvent

  datatype Index = New | Added | Deleted

  datatype Reg = Reg(fd: int, events: set<Event>, index: Index, addedToLoop: bool)

  /** What epoll holds for a descriptor: the mask and the pointer given with it. */
  datatype Watch<C> = Watch(events: set<Event>, ptr: C)

  datatype State<C(==)> = State(regs: map<C, Reg>, channels: map<int, C>, kernel: map<int, Watch<C>>)

  datatype Control = CtlAdd | CtlMod | CtlDel

  datatype Op = EnableReading | DisableReading | EnableWriting | DisableWriting | DisableAll | Remove

  /** A step either completes, fails one of the assertions in the code, or makes epoll_ctl fail. */
  datatype Outcome<C(==)> = Done(state: State<C>) | AssertFails | KernelRefuses

  function NewMask(events: set<Event>, op: Op): set<Event>
    requires !op.Remove?
  {
    match op
    case EnableReading => events + {ReadEvent}
    case DisableReading => events - {ReadEvent}
    case EnableWriting => events + {WriteEvent}
    case DisableWriting => events - {WriteEvent}
    case DisableAll => {}
  }

  /** epoll_ctl on a live descriptor: adding twice and changing or deleting what is absent are errors. */
  function EpollCtl<C>(kernel: map<int, Watch<C>>, op: Control, fd: int, w: Watch<C>): (r: (bool, map<int, Watch<C>>)) {
    match op
    case CtlAdd => if fd in kernel then (false, kernel) else (true, kernel[fd := w])
    case CtlMod => if fd in kernel then (true, kernel[fd := w]) else (false, kernel)
    case CtlDel => if fd in kernel then (true, kernel - {fd}) else (false, kernel)
  }

  function Kernel<C>(s: State<C>, op: Control, c: C, reg: Reg): Outcome<C> {
    var r := EpollCtl(s.kernel, op, reg.fd, Watch(reg.events, c));
    if r.0 then Done(s.(kernel := r.1)) else KernelRefuses
  }

  function UpdateChannel<C>(s: State<C>, c: C, reg: Reg): Outcome<C> {
    if reg.index == New then
      if reg.fd in s.channels then AssertFails
      else Kernel(State(s.regs[c := reg.(index := Added)], s.channels[reg.fd := c], s.kernel), CtlAdd, c, reg)
    else if reg.fd !in s.channels || s.channels[reg.fd] != c then AssertFails
    else if reg.index == Deleted then
      Kernel(s.(regs := s.regs[c := reg.(index := Added)]), CtlAdd, c, reg)
    else if reg.events == {} then
      Kernel(s.(regs := s.regs[c := reg.(index := Deleted)]), CtlDel, c, reg)
    else
      Kernel(s.(regs := s.regs[c := reg]), CtlMod, c, reg)
  }

  function RemoveChannel<C>(s: State<C>, c: C, reg: Reg): Outcome<C> {
    if reg.events != {} || reg.fd !in s.channels || s.channels[reg.fd] != c || reg.index == New then AssertFails
    else
      var s1 := State(s.regs[c := reg.(index := New)], s.channels - {reg.fd}, s.kernel);
      if reg.index == Added then Kernel(s1, CtlDel, c, reg) else Done(s1)
  }

  function Step<C>(s: State<C>, c: C, op: Op): Outcome<C>
    requires c in s.regs
  {
    var reg := s.regs[c];
    if op.Remove? then RemoveChannel(s, c, reg.(addedToLoop := false))
    else UpdateChannel(s, c, reg.(events := NewMask(reg.events, op), addedToLoop := true))
  }

  // ---------------------------------------------------------------- agreement

  /** channels_ holds exactly the channels whose index is not kNew. */
  ghost predicate MapAgrees<C>(regs: map<C, Reg>, channels: map<int, C>) {
    && (forall fd :: fd in channels ==>
          channels[fd] in regs && regs[channels[fd]].fd == fd && regs[channels[fd]].index != New)
    && (forall c :: c in regs && regs[c].index != New ==> regs[c].fd in channels && channels[regs[c].fd] == c)
  }

  /** The kernel holds exactly the channels whose index is kAdded, with their current masks. */
  ghost predicate KernelAgrees<C>(regs: map<C, Reg>, kernel: map<int, Watch<C>>) {
    && (forall fd :: fd in kernel ==>
          kernel[fd].ptr in regs && regs[kernel[fd].ptr].fd == fd && regs[kernel[fd].ptr].index == Added)
    && (forall c :: c in regs && regs[c].index == Added ==>
          regs[c].fd in kernel && kernel[regs[c].fd] == Watch(regs[c].events, c))
  }

  ghost predicate Tidy<C>(regs: map<C, Reg>) {
    forall c :: c in regs ==>
      && (regs[c].index == Deleted ==> regs[c].events == {})
      && (regs[c].addedToLoop <==> regs[c].index != New)
  }

  ghost predicate Inv<C>(s: State<C>) {
    MapAgrees(s.regs, s.channels) && KernelAgrees(s.regs, s.kernel) && Tidy(s.regs)
  }

  /** What the callers owe: a descriptor is used by one registered channel at a time, and a channel is removed
      only while registered and with nothing enabled. */
  ghost predicate Proper<C>(s: State<C>, c: C, op: Op)
    requires c in s.regs
  {
    var reg := s.regs[c];
    if op.Remove? then reg.index != New && reg.events == {}
    else reg.index == New ==> forall d :: d in s.regs && s.regs[d].fd == reg.fd ==> s.regs[d].index == New
  }

  lemma ChannelsAreRegistered<C>(s: State<C>, c: C)
    requires Inv(s) && c in s.regs
    ensures s.regs[c].fd in s.channels <==>
      exists d :: d in s.regs && s.regs[d].fd == s.regs[c].fd && s.regs[d].index != New
    ensures s.regs[c].fd in s.kernel ==>
      s.regs[c].fd in s.channels && s.channels[s.regs[c].fd] == s.kernel[s.regs[c].fd].ptr
  {
    var fd := s.regs[c].fd;
    if fd in s.channels {
      assert s.regs[s.channels[fd]].index != New;
    }
  }

  /** An event of the kernel carries the channel that is registered for its descriptor. */
  lemma PolledIsRegistered<C>(s: State<C>, fd: int)
    requires Inv(s) && fd in s.kernel
    ensures fd in s.channels && s.channels[fd] == s.kernel[fd].ptr
    ensures var c := s.channels[fd]; c in s.regs && s.regs[c].fd == fd && s.regs[c].index == Added
    ensures s.kernel[fd].events == s.regs[s.channels[fd]].events
  {
    var c := s.kernel[fd].ptr;
    assert s.regs[c].fd == fd;
  }

  lemma FirstUpdateKeeps<C>(s: State<C>, c: C, reg: Reg)
    requires Inv(s) && c in s.regs && s.regs[c].index == reg.index == New && s.regs[c].fd == reg.fd && reg.addedToLoop
    requires reg.fd !in s.channels
    ensures UpdateChannel(s, c, reg).Done? && Inv(UpdateChannel(s, c, reg).state)
  {
    ChannelsAreRegistered(s, c);
  }

  lemma RevivingUpdateKeeps<C>(s: State<C>, c: C, reg: Reg)
    requires Inv(s) && c in s.regs && s.regs[c].index == reg.index == Deleted && s.regs[c].fd == reg.fd
    requires reg.addedToLoop
    ensures UpdateChannel(s, c, reg).Done? && Inv(UpdateChannel(s, c, reg).state)
  {
    ChannelsAreRegistered(s, c);
  }

  lemma LaterUpdateKeeps<C>(s: State<C>, c: C, reg: Reg)
    requires Inv(s) && c in s.regs && s.regs[c].index == reg.index == Added && s.regs[c].fd == reg.fd && reg.addedToLoop
    ensures UpdateChannel(s, c, reg).Done? && Inv(UpdateChannel(s, c, reg).state)
  {
    ChannelsAreRegistered(s, c);
  }

  lemma UpdateKeeps<C>(s: State<C>, c: C, op: Op)
    requires Inv(s) && c in s.regs && !op.Remove?
    ensures Step(s, c, op).Done? <==> Proper(s, c, op)
    ensures Step(s, c, op).Done? ==> Inv(Step(s, c, op).state)
    ensures !Step(s, c, op).KernelRefuses?
  {
    var reg := s.regs[c].(events := NewMask(s.regs[c].events, op), addedToLoop := true);
    ChannelsAreRegistered(s, c);
    hide Inv;
    match reg.index
    case New =>
      if reg.fd !in s.channels {
        FirstUpdateKeeps(s, c, reg);
      }
    case Deleted => RevivingUpdateKeeps(s, c, reg);
    case Added => LaterUpdateKeeps(s, c, reg);
  }

  lemma RemoveKeeps<C>(s: State<C>, c: C)
    requires Inv(s) && c in s.regs
    ensures Step(s, c, Remove).Done? <==> Proper(s, c, Remove)
    ensures Step(s, c, Remove).Done? ==> Inv(Step(s, c, Remove).state)
    ensures !Step(s, c, Remove).KernelRefuses?
  {
    ChannelsAreRegistered(s, c);
  }

  lemma StepKeeps<C>(s: State<C>, c: C, op: Op)
    requires Inv(s) && c in s.regs
    ensures Step(s, c, op).Done? <==> Proper(s, c, op)
    ensures Step(s, c, op).Done? ==> Inv(Step(s, c, op).state) && Step(s, c, op).state.regs.Keys == s.regs.Keys
    ensures !Step(s, c, op).KernelRefuses?
  {
    if op.Remove? {
      RemoveKeeps(s, c);
    } else {
      UpdateKeeps(s, c, op);
    }
  }

  /** The poller reads the fields of the channel it is given, whatever was recorded of it before. */
  lemma OwnRegIsOverwritten<C>(s: State<C>, c: C, reg: Reg)
    ensures var t := s.(regs := s.regs[c := reg]);
      UpdateChannel(t, c, reg) == UpdateChannel(s, c, reg) && RemoveChannel(t, c, reg) == RemoveChannel(s, c, reg)
  {
    var regs := s.regs[c := reg];
    assert regs[c := reg.(index := Added)] == s.regs[c := reg.(index := Added)];
    assert regs[c := reg.(index := Deleted)] == s.regs[c := reg.(index := Deleted)];
    assert regs[c := reg.(index := New)] == s.regs[c := reg.(index := New)];
    assert regs[c := reg] == s.regs[c := reg];
  }

  // ---------------------------------------------------------------- what an operation does

  /** The mask that the channel and the kernel hold after an update, event by event; a removed channel is known to
      neither table; other channels are left alone. */
  lemma StepEffect<C>(s: State<C>, c: C, op: Op)
    requires Inv(s) && c in s.regs && Step(s, c, op).Done?
    ensures var t := Step(s, c, op).state;
      var was, now, fd := s.regs[c].events, t.regs[c].events, s.regs[c].fd;
      && (ReadEvent in now <==>
            op == EnableReading || (ReadEvent in was && op != DisableReading && op != DisableAll))
      && (WriteEvent in now <==>
            op == EnableWriting || (WriteEvent in was && op != DisableWriting && op != DisableAll))
      && (now != {} ==> fd in t.kernel && t.kernel[fd] == Watch(now, c))
      && (op != Remove ==> fd in t.channels && t.channels[fd] == c)
      && (op == Remove ==> fd !in t.channels && fd !in t.kernel)
  {
    StepKeeps(s, c, op);
    ChannelsAreRegistered(s, c);
  }

  lemma StepSpares<C>(s: State<C>, c: C, op: Op)
    requires c in s.regs && Step(s, c, op).Done?
    ensures var t, fd := Step(s, c, op).state, s.regs[c].fd;
      && (forall d :: d in s.regs && d != c ==> d in t.regs && t.regs[d] == s.regs[d])
      && (forall f :: f != fd ==> (f in t.kernel <==> f in s.kernel) && (f in t.channels <==> f in s.channels))
      && (forall f :: f != fd && f in s.kernel ==> t.kernel[f] == s.kernel[f])
      && (forall f :: f != fd && f in s.channels ==> t.channels[f] == s.channels[f])
  {
  }

  // ---------------------------------------------------------------- runs

  predicate Known<C>(s: State<C>, ops: seq<(C, Op)>) { forall i :: 0 <= i < |ops| ==> ops[i].0 in s.regs }

  function Run<C>(s: State<C>, ops: seq<(C, Op)>): Outcome<C>
    requires Known(s, ops)
    decreases |ops|
  {
    if ops == [] then Done(s)
    else
      var r := Step(s, ops[0].0, ops[0].1);
      if r.Done? && r.state.regs.Keys == s.regs.Keys then Run(r.state, ops[1..]) else r
  }

  /** Every operation of the run is made as the callers owe it. */
  ghost predicate ProperRun<C>(s: State<C>, ops: seq<(C, Op)>)
    requires Known(s, ops)
    decreases |ops|
  {
    ops == [] ||
    (&& Proper(s, ops[0].0, ops[0].1)
     && var r := Step(s, ops[0].0, ops[0].1);
        r.Done? && r.state.regs.Keys == s.regs.Keys ==> ProperRun(r.state, ops[1..]))
  }

  ghost predicate Fresh<C>(s: State<C>) {
    && s.channels == map[] && s.kernel == map[]
    && forall c :: c in s.regs ==> s.regs[c] == Reg(s.regs[c].fd, {}, New, false)
  }

  /** Over every run of enable, disable and remove: epoll_ctl never fails, an assertion of the code fails exactly
      when a caller breaks its duty, and otherwise the three tables agree at the end. */
  lemma {:induction false} RunKeeps<C>(s: State<C>, ops: seq<(C, Op)>)
    requires Inv(s) && Known(s, ops)
    ensures !Run(s, ops).KernelRefuses?
    ensures Run(s, ops).Done? <==> ProperRun(s, ops)
    ensures Run(s, ops).Done? ==> Inv(Run(s, ops).state)
    decreases |ops|
  {
    hide Inv, Proper, Step;
    if ops != [] {
      StepKeeps(s, ops[0].0, ops[0].1);
      var r := Step(s, ops[0].0, ops[0].1);
      if r.Done? {
        RunKeeps(r.state, ops[1..]);
      }
    }
  }

  lemma FreshAgrees<C>(s: State<C>)
    requires Fresh(s)
    ensures Inv(s)
  {
  }

  /** The same from a poller that knows no channel yet. */
  lemma FreshRunKeeps<C>(s: State<C>, ops: seq<(C, Op)>)
    requires Fresh(s) && Known(s, ops)
    ensures !Run(s, ops).KernelRefuses?
    ensures Run(s, ops).Done? <==> ProperRun(s, ops)
    ensures Run(s, ops).Done? ==> Inv(Run(s, ops).state)
  {
    FreshAgrees(s);
    RunKeeps(s, ops);
  }

  // ---------------------------------------------------------------- quiet updates

  /** The kernel watches a registered channel exactly when the channel wants something. */
  ghost predicate Lean<C>(s: State<C>) {
    forall c :: c in s.regs ==> (s.regs[c].index == Added <==> s.regs[c].events != {})
  }

  /** An update that finds the mask empty and leaves it empty. */
  predicate QuietUpdate<C>(s: State<C>, c: C, op: Op)
    requires c in s.regs
  {
    !op.Remove? && s.regs[c].events == {} && NewMask(s.regs[c].events, op) == {}
  }

  /** Disabling what is not enabled is not harmless: it registers the channel again, with an empty mask. */
  lemma LeanKeptIff<C>(s: State<C>, c: C, op: Op)
    requires Inv(s) && Lean(s) && c in s.regs && Step(s, c, op).Done?
    ensures Lean(Step(s, c, op).state) <==> !QuietUpdate(s, c, op)
  {
    var s' := Step(s, c, op).state;
    assert c in s'.regs;
    assert forall d :: d in s.regs && d != c ==> s'.regs[d] == s.regs[d];
  }

  /** No update of the run finds and leaves an empty mask. */
  ghost predicate Purposeful<C>(s: State<C>, ops: seq<(C, Op)>)
    requires Known(s, ops)
    decreases |ops|
  {
    ops == [] ||
    (&& !QuietUpdate(s, ops[0].0, ops[0].1)
     && var r := Step(s, ops[0].0, ops[0].1);
        r.Done? && r.state.regs.Keys == s.regs.Keys ==> Purposeful(r.state, ops[1..]))
  }

  lemma {:induction false} PurposefulRunsStayLean<C>(s: State<C>, ops: seq<(C, Op)>)
    requires Inv(s) && Lean(s) && Known(s, ops) && Purposeful(s, ops) && Run(s, ops).Done?
    ensures Lean(Run(s, ops).state)
    decreases |ops|
  {
    hide Inv, Proper, Step, Lean, QuietUpdate;
    if ops != [] {
      StepKeeps(s, ops[0].0, ops[0].1);
      LeanKeptIff(s, ops[0].0, ops[0].1);
      PurposefulRunsStayLean(Step(s, ops[0].0, ops[0].1).state, ops[1..]);
    }
  }

  // ---------------------------------------------------------------- the objects

  class Channel {
    const fd: int
    var events: set<Event>
    var revents: int
    var index: Index
    var addedToLoop: bool

    constructor (fd: int)
      ensures this.fd == fd && Entry() == Reg(fd, {}, New, false)
    {
      this.fd := fd;
      events, revents, index, addedToLoop := {}, 0, New, false;
    }

    function Entry(): Reg
      reads this
    {
      Reg(fd, events, index, addedToLoop)
    }
  }

  class EpollPoller {
    var channels: map<int, Channel>
    var kernel: map<int, Watch<Channel>>
    ghost const all: set<Channel>

    ghost function Value(): (s: State<Channel>)
      reads this, all
      ensures s.regs.Keys == all && s.channels == channels && s.kernel == kernel
      ensures forall c :: c in all ==> s.regs[c] == c.Entry()
    {
      State(map c | c in all :: c.Entry(), channels, kernel)
    }

    /** The poller of channels that are not yet registered. */
    constructor (ghost all: set<Channel>)
      requires forall c :: c in all ==> c.Entry() == Reg(c.fd, {}, New, false)
      ensures Fresh(Value()) && this.all == all && unchanged(all)
    {
      channels, kernel := map[], map[];
      this.all := all;
    }

    /** Poller::update: the system call. */
    method Ctl(op: Control, c: Channel) returns (ok: bool)
      modifies this`kernel
      ensures (ok, kernel) == EpollCtl(old(kernel), op, c.fd, Watch(c.events, c))
    {
      var r := EpollCtl(kernel, op, c.fd, Watch(c.events, c));
      kernel := r.1;
      return r.0;
    }

    /** updateChannel, on a channel whose mask has just changed. */
    method Update(c: Channel)
      requires c in all && UpdateChannel(Value(), c, c.Entry()).Done?
      modifies this, c`index
      ensures Value() == UpdateChannel(old(Value()), c, old(c.Entry())).state
    {
      ghost var reg := c.Entry();
      ghost var next := UpdateChannel(Value(), c, reg).state;
      var ok;
      if c.index == New || c.index == Deleted {
        if c.index == New {
          assert c.fd !in channels;
          channels := channels[c.fd := c];
        } else {
          assert c.fd in channels && channels[c.fd] == c;
        }
        c.index := Added;
        ok := Ctl(CtlAdd, c);
      } else {
        assert c.fd in channels && channels[c.fd] == c;
        if c.events == {} {
          ok := Ctl(CtlDel, c);
          c.index := Deleted;
        } else {
          ok := Ctl(CtlMod, c);
        }
      }
      assert ok;
      assert Value().regs == next.regs;
    }

    /** removeChannel. */
    method Unregister(c: Channel)
      requires c in all && RemoveChannel(Value(), c, c.Entry()).Done? && !c.addedToLoop
      modifies this, c`index
      ensures Value() == RemoveChannel(old(Value()), c, old(c.Entry())).state
    {
      ghost var next := RemoveChannel(Value(), c, c.Entry()).state;
      assert c.fd in channels && channels[c.fd] == c && c.events == {};
      channels := channels - {c.fd};
      if c.index == Added {
        var ok := Ctl(CtlDel, c);
        assert ok;
      }
      c.index := New;
      assert Value().regs == next.regs;
    }

    /** Channel's enabling, disabling and remove. */
    method Perform(c: Channel, op: Op)
      requires Inv(Value()) && c in all && Proper(Value(), c, op)
      modifies this, c
      ensures Value() == Step(old(Value()), c, op).state && Inv(Value())
    {
      StepKeeps(Value(), c, op);
      hide Inv, Proper, UpdateChannel, RemoveChannel;
      ghost var was := Value();
      if op.Remove? {
        c.addedToLoop := false;
      } else {
        c.events := NewMask(c.events, op);
        c.addedToLoop := true;
      }
      OwnRegIsOverwritten(was, c, c.Entry());
      assert Value().regs == was.regs[c := c.Entry()];
      if op.Remove? {
        Unregister(c);
      } else {
        Update(c);
      }
    }

    /** What epoll_wait may report: descriptors in the interest set, each at most once. */
    ghost predicate Reportable(reported: seq<(int, int)>)
      reads this
    {
      && (forall i :: 0 <= i < |reported| ==> reported[i].0 in kernel)
      && (forall i, j :: 0 <= i < j < |reported| ==> reported[i].0 != reported[j].0)
    }

    /** fillActiveChannels: every polled event names a registered channel, the one its descriptor belongs to. */
    method FillActive(reported: seq<(int, int)>) returns (active: seq<Channel>)
      requires Inv(Value()) && Reportable(reported)
      modifies all`revents
      ensures Value() == old(Value()) && |active| == |reported|
      ensures forall i :: 0 <= i < |active| ==>
        && active[i] in all && active[i].fd == reported[i].0
        && active[i].index == Added && active[i].revents == reported[i].1
    {
      hide Inv;
      active := [];
      for n := 0 to |reported|
        invariant Value() == old(Value()) && |active| == n
        invariant forall i :: 0 <= i < n ==>
          && active[i] in all && active[i].fd == reported[i].0
          && active[i].index == Added && active[i].revents == reported[i].1
      {
        var c := kernel[reported[n].0].ptr;
        PolledIsRegistered(Value(), reported[n].0);
        assert c.fd in channels && channels[c.fd] == c;
        c.revents := reported[n].1;
        active := active + [c];
      }
    }
  }
}
