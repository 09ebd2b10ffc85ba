/** The queue consumer: normalised options, the semaphore, settlement, and the drain on shutdown, with the receive loop
    and its handler goroutines interleaved in any order. */
module Consumers {
  import opened Domain
  import opened Lists

  datatype Options = Options(prefetchCount: int, concurrency: int, shutdownTimeout: int)

  const DEFAULT_PREFETCH := 10
  const DEFAULT_SHUTDOWN := 10_000_000_000

  predicate Normal(o: Options) { 1 <= o.concurrency <= o.prefetchCount && o.shutdownTimeout > 0 }

  function Larger(a: int, b: int): int { if a >= b then a else b }

  /** Options that already make sense are kept; others are repaired so that the broker can fill every slot. */
  method NewConsumer(opts: Options, qosFails: bool) returns (c: Option<Options>)
    ensures c.None? <==> qosFails
    ensures c.Some? ==> Normal(c.value) && (Normal(opts) ==> c.value == opts)
    ensures c.Some? ==>
              && c.value.concurrency == (if opts.concurrency >= 1 then opts.concurrency else 1)
              && c.value.prefetchCount
                 == Larger(if opts.prefetchCount >= 1 then opts.prefetchCount else 10, c.value.concurrency)
              && c.value.shutdownTimeout
                 == (if opts.shutdownTimeout > 0 then opts.shutdownTimeout else 10_000_000_000)
  {
    var concurrency, prefetch, timeout := opts.concurrency, opts.prefetchCount, opts.shutdownTimeout;
    if concurrency <= 0 {
      concurrency := 1;
    }
    if prefetch <= 0 {
      prefetch := DEFAULT_PREFETCH;
    }
    if prefetch < concurrency {
      prefetch := concurrency;
    }
    if timeout <= 0 {
      timeout := DEFAULT_SHUTDOWN;
    }
    if qosFails {
      return None;
    }
    return Some(Options(prefetch, concurrency, timeout));
  }

  // ---------------------------------------------------------------- one delivery

  /** A delivery's acknowledger: the settle calls made on it, true for Ack and false for Nack. */
  class Acknowledger {
    var calls: seq<bool>

    constructor ()
      ensures calls == []
    {
      calls := [];
    }

    method Ack(fails: bool) returns (err: bool)
      modifies this
      ensures calls == old(calls) + [true] && err == fails
    {
      calls := calls + [true];
      err := fails;
    }

    method Nack(fails: bool) returns (err: bool)
      modifies this
      ensures calls == old(calls) + [false] && err == fails
    {
      calls := calls + [false];
      err := fails;
    }
  }

  /** Exactly one settle call, whatever becomes of it: Ack if and only if the handler returned nil. */
  method ProcessSync(d: Acknowledger, handlerErr: bool, settleFails: bool)
    modifies d
    ensures d.calls == old(d.calls) + [!handlerErr]
  {
    if handlerErr {
      var _ := d.Nack(settleFails);
      return;
    }
    var _ := d.Ack(settleFails);
  }

  // ---------------------------------------------------------------- state

  datatype Phase =
    | Buffered               // pushed by the broker, not yet received
    | AwaitingSlot           // received by the loop, which is blocked on the semaphore
    | Working                // the handler runs
    | Settling(ok: bool)     // the handler has returned
    | Releasing(ok: bool)    // ack or nack has been called
    | Finished(ok: bool)

  /** Whether the receive loop or the drain took the delivery. */
  datatype Via = Loop | Drain

  /** `calls` are the settle calls made for the delivery: true for Ack, false for Nack. */
  datatype Job = Job(phase: Phase, via: Via, calls: seq<bool>) {
    predicate Going() { phase.Working? || phase.Settling? || phase.Releasing? }
  }

  /** `Joining`: the drain has stopped receiving and waits for its goroutines. `Failed`: Run returned an error. */
  datatype Mode = Running | Failed | Draining | Joining | Drained

  /** `slots` is the fill of the semaphore channel, `waits` the drain's WaitGroup counter, `since` the index of the
      current subscription's first delivery. */
  datatype Consumer = Consumer(options: Options, mode: Mode, slots: int, waits: int, since: nat, jobs: seq<Job>)

  datatype Step =
    | Push                      // the broker, within the subscription's prefetch window
    | Receive(i: nat)
    | Acquire(i: nat)
    | Return(i: nat, ok: bool)
    | Settle(i: nat)
    | Release(i: nat)
    | Fail                      // the delivery channel closed
    | Restart                   // the supervisor calls Run again, and it subscribes anew
    | ContextDone               // the loop notices that its context is done
    | DrainReceive(i: nat)
    | DrainStop                 // the drain's timeout, or its channel closed
    | DrainReturn

  const FRESH := Job(Buffered, Loop, [])

  function Start(options: Options): Consumer { Consumer(options, Running, 0, 0, 0, []) }

  /** What jobs are counted by. */
  datatype Kind = HoldingSlot | HoldingWait | Unsettled | Awaiting | AtWork

  predicate Is(j: Job, kind: Kind) {
    match kind
    case HoldingSlot => j.Going() && j.via.Loop?
    case HoldingWait => j.Going() && j.via.Drain?
    case Unsettled => j.calls == []
    case Awaiting => j.phase.AwaitingSlot?
    case AtWork => j.phase.Working? || j.phase.Settling?
  }

  function One(j: Job, kind: Kind): nat { if Is(j, kind) then 1 else 0 }

  function Count(jobs: seq<Job>, kind: Kind): nat { Sum(jobs, (j: Job) => One(j, kind)) }

  /** The deliveries of the current subscription: the broker applies the prefetch count to each subscription anew. */
  function Window(c: Consumer): seq<Job> { if c.since <= |c.jobs| then c.jobs[c.since..] else [] }

  predicate AtPhase(c: Consumer, i: nat, p: Phase) { i < |c.jobs| && c.jobs[i].phase == p }

  predicate Oldest(c: Consumer, i: nat) {
    AtPhase(c, i, Buffered) && forall j :: 0 <= j < i ==> !c.jobs[j].phase.Buffered?
  }

  predicate Enabled(c: Consumer, s: Step) {
    match s
    case Push => (c.mode.Running? || c.mode.Draining?) && Count(Window(c), Unsettled) < c.options.prefetchCount
    case Receive(i) => c.mode.Running? && Count(c.jobs, Awaiting) == 0 && Oldest(c, i)
    case Acquire(i) => AtPhase(c, i, AwaitingSlot) && c.slots < c.options.concurrency
    case Return(i, _) => AtPhase(c, i, Working)
    case Settle(i) => i < |c.jobs| && c.jobs[i].phase.Settling?
    case Release(i) => i < |c.jobs| && c.jobs[i].phase.Releasing?
    case Fail =>
      c.mode.Running? && Count(c.jobs, Awaiting) == 0
      && forall j :: 0 <= j < |c.jobs| ==> !c.jobs[j].phase.Buffered?
    case Restart => c.mode.Failed?
    case ContextDone => c.mode.Running? && Count(c.jobs, Awaiting) == 0
    case DrainReceive(i) => c.mode.Draining? && Oldest(c, i)
    case DrainStop => c.mode.Draining?
    case DrainReturn => c.mode.Joining? && c.waits == 0
  }

  function SetJob(c: Consumer, i: nat, j: Job): Consumer
    requires i < |c.jobs|
  {
    c.(jobs := c.jobs[i := j])
  }

  function Next(c: Consumer, s: Step): Consumer
    requires Enabled(c, s)
  {
    match s
    case Push => c.(jobs := c.jobs + [FRESH])
    case Receive(i) => SetJob(c, i, c.jobs[i].(phase := AwaitingSlot))
    case Acquire(i) => SetJob(c, i, c.jobs[i].(phase := Working)).(slots := c.slots + 1)
    case Return(i, ok) => SetJob(c, i, c.jobs[i].(phase := Settling(ok)))
    case Settle(i) =>
      var j := c.jobs[i];
      SetJob(c, i, j.(phase := Releasing(j.phase.ok), calls := j.calls + [j.phase.ok]))
    case Release(i) =>
      var j := c.jobs[i];
      var c' := SetJob(c, i, j.(phase := Finished(j.phase.ok)));
      if j.via.Loop? then c'.(slots := c.slots - 1) else c'.(waits := c.waits - 1)
    case Fail => c.(mode := Mode.Failed)
    case Restart => c.(mode := Running, since := |c.jobs|)
    case ContextDone => c.(mode := Draining)
    case DrainReceive(i) => SetJob(c, i, c.jobs[i].(phase := Working, via := Drain)).(waits := c.waits + 1)
    case DrainStop => c.(mode := Joining)
    case DrainReturn => c.(mode := Drained)
  }

  ghost predicate IsRun(options: Options, cs: seq<Consumer>, steps: seq<Step>) {
    && |cs| == |steps| + 1
    && cs[0] == Start(options)
    && forall k :: 0 <= k < |steps| ==> Enabled(cs[k], steps[k]) && cs[k + 1] == Next(cs[k], steps[k])
  }

  // ---------------------------------------------------------------- the invariant

  /** Not settled before its handler has returned, and then once, with ack exactly if the handler returned nil. */
  predicate JobOk(j: Job) {
    match j.phase
    case Releasing(ok) => j.calls == [ok]
    case Finished(ok) => j.calls == [ok]
    case _ => j.calls == [] && (j.phase.Buffered? || j.phase.AwaitingSlot? ==> j.via.Loop?)
  }

  ghost predicate Inv(c: Consumer) {
    && Normal(c.options)
    && (forall i :: 0 <= i < |c.jobs| ==> JobOk(c.jobs[i]))
    && c.slots == Count(c.jobs, HoldingSlot) && c.slots <= c.options.concurrency
    && c.waits == Count(c.jobs, HoldingWait)
    && Count(Window(c), Unsettled) <= c.options.prefetchCount
    && Count(c.jobs, Awaiting) <= (if c.mode.Running? then 1 else 0)
    && (c.mode.Running? || c.mode.Failed? ==> forall i :: 0 <= i < |c.jobs| ==> c.jobs[i].via.Loop?)
    && (c.mode.Drained? ==> c.waits == 0)
    && (c.mode.Failed? ==> forall i :: 0 <= i < |c.jobs| ==> !c.jobs[i].phase.Buffered?)
    && c.since <= |c.jobs| && (forall i :: 0 <= i < c.since ==> Left(c.jobs[i]))
  }

  /** A delivery of an earlier subscription: received by the loop, and past the semaphore. */
  predicate Left(j: Job) { j.via.Loop? && !j.phase.Buffered? && !j.phase.AwaitingSlot? }

  lemma JobChanged(jobs: seq<Job>, i: nat, j: Job, kind: Kind)
    requires i < |jobs|
    ensures Count(jobs[i := j], kind) == Count(jobs, kind) - One(jobs[i], kind) + One(j, kind)
    ensures One(jobs[i], kind) <= Count(jobs, kind)
  {
    SumUpdate(jobs, i, j, (j: Job) => One(j, kind));
    SumAtLeastOne(jobs, i, (j: Job) => One(j, kind));
  }

  lemma JobAdded(jobs: seq<Job>, j: Job, kind: Kind)
    ensures Count(jobs + [j], kind) == Count(jobs, kind) + One(j, kind)
  {
    SumConcat(jobs, [j], (j: Job) => One(j, kind));
    SumOne(j, (j: Job) => One(j, kind));
  }

  lemma FreshJob()
    ensures One(FRESH, HoldingSlot) == One(FRESH, HoldingWait) == One(FRESH, Awaiting) == 0
    ensures One(FRESH, Unsettled) == 1
    ensures JobOk(FRESH) && FRESH.via.Loop?
  {
  }

  lemma PushKeeps(c: Consumer)
    requires Inv(c) && Enabled(c, Push)
    ensures Inv(Next(c, Push))
  {
    hide Count, Normal, One, FRESH, JobOk, Left;
    FreshJob();
    JobAdded(c.jobs, FRESH, HoldingSlot);
    JobAdded(c.jobs, FRESH, HoldingWait);
    JobAdded(c.jobs, FRESH, Awaiting);
    JobAdded(Window(c), FRESH, Unsettled);
    assert (c.jobs + [FRESH])[c.since..] == Window(c) + [FRESH];
  }

  /** The steps of one delivery. */
  predicate OfOneJob(s: Step) { s.Receive? || s.Acquire? || s.Return? || s.Settle? || s.Release? || s.DrainReceive? }

  lemma JobStep(c: Consumer, s: Step)
    requires Enabled(c, s) && OfOneJob(s) && JobOk(c.jobs[s.i])
    ensures var c', j := Next(c, s), Next(c, s).jobs[s.i];
            && c' == c.(jobs := c.jobs[s.i := j], slots := c'.slots, waits := c'.waits)
            && c'.slots - c.slots == One(j, HoldingSlot) - One(c.jobs[s.i], HoldingSlot)
            && c'.waits - c.waits == One(j, HoldingWait) - One(c.jobs[s.i], HoldingWait)
            && One(j, Unsettled) <= One(c.jobs[s.i], Unsettled)
            && One(j, Awaiting) - One(c.jobs[s.i], Awaiting) == (if s.Receive? then 1 else if s.Acquire? then -1 else 0)
            && (s.Acquire? ==> One(c.jobs[s.i], Awaiting) == 1 && c'.slots == c.slots + 1)
            && (!s.Acquire? ==> c'.slots <= c.slots) && (!s.DrainReceive? ==> c'.waits <= c.waits)
            && JobOk(j) && (j.via == c.jobs[s.i].via || s.DrainReceive?)
            && !j.phase.Buffered? && (Left(c.jobs[s.i]) ==> Left(j))
  {
    hide Count;
  }

  /** A settled delivery leaves room in its subscription's window, if that is the current one. */
  lemma WindowChanged(c: Consumer, i: nat, j: Job)
    requires c.since <= |c.jobs| && i < |c.jobs| && One(j, Unsettled) <= One(c.jobs[i], Unsettled)
    ensures Count(c.jobs[i := j][c.since..], Unsettled) <= Count(Window(c), Unsettled)
  {
    hide Count, One;
    if i < c.since {
      assert c.jobs[i := j][c.since..] == Window(c);
    } else {
      assert c.jobs[i := j][c.since..] == Window(c)[i - c.since := j];
      JobChanged(Window(c), i - c.since, j, Unsettled);
    }
  }

  lemma JobStepKeeps(c: Consumer, s: Step)
    requires Inv(c) && Enabled(c, s) && OfOneJob(s)
    ensures Inv(Next(c, s))
  {
    hide Count, Normal, One, JobOk, Next, Left;
    JobStep(c, s);
    var j := Next(c, s).jobs[s.i];
    JobChanged(c.jobs, s.i, j, HoldingSlot);
    JobChanged(c.jobs, s.i, j, HoldingWait);
    JobChanged(c.jobs, s.i, j, Awaiting);
    WindowChanged(c, s.i, j);
  }

  lemma RestartKeeps(c: Consumer)
    requires Inv(c) && Enabled(c, Restart)
    ensures Inv(Next(c, Restart))
  {
    hide Count, Normal, JobOk;
    NoJobs(Unsettled);
    assert c.jobs[|c.jobs|..] == [];
    forall i | 0 <= i < |c.jobs| ensures Left(c.jobs[i]) {
      JobChanged(c.jobs, i, c.jobs[i], Awaiting);
    }
  }

  lemma NoJobs(kind: Kind)
    ensures Count([], kind) == 0
  {
  }

  lemma StepKeeps(c: Consumer, s: Step)
    requires Inv(c) && Enabled(c, s)
    ensures Inv(Next(c, s))
  {
    hide Count, Normal;
    if s.Push? {
      PushKeeps(c);
    } else if s.Restart? {
      RestartKeeps(c);
    } else if OfOneJob(s) {
      JobStepKeeps(c, s);
    }
  }

  lemma {:induction false} RunKeeps(options: Options, cs: seq<Consumer>, steps: seq<Step>, k: nat)
    requires IsRun(options, cs, steps) && Normal(options) && k < |cs|
    ensures Inv(cs[k])
  {
    hide Next, Enabled;
    if k > 0 {
      RunKeeps(options, cs, steps, k - 1);
      StepKeeps(cs[k - 1], steps[k - 1]);
    }
  }

  // ---------------------------------------------------------------- what every interleaving keeps

  /** Handlers under way, from the slot or drain goroutine's start to its end. */
  function Going(jobs: seq<Job>): nat { Count(jobs, HoldingSlot) + Count(jobs, HoldingWait) }

  /** Until the drain begins, also across supervisor restarts: handlers under way = occupied slots <= Concurrency <=
      PrefetchCount; the unsettled deliveries of a subscription never exceed its prefetch window. */
  lemma WithinConcurrency(options: Options, cs: seq<Consumer>, steps: seq<Step>, k: nat)
    requires IsRun(options, cs, steps) && Normal(options) && k < |cs|
    ensures var c := cs[k];
            && 0 <= c.slots <= c.options.concurrency <= c.options.prefetchCount
            && Count(c.jobs, HoldingSlot) == c.slots
            && Count(Window(c), Unsettled) <= c.options.prefetchCount
            && (c.mode.Running? || c.mode.Failed? ==> Going(c.jobs) == c.slots)
  {
    hide Next, Enabled;
    RunKeeps(options, cs, steps, k);
    var c := cs[k];
    if c.mode.Running? || c.mode.Failed? {
      NoDrainJobs(c.jobs);
    }
  }

  lemma {:induction false} NoDrainJobs(jobs: seq<Job>)
    requires forall i :: 0 <= i < |jobs| ==> jobs[i].via.Loop?
    ensures Count(jobs, HoldingWait) == 0
  {
    if jobs != [] {
      var init := jobs[..|jobs| - 1];
      NoDrainJobs(init);
      JobAdded(init, jobs[|jobs| - 1], HoldingWait);
      assert jobs == init + [jobs[|jobs| - 1]];
    }
  }

  /** A delivery is settled at most once, only after its handler returned, and acked exactly if that returned nil. */
  lemma SettledOnce(options: Options, cs: seq<Consumer>, steps: seq<Step>, k: nat, i: nat)
    requires IsRun(options, cs, steps) && Normal(options) && k < |cs| && i < |cs[k].jobs|
    ensures var j := cs[k].jobs[i];
            && |j.calls| <= 1
            && (j.calls != [] <==> j.phase.Releasing? || j.phase.Finished?)
            && (j.calls != [] ==> j.calls == [j.phase.ok])
  {
    hide Next, Enabled;
    RunKeeps(options, cs, steps, k);
    assert JobOk(cs[k].jobs[i]);
  }

  /** What the handler returned is what the settle call says, however much later it is made. */
  lemma ReturnDecides(c: Consumer, s: Step, i: nat)
    requires Enabled(c, s) && i < |c.jobs|
    requires c.jobs[i].phase.Settling? || c.jobs[i].phase.Releasing? || c.jobs[i].phase.Finished?
    ensures i < |Next(c, s).jobs|
    ensures var j := Next(c, s).jobs[i];
            (j.phase.Settling? || j.phase.Releasing? || j.phase.Finished?) && j.phase.ok == c.jobs[i].phase.ok
  {
    hide Count;
  }

  /** When the drain returns, every delivery it received has been through its settle call. */
  lemma DrainSettles(options: Options, cs: seq<Consumer>, steps: seq<Step>, k: nat, i: nat)
    requires IsRun(options, cs, steps) && Normal(options) && k < |cs| && cs[k].mode.Drained?
    requires i < |cs[k].jobs| && cs[k].jobs[i].via.Drain?
    ensures var j := cs[k].jobs[i]; j.phase.Finished? && j.calls == [j.phase.ok]
  {
    hide Next, Enabled;
    RunKeeps(options, cs, steps, k);
    var c := cs[k];
    JobChanged(c.jobs, i, c.jobs[i], HoldingWait);
    assert JobOk(c.jobs[i]);
  }

  // ---------------------------------------------------------------- when the semaphore bounds all handlers

  /** A handler at work has not settled its delivery, so the prefetch window bounds handlers even in the drain. */
  lemma {:induction false} AtWorkUnsettled(jobs: seq<Job>)
    requires forall i :: 0 <= i < |jobs| ==> JobOk(jobs[i])
    ensures Count(jobs, AtWork) <= Count(jobs, Unsettled)
  {
    hide Count;
    if jobs == [] {
      NoJobs(AtWork);
      NoJobs(Unsettled);
    } else {
      var init, last := jobs[..|jobs| - 1], jobs[|jobs| - 1];
      assert jobs == init + [last];
      AtWorkUnsettled(init);
      JobAdded(init, last, AtWork);
      JobAdded(init, last, Unsettled);
      assert JobOk(last);
    }
  }

  const WORK := FRESH.(phase := Working)
  const MORE := Job(Working, Drain, [])

  /** n deliveries at work, all received by the loop. */
  function Works(n: nat): seq<Job> { seq(n, _ => WORK) }

  lemma WorkShares()
    ensures One(WORK, HoldingSlot) == One(WORK, Unsettled) == One(WORK, AtWork) == 1
    ensures One(WORK, HoldingWait) == One(WORK, Awaiting) == 0
  {
  }

  lemma {:induction false} CountWorks(n: nat, kind: Kind)
    ensures Count(Works(n), kind) == n * One(WORK, kind)
  {
    if n == 0 {
      NoJobs(kind);
    } else {
      CountWorks(n - 1, kind);
      JobAdded(Works(n - 1), WORK, kind);
      assert Works(n) == Works(n - 1) + [WORK];
    }
  }

  function Filled(o: Options, n: nat): Consumer { Consumer(o, Running, n, 0, 0, Works(n)) }

  /** A step appended to a run. */
  lemma RunMore(o: Options, cs: seq<Consumer>, steps: seq<Step>, s: Step)
    requires IsRun(o, cs, steps) && Enabled(cs[|steps|], s)
    ensures IsRun(o, cs + [Next(cs[|steps|], s)], steps + [s])
  {
    hide Enabled, Next;
  }

  /** Every slot can be filled. */
  lemma {:induction false} FillSlots(o: Options, n: nat) returns (cs: seq<Consumer>, steps: seq<Step>)
    requires Normal(o) && n <= o.concurrency
    ensures IsRun(o, cs, steps) && OneSubscription(steps) && cs[|steps|] == Filled(o, n)
  {
    hide Enabled, Next;
    if n == 0 {
      cs, steps := [Start(o)], [];
      assert Works(0) == [];
    } else {
      cs, steps := FillSlots(o, n - 1);
      var c1, c2 := OneMore(o, n);
      RunMore(o, cs, steps, Push);
      cs, steps := cs + [c1], steps + [Push];
      RunMore(o, cs, steps, Receive(n - 1));
      cs, steps := cs + [c2], steps + [Receive(n - 1)];
      RunMore(o, cs, steps, Acquire(n - 1));
      cs, steps := cs + [Filled(o, n)], steps + [Acquire(n - 1)];
    }
  }

  /** One more delivery pushed behind n at work. */
  lemma PushBehind(o: Options, n: nat)
    requires n < o.prefetchCount
    ensures Enabled(Filled(o, n), Push)
    ensures Next(Filled(o, n), Push) == Filled(o, n).(jobs := Works(n) + [FRESH])
    ensures Count(Works(n) + [FRESH], Awaiting) == 0 && Oldest(Filled(o, n).(jobs := Works(n) + [FRESH]), n)
  {
    hide Count;
    WorkShares();
    CountWorks(n, Unsettled);
    CountWorks(n, Awaiting);
    JobAdded(Works(n), FRESH, Awaiting);
    FreshJob();
  }

  lemma OneMore(o: Options, n: nat) returns (c1: Consumer, c2: Consumer)
    requires Normal(o) && 1 <= n <= o.concurrency
    ensures Enabled(Filled(o, n - 1), Push) && c1 == Next(Filled(o, n - 1), Push)
    ensures Enabled(c1, Receive(n - 1)) && c2 == Next(c1, Receive(n - 1))
    ensures Enabled(c2, Acquire(n - 1)) && Filled(o, n) == Next(c2, Acquire(n - 1))
  {
    hide Count;
    PushBehind(o, n - 1);
    c1 := Filled(o, n - 1).(jobs := Works(n - 1) + [FRESH]);
    c2 := c1.(jobs := Works(n - 1) + [FRESH.(phase := AwaitingSlot)]);
    assert Next(c1, Receive(n - 1)).jobs == c2.jobs;
    assert Next(c2, Acquire(n - 1)).jobs == Works(n);
  }

  /** With a prefetch window larger than the semaphore, the drain adds a handler to a full house. */
  lemma DrainExceeds(o: Options) returns (cs: seq<Consumer>, steps: seq<Step>)
    requires Normal(o) && o.concurrency < o.prefetchCount
    ensures IsRun(o, cs, steps) && OneSubscription(steps) && Count(cs[|steps|].jobs, AtWork) == o.concurrency + 1
  {
    hide Enabled, Next, Count;
    var n := o.concurrency;
    cs, steps := FillSlots(o, n);
    var c1, c2, c3 := DrainOne(o, n);
    RunMore(o, cs, steps, Push);
    cs, steps := cs + [c1], steps + [Push];
    RunMore(o, cs, steps, ContextDone);
    cs, steps := cs + [c2], steps + [ContextDone];
    RunMore(o, cs, steps, DrainReceive(n));
    cs, steps := cs + [c3], steps + [DrainReceive(n)];
    WorkShares();
    CountWorks(n, AtWork);
    JobAdded(Works(n), MORE, AtWork);
  }

  lemma DrainOne(o: Options, n: nat) returns (c1: Consumer, c2: Consumer, c3: Consumer)
    requires n < o.prefetchCount
    ensures Enabled(Filled(o, n), Push) && c1 == Next(Filled(o, n), Push)
    ensures Enabled(c1, ContextDone) && c2 == Next(c1, ContextDone)
    ensures Enabled(c2, DrainReceive(n)) && c3 == Next(c2, DrainReceive(n)) && c3.jobs == Works(n) + [MORE]
  {
    hide Count;
    PushBehind(o, n);
    c1 := Filled(o, n).(jobs := Works(n) + [FRESH]);
    c2 := c1.(mode := Draining);
    c3 := Next(c2, DrainReceive(n));
    assert c3.jobs == Works(n) + [MORE];
  }

  /** The consumer was never subscribed again. */
  predicate OneSubscription(steps: seq<Step>) { forall k :: 0 <= k < |steps| ==> !steps[k].Restart? }

  /** The semaphore bounds the handlers at work, drain included, in all runs of one subscription iff the prefetch window
      is no larger. */
  lemma SemaphoreExact(o: Options)
    requires Normal(o)
    ensures o.prefetchCount == o.concurrency <==>
            forall cs: seq<Consumer>, steps: seq<Step>, k: nat ::
              IsRun(o, cs, steps) && OneSubscription(steps) && k < |cs| ==> Count(cs[k].jobs, AtWork) <= o.concurrency
  {
    hide Count, OneSubscription;
    if o.prefetchCount == o.concurrency {
      forall cs: seq<Consumer>, steps: seq<Step>, k: nat | IsRun(o, cs, steps) && OneSubscription(steps) && k < |cs|
        ensures Count(cs[k].jobs, AtWork) <= o.concurrency
      {
        WindowBounds(o, cs, steps, k);
      }
    } else {
      var cs, steps := DrainExceeds(o);
      assert IsRun(o, cs, steps) && |steps| < |cs|;
    }
  }

  /** ... and in every run of one subscription the prefetch window does. */
  lemma WindowBounds(o: Options, cs: seq<Consumer>, steps: seq<Step>, k: nat)
    requires IsRun(o, cs, steps) && OneSubscription(steps) && Normal(o) && k < |cs|
    ensures Count(cs[k].jobs, AtWork) <= o.prefetchCount
  {
    hide Next, Enabled, Count;
    RunKeeps(o, cs, steps, k);
    OptionsStay(o, cs, steps, k);
    SinceStays(o, cs, steps, k);
    assert cs[k].jobs[0..] == cs[k].jobs;
    AtWorkUnsettled(cs[k].jobs);
  }

  lemma {:induction false} SinceStays(o: Options, cs: seq<Consumer>, steps: seq<Step>, k: nat)
    requires IsRun(o, cs, steps) && OneSubscription(steps) && k < |cs|
    ensures cs[k].since == 0
  {
    hide Count;
    if k > 0 {
      SinceStays(o, cs, steps, k - 1);
    }
  }

  lemma {:induction false} OptionsStay(o: Options, cs: seq<Consumer>, steps: seq<Step>, k: nat)
    requires IsRun(o, cs, steps) && k < |cs|
    ensures cs[k].options == o
  {
    hide Count;
    if k > 0 {
      OptionsStay(o, cs, steps, k - 1);
    }
  }

  // ---------------------------------------------------------------- after a restart

  lemma AtWorkHolds(j: Job)
    requires JobOk(j)
    ensures One(j, AtWork) <= One(j, Unsettled)
    ensures Left(j) ==> One(j, AtWork) <= One(j, HoldingSlot)
  {
  }

  /** The handlers of earlier subscriptions hold slots; those of the current one have unsettled deliveries. */
  lemma {:induction false} AtWorkSplit(jobs: seq<Job>, since: nat)
    requires since <= |jobs| && (forall i :: 0 <= i < |jobs| ==> JobOk(jobs[i]))
    requires forall i :: 0 <= i < since ==> Left(jobs[i])
    ensures Count(jobs, AtWork) <= Count(jobs, HoldingSlot) + Count(jobs[since..], Unsettled)
  {
    hide Count, One, JobOk, Left;
    if jobs == [] {
      NoJobs(AtWork);
    } else {
      var init, last := jobs[..|jobs| - 1], jobs[|jobs| - 1];
      assert jobs == init + [last];
      AtWorkHolds(last);
      JobAdded(init, last, AtWork);
      JobAdded(init, last, HoldingSlot);
      if since == |jobs| {
        AtWorkSplit(init, since - 1);
        assert Left(last);
        assert jobs[since..] == [] == init[since - 1..];
      } else {
        AtWorkSplit(init, since);
        assert jobs[since..] == init[since..] + [last];
        JobAdded(init[since..], last, Unsettled);
      }
    }
  }

  /** Over any number of restarts the handlers at work never exceed Concurrency + PrefetchCount ... */
  lemma RestartBound(o: Options, cs: seq<Consumer>, steps: seq<Step>, k: nat)
    requires IsRun(o, cs, steps) && Normal(o) && k < |cs|
    ensures Count(cs[k].jobs, AtWork) <= o.concurrency + o.prefetchCount
  {
    hide Next, Enabled, Count, JobOk, Left;
    RunKeeps(o, cs, steps, k);
    OptionsStay(o, cs, steps, k);
    AtWorkSplit(cs[k].jobs, cs[k].since);
  }

  function Freshes(n: nat): seq<Job> { seq(n, _ => FRESH) }

  function Mores(n: nat): seq<Job> { seq(n, _ => MORE) }

  /** A full house from before the restart, m deliveries at work in the drain, n more buffered. */
  function Stage(o: Options, mode: Mode, m: nat, n: nat): Consumer
    requires o.concurrency >= 0
  {
    Consumer(o, mode, o.concurrency, m, o.concurrency, Works(o.concurrency) + (Mores(m) + Freshes(n)))
  }

  lemma {:induction false} CountFreshes(n: nat)
    ensures Count(Freshes(n), Unsettled) == n && Count(Freshes(n), Awaiting) == 0
  {
    hide Count;
    FreshJob();
    if n == 0 {
      NoJobs(Unsettled);
      NoJobs(Awaiting);
    } else {
      CountFreshes(n - 1);
      JobAdded(Freshes(n - 1), FRESH, Unsettled);
      JobAdded(Freshes(n - 1), FRESH, Awaiting);
      assert Freshes(n) == Freshes(n - 1) + [FRESH];
    }
  }

  lemma {:induction false} CountMores(jobs: seq<Job>, m: nat)
    ensures Count(jobs + Mores(m), AtWork) == Count(jobs, AtWork) + m
  {
    hide Count;
    if m == 0 {
      assert jobs + Mores(0) == jobs;
    } else {
      CountMores(jobs, m - 1);
      JobAdded(jobs + Mores(m - 1), MORE, AtWork);
      assert jobs + Mores(m) == (jobs + Mores(m - 1)) + [MORE];
    }
  }

  lemma {:induction false} NoneAwaits(jobs: seq<Job>)
    requires forall i :: 0 <= i < |jobs| ==> !jobs[i].phase.AwaitingSlot?
    ensures Count(jobs, Awaiting) == 0
  {
    hide Count;
    if jobs == [] {
      NoJobs(Awaiting);
    } else {
      var init := jobs[..|jobs| - 1];
      NoneAwaits(init);
      JobAdded(init, jobs[|jobs| - 1], Awaiting);
      assert jobs == init + [jobs[|jobs| - 1]];
    }
  }

  /** The slots filled, the consumer cancelled by the broker and subscribed anew, and n deliveries pushed. */
  lemma {:induction false} RestartFull(o: Options, n: nat) returns (cs: seq<Consumer>, steps: seq<Step>)
    requires Normal(o) && n <= o.prefetchCount
    ensures IsRun(o, cs, steps) && cs[|steps|] == Stage(o, Running, 0, n)
  {
    hide Enabled, Next, Count;
    if n == 0 {
      cs, steps := FillSlots(o, o.concurrency);
      var c1 := FailFull(o);
      RunMore(o, cs, steps, Fail);
      cs, steps := cs + [c1], steps + [Fail];
      RunMore(o, cs, steps, Restart);
      cs, steps := cs + [Stage(o, Running, 0, 0)], steps + [Restart];
    } else {
      cs, steps := RestartFull(o, n - 1);
      PushStage(o, n - 1);
      RunMore(o, cs, steps, Push);
      cs, steps := cs + [Stage(o, Running, 0, n)], steps + [Push];
    }
  }

  lemma FailFull(o: Options) returns (c1: Consumer)
    requires Normal(o)
    ensures Enabled(Filled(o, o.concurrency), Fail) && c1 == Next(Filled(o, o.concurrency), Fail)
    ensures Enabled(c1, Restart) && Next(c1, Restart) == Stage(o, Running, 0, 0)
  {
    hide Count;
    WorkShares();
    CountWorks(o.concurrency, Awaiting);
    c1 := Filled(o, o.concurrency).(mode := Mode.Failed);
    assert Works(o.concurrency) + (Mores(0) + Freshes(0)) == Works(o.concurrency);
  }

  lemma PushStage(o: Options, n: nat)
    requires Normal(o) && n < o.prefetchCount
    ensures Enabled(Stage(o, Running, 0, n), Push) && Next(Stage(o, Running, 0, n), Push) == Stage(o, Running, 0, n + 1)
  {
    hide Count;
    var c := Stage(o, Running, 0, n);
    assert Window(c) == Freshes(n);
    CountFreshes(n);
    assert c.jobs + [FRESH] == Stage(o, Running, 0, n + 1).jobs;
  }

  lemma {:induction false} DrainStage(o: Options, m: nat) returns (cs: seq<Consumer>, steps: seq<Step>)
    requires Normal(o) && m <= o.prefetchCount
    ensures IsRun(o, cs, steps) && cs[|steps|] == Stage(o, Draining, m, o.prefetchCount - m)
  {
    hide Enabled, Next, Count;
    if m == 0 {
      cs, steps := RestartFull(o, o.prefetchCount);
      StageDone(o);
      RunMore(o, cs, steps, ContextDone);
      cs, steps := cs + [Stage(o, Draining, 0, o.prefetchCount)], steps + [ContextDone];
    } else {
      cs, steps := DrainStage(o, m - 1);
      ReceiveStage(o, m - 1);
      RunMore(o, cs, steps, DrainReceive(o.concurrency + (m - 1)));
      cs, steps := cs + [Stage(o, Draining, m, o.prefetchCount - m)], steps + [DrainReceive(o.concurrency + (m - 1))];
    }
  }

  lemma StageDone(o: Options)
    requires Normal(o)
    ensures var c := Stage(o, Running, 0, o.prefetchCount);
            Enabled(c, ContextDone) && Next(c, ContextDone) == Stage(o, Draining, 0, o.prefetchCount)
  {
    hide Count;
    NoneAwaits(Stage(o, Running, 0, o.prefetchCount).jobs);
  }

  lemma ReceiveStage(o: Options, m: nat)
    requires Normal(o) && m < o.prefetchCount
    ensures var c, s := Stage(o, Draining, m, o.prefetchCount - m), DrainReceive(o.concurrency + m);
            Enabled(c, s) && Next(c, s) == Stage(o, Draining, m + 1, o.prefetchCount - (m + 1))
  {
    hide Count;
    var c, i := Stage(o, Draining, m, o.prefetchCount - m), o.concurrency + m;
    assert c.jobs[i] == FRESH;
    assert c.jobs[i := MORE] == Stage(o, Draining, m + 1, o.prefetchCount - (m + 1)).jobs;
  }

  /** ... and, whatever the options, some run with a restart reaches that. */
  lemma RestartReaches(o: Options) returns (cs: seq<Consumer>, steps: seq<Step>)
    requires Normal(o)
    ensures IsRun(o, cs, steps) && Count(cs[|steps|].jobs, AtWork) == o.concurrency + o.prefetchCount
  {
    hide Enabled, Next, Count;
    cs, steps := DrainStage(o, o.prefetchCount);
    WorkShares();
    CountWorks(o.concurrency, AtWork);
    CountMores(Works(o.concurrency), o.prefetchCount);
    assert cs[|steps|].jobs == Works(o.concurrency) + Mores(o.prefetchCount);
  }

  // ---------------------------------------------------------------- what a returned drain leaves behind

  /** The drain waits for its own goroutines only. When it has returned, the handlers under way are those holding slots;
      every delivery received is settled and done with iff no slot is held. */
  lemma DrainLeaves(options: Options, cs: seq<Consumer>, steps: seq<Step>, k: nat)
    requires IsRun(options, cs, steps) && Normal(options) && k < |cs| && cs[k].mode.Drained?
    ensures var c := cs[k];
            && Going(c.jobs) == c.slots
            && (c.slots == 0 <==>
               forall i :: 0 <= i < |c.jobs| ==> c.jobs[i].phase.Buffered? || c.jobs[i].phase.Finished?)
  {
    hide Next, Enabled, Count;
    RunKeeps(options, cs, steps, k);
    var c := cs[k];
    if c.slots == 0 {
      forall i | 0 <= i < |c.jobs| ensures c.jobs[i].phase.Buffered? || c.jobs[i].phase.Finished? {
        JobChanged(c.jobs, i, c.jobs[i], HoldingSlot);
        JobChanged(c.jobs, i, c.jobs[i], HoldingWait);
        JobChanged(c.jobs, i, c.jobs[i], Awaiting);
      }
    }
    if forall i :: 0 <= i < |c.jobs| ==> c.jobs[i].phase.Buffered? || c.jobs[i].phase.Finished? {
      NoneGoing(c.jobs);
    }
  }

  lemma {:induction false} NoneGoing(jobs: seq<Job>)
    requires forall i :: 0 <= i < |jobs| ==> jobs[i].phase.Buffered? || jobs[i].phase.Finished?
    ensures Count(jobs, HoldingSlot) == 0
  {
    hide Count;
    if jobs == [] {
      NoJobs(HoldingSlot);
    } else {
      var init := jobs[..|jobs| - 1];
      NoneGoing(init);
      JobAdded(init, jobs[|jobs| - 1], HoldingSlot);
      assert jobs == init + [jobs[|jobs| - 1]];
    }
  }

  /** Whatever the options, the drain can return with every slot still held by a running handler. */
  lemma DrainLeavesFull(o: Options) returns (cs: seq<Consumer>, steps: seq<Step>)
    requires Normal(o)
    ensures IsRun(o, cs, steps)
    ensures var c := cs[|steps|]; c.mode.Drained? && c.slots == o.concurrency && Count(c.jobs, AtWork) == o.concurrency
  {
    hide Enabled, Next, Count;
    var n := o.concurrency;
    cs, steps := FillSlots(o, n);
    var c1, c2, c3 := DrainNothing(o, n);
    RunMore(o, cs, steps, ContextDone);
    cs, steps := cs + [c1], steps + [ContextDone];
    RunMore(o, cs, steps, DrainStop);
    cs, steps := cs + [c2], steps + [DrainStop];
    RunMore(o, cs, steps, DrainReturn);
    cs, steps := cs + [c3], steps + [DrainReturn];
    WorkShares();
    CountWorks(n, AtWork);
  }

  lemma DrainNothing(o: Options, n: nat) returns (c1: Consumer, c2: Consumer, c3: Consumer)
    ensures Enabled(Filled(o, n), ContextDone) && c1 == Next(Filled(o, n), ContextDone)
    ensures Enabled(c1, DrainStop) && c2 == Next(c1, DrainStop)
    ensures Enabled(c2, DrainReturn) && c3 == Next(c2, DrainReturn) && c3 == Filled(o, n).(mode := Drained)
  {
    hide Count;
    WorkShares();
    CountWorks(n, Awaiting);
    c1 := Filled(o, n).(mode := Draining);
    c2 := c1.(mode := Joining);
    c3 := Next(c2, DrainReturn);
  }
}
