/** The broker topology: the plan of declarations, and the code that carries it out. */
module Topology {
  import opened Domain
  import opened Keys

  /** "notifications.topic", "notifications.retry.exchange", "notifications.dlq.exchange", or another name. */
  datatype Exchange = Notifications | Retry | Dlq | Other(name: string)

  datatype QueueBinding = QueueBinding(queue: string, routingKey: string)

  /** The TTL of each retry level, in nanoseconds. */
  datatype RetryTTLs = RetryTTLs(level1: int, level2: int, level3: int) {
    function Level(level: int): int {
      if level == 1 then level1 else if level == 2 then level2 else level3
    }
  }

  datatype Topology = Topology(exchange: Exchange, bindings: seq<QueueBinding>, prefix: string, retryTTLs: RetryTTLs)

  datatype QueueArgs = NoArgs | Holding(ttlMs: int, deadLetterExchange: Exchange, deadLetterKey: string)

  datatype Op =
    | DeclareExchange(declared: Exchange)
    | DeclareQueue(queue: string, args: QueueArgs)
    | Bind(target: string, key: string, exchange: Exchange)

  function RetryQueueName(prefix: string, channel: string, priority: string, level: int): string {
    prefix + RetryKey(channel, priority, level)
  }

  function DLQQueueName(prefix: string, channel: string): string { prefix + (channel + ".dlq") }

  /** Go's conversion int32(int(d.Milliseconds())): truncating division, then two's-complement wrap. */
  function TtlMs(nanoseconds: int): int {
    AsInt32(if nanoseconds >= 0 then nanoseconds / 1_000_000 else -((-nanoseconds) / 1_000_000))
  }

  /** The broker holds a message exactly as long as configured, to the millisecond towards zero, iff the level's TTL
      fits. */
  lemma TtlExact(nanoseconds: int, ms: int)
    requires if nanoseconds >= 0 then ms * 1_000_000 <= nanoseconds < (ms + 1) * 1_000_000
             else (ms - 1) * 1_000_000 < nanoseconds <= ms * 1_000_000
    ensures TtlMs(nanoseconds) == ms <==> -0x8000_0001 * 1_000_000 < nanoseconds < 0x8000_0000 * 1_000_000
  {
    if nanoseconds >= 0 {
      assert nanoseconds / 1_000_000 == ms;
    } else {
      assert -nanoseconds / 1_000_000 == -ms;
    }
  }

  // ---------------------------------------------------------------- the declaration plan

  function BindingOps(bindings: seq<QueueBinding>, exchange: Exchange): seq<Op> {
    if bindings == [] then []
    else
      [DeclareQueue(bindings[0].queue, NoArgs), Bind(bindings[0].queue, bindings[0].routingKey, exchange)]
      + BindingOps(bindings[1..], exchange)
  }

  function LevelOps(t: Topology, channel: string, priority: string, level: int): seq<Op>
    decreases 3 - level
  {
    if level > 3 then []
    else
      var queue := RetryQueueName(t.prefix, channel, priority, level);
      [DeclareQueue(queue, Holding(TtlMs(t.retryTTLs.Level(level)), t.exchange, channel + "." + priority)),
       Bind(queue, RetryKey(channel, priority, level), Retry)]
      + LevelOps(t, channel, priority, level + 1)
  }

  function PriorityOps(t: Topology, channel: string, priorities: seq<string>): seq<Op>
    decreases |priorities|, t
  {
    if priorities == [] then []
    else LevelOps(t, channel, priorities[0], 1) + PriorityOps(t, channel, priorities[1..])
  }

  function DeadLetterOps(t: Topology, channel: string): seq<Op> {
    [DeclareQueue(DLQQueueName(t.prefix, channel), NoArgs),
     Bind(DLQQueueName(t.prefix, channel), channel, Dlq)]
  }

  function ChannelOps(t: Topology, channels: seq<string>): seq<Op>
    decreases |channels|, t
  {
    if channels == [] then []
    else PriorityOps(t, channels[0], PRIORITIES) + DeadLetterOps(t, channels[0]) + ChannelOps(t, channels[1..])
  }

  function LateOps(t: Topology): seq<Op> {
    [DeclareExchange(Retry)] + ([DeclareExchange(Dlq)] + ChannelOps(t, CHANNELS))
  }

  function Plan(t: Topology): seq<Op> {
    [DeclareExchange(t.exchange)] + (BindingOps(t.bindings, t.exchange) + LateOps(t))
  }

  // ---------------------------------------------------------------- the order of the plan

  /** Every binding comes after the declaration of its exchange, unless the broker has that already, and after the
      declaration of its queue. */
  ghost predicate InOrder(known: set<Exchange>, ops: seq<Op>) {
    forall j :: 0 <= j < |ops| && ops[j].Bind? ==>
      && (ops[j].exchange in known || exists i :: 0 <= i < j && ops[i] == DeclareExchange(ops[j].exchange))
      && exists i :: 0 <= i < j && ops[i].DeclareQueue? && ops[i].queue == ops[j].target
  }

  /** Operations that are in order once `first` has been carried out. */
  lemma OrderConcat(known: set<Exchange>, first: seq<Op>, now: set<Exchange>, ops: seq<Op>)
    requires InOrder(known, first) && InOrder(now, ops)
    requires forall x :: x in now ==> x in known || DeclareExchange(x) in first
    ensures InOrder(known, first + ops)
  {
    var all := first + ops;
    forall j | 0 <= j < |all| && all[j].Bind?
      ensures all[j].exchange in known || exists i :: 0 <= i < j && all[i] == DeclareExchange(all[j].exchange)
      ensures exists i :: 0 <= i < j && all[i].DeclareQueue? && all[i].queue == all[j].target
    {
      var x := all[j].exchange;
      if j < |first| {
        assert all[j] == first[j];
        var q :| 0 <= q < j && first[q].DeclareQueue? && first[q].queue == first[j].target;
        assert all[q] == first[q];
        if x !in known {
          var i :| 0 <= i < j && first[i] == DeclareExchange(x);
          assert all[i] == first[i];
        }
      } else {
        var k := j - |first|;
        var q :| 0 <= q < k && ops[q].DeclareQueue? && ops[q].queue == ops[k].target;
        assert all[|first| + q] == ops[q];
        if x !in known && x in now {
          var i :| 0 <= i < |first| && first[i] == DeclareExchange(x);
          assert all[i] == first[i];
        } else if x !in known {
          var i :| 0 <= i < k && ops[i] == DeclareExchange(x);
          assert all[|first| + i] == ops[i];
        }
      }
    }
  }

  lemma PairInOrder(queue: string, args: QueueArgs, key: string, exchange: Exchange, known: set<Exchange>)
    requires exchange in known
    ensures InOrder(known, [DeclareQueue(queue, args), Bind(queue, key, exchange)])
  {
    var ops := [DeclareQueue(queue, args), Bind(queue, key, exchange)];
    assert ops[0].DeclareQueue? && ops[0].queue == queue;
  }

  lemma {:induction false} BindingsInOrder(bindings: seq<QueueBinding>, exchange: Exchange)
    ensures InOrder({exchange}, BindingOps(bindings, exchange))
  {
    hide InOrder;
    if bindings == [] {
      NothingInOrder({exchange});
    } else {
      var b := bindings[0];
      PairInOrder(b.queue, NoArgs, b.routingKey, exchange, {exchange});
      BindingsInOrder(bindings[1..], exchange);
      OrderConcat({exchange}, [DeclareQueue(b.queue, NoArgs), Bind(b.queue, b.routingKey, exchange)],
                  {exchange}, BindingOps(bindings[1..], exchange));
    }
  }

  lemma NothingInOrder(known: set<Exchange>)
    ensures InOrder(known, [])
  {
  }

  lemma {:induction false} LevelsInOrder(t: Topology, channel: string, priority: string, level: int)
    ensures InOrder({Retry, Dlq}, LevelOps(t, channel, priority, level))
    decreases 3 - level
  {
    hide InOrder;
    if level > 3 {
      NothingInOrder({Retry, Dlq});
    } else {
      var queue := RetryQueueName(t.prefix, channel, priority, level);
      var args := Holding(TtlMs(t.retryTTLs.Level(level)), t.exchange, channel + "." + priority);
      PairInOrder(queue, args, RetryKey(channel, priority, level), Retry, {Retry, Dlq});
      LevelsInOrder(t, channel, priority, level + 1);
      OrderConcat({Retry, Dlq}, [DeclareQueue(queue, args), Bind(queue, RetryKey(channel, priority, level), Retry)],
                  {Retry, Dlq}, LevelOps(t, channel, priority, level + 1));
    }
  }

  lemma {:induction false} PrioritiesInOrder(t: Topology, channel: string, priorities: seq<string>)
    ensures InOrder({Retry, Dlq}, PriorityOps(t, channel, priorities))
  {
    hide InOrder, LevelOps;
    if priorities == [] {
      NothingInOrder({Retry, Dlq});
    } else {
      LevelsInOrder(t, channel, priorities[0], 1);
      PrioritiesInOrder(t, channel, priorities[1..]);
      OrderConcat({Retry, Dlq}, LevelOps(t, channel, priorities[0], 1),
                  {Retry, Dlq}, PriorityOps(t, channel, priorities[1..]));
    }
  }

  lemma {:induction false} ChannelsInOrder(t: Topology, channels: seq<string>)
    ensures InOrder({Retry, Dlq}, ChannelOps(t, channels))
  {
    hide InOrder, PriorityOps;
    if channels == [] {
      NothingInOrder({Retry, Dlq});
    } else {
      var c, known := channels[0], {Retry, Dlq};
      PrioritiesInOrder(t, c, PRIORITIES);
      PairInOrder(DLQQueueName(t.prefix, c), NoArgs, c, Dlq, known);
      ChannelsInOrder(t, channels[1..]);
      OrderConcat(known, PriorityOps(t, c, PRIORITIES), known, DeadLetterOps(t, c));
      OrderConcat(known, PriorityOps(t, c, PRIORITIES) + DeadLetterOps(t, c), known, ChannelOps(t, channels[1..]));
    }
  }

  lemma ExchangeInOrder(x: Exchange, now: set<Exchange>, known: set<Exchange>, ops: seq<Op>)
    requires InOrder(now, ops) && now <= known + {x}
    ensures InOrder(known, [DeclareExchange(x)] + ops)
  {
    assert InOrder(known, [DeclareExchange(x)]);
    assert [DeclareExchange(x)][0] == DeclareExchange(x);
    OrderConcat(known, [DeclareExchange(x)], now, ops);
  }

  /** On a fresh broker no step of the plan binds a queue to an exchange, or a queue, that is not there yet. */
  lemma PlanInOrder(t: Topology)
    ensures InOrder({}, Plan(t))
  {
    hide InOrder, BindingOps, ChannelOps;
    BindingsInOrder(t.bindings, t.exchange);
    ChannelsInOrder(t, CHANNELS);
    ExchangeInOrder(Dlq, {Retry, Dlq}, {Retry}, ChannelOps(t, CHANNELS));
    ExchangeInOrder(Retry, {Retry}, {}, [DeclareExchange(Dlq)] + ChannelOps(t, CHANNELS));
    OrderConcat({t.exchange}, BindingOps(t.bindings, t.exchange), {}, LateOps(t));
    ExchangeInOrder(t.exchange, {t.exchange}, {}, BindingOps(t.bindings, t.exchange) + LateOps(t));
  }

  lemma PrefixInOrder(ops: seq<Op>, done: seq<Op>)
    requires InOrder({}, ops) && done <= ops
    ensures InOrder({}, done)
  {
    forall j | 0 <= j < |done| && done[j].Bind?
      ensures exists i :: 0 <= i < j && done[i] == DeclareExchange(done[j].exchange)
      ensures exists i :: 0 <= i < j && done[i].DeclareQueue? && done[i].queue == done[j].target
    {
      assert ops[j] == done[j];
      var i :| 0 <= i < j && ops[i] == DeclareExchange(ops[j].exchange);
      var q :| 0 <= q < j && ops[q].DeclareQueue? && ops[q].queue == ops[j].target;
      assert done[i] == ops[i] && done[q] == ops[q];
    }
  }

  lemma PrefixesInOrder(before: seq<Op>, t: Topology)
    ensures forall ops: seq<Op> :: before <= ops <= before + Plan(t) ==> InOrder({}, ops[|before|..])
  {
    hide InOrder, Plan;
    PlanInOrder(t);
    forall ops: seq<Op> | before <= ops <= before + Plan(t) ensures InOrder({}, ops[|before|..]) {
      assert (before + Plan(t))[|before|..] == Plan(t);
      PrefixInOrder(Plan(t), ops[|before|..]);
    }
  }

  // ---------------------------------------------------------------- the declaring code

  /** The part of an AMQP channel that declares things: the operations the broker has carried out so far. */
  class AmqpChannel {
    var ops: seq<Op>
    /** The broker refuses the operation with this index, and the code stops there. */
    const refused: Option<nat>

    constructor (refused: Option<nat>)
      ensures ops == [] && this.refused == refused
    {
      ops, this.refused := [], refused;
    }

    method Perform(op: Op) returns (err: bool)
      modifies this
      ensures err <==> refused == Some(|old(ops)|)
      ensures ops == if err then old(ops) else old(ops) + [op]
    {
      err := refused == Some(|ops|);
      if !err {
        ops := ops + [op];
      }
    }

    method DeclareAndBind(queue: string, args: QueueArgs, key: string, exchange: Exchange) returns (err: bool)
      modifies this
      ensures old(ops) <= ops
      ensures ops[|old(ops)|..] <= [DeclareQueue(queue, args), Bind(queue, key, exchange)]
      ensures !err <==> ops == old(ops) + [DeclareQueue(queue, args), Bind(queue, key, exchange)]
      ensures err ==> refused == Some(|ops|)
    {
      err := Perform(DeclareQueue(queue, args));
      if !err {
        err := Perform(Bind(queue, key, exchange));
      }
    }
  }

  /** Where a declaration stands: `done` has been carried out, `todo` is what is left of the plan. */
  ghost predicate OnTrack(ch: AmqpChannel, before: seq<Op>, todo: seq<Op>, plan: seq<Op>)
    reads ch
  {
    before <= ch.ops && ch.ops + todo == plan
  }

  ghost predicate Refused(ch: AmqpChannel, before: seq<Op>, plan: seq<Op>)
    reads ch
  {
    before <= ch.ops <= plan && |ch.ops| < |plan| && ch.refused == Some(|ch.ops|)
  }

  method DeclareBindings(ch: AmqpChannel, t: Topology, ghost before: seq<Op>, ghost todo: seq<Op>, ghost plan: seq<Op>)
    returns (err: bool)
    requires OnTrack(ch, before, BindingOps(t.bindings, t.exchange) + todo, plan)
    modifies ch
    ensures if err then Refused(ch, before, plan) else OnTrack(ch, before, todo, plan)
  {
    for i := 0 to |t.bindings|
      invariant OnTrack(ch, before, BindingOps(t.bindings[i..], t.exchange) + todo, plan)
    {
      var b := t.bindings[i];
      assert t.bindings[i..][1..] == t.bindings[i + 1..];
      err := ch.DeclareAndBind(b.queue, NoArgs, b.routingKey, t.exchange);
      if err { return; }
    }
    err := false;
  }

  method DeclareLevels(ch: AmqpChannel, t: Topology, channel: string, priority: string,
                       ghost before: seq<Op>, ghost todo: seq<Op>, ghost plan: seq<Op>) returns (err: bool)
    requires OnTrack(ch, before, LevelOps(t, channel, priority, 1) + todo, plan)
    modifies ch
    ensures if err then Refused(ch, before, plan) else OnTrack(ch, before, todo, plan)
  {
    for level := 1 to 4
      invariant OnTrack(ch, before, LevelOps(t, channel, priority, level) + todo, plan)
    {
      var queue := RetryQueueName(t.prefix, channel, priority, level);
      err := ch.DeclareAndBind(queue, Holding(TtlMs(t.retryTTLs.Level(level)), t.exchange, channel + "." + priority),
                               RetryKey(channel, priority, level), Retry);
      if err { return; }
    }
    err := false;
  }

  method DeclarePriorities(ch: AmqpChannel, t: Topology, channel: string, priorities: seq<string>,
                           ghost before: seq<Op>, ghost todo: seq<Op>, ghost plan: seq<Op>) returns (err: bool)
    requires OnTrack(ch, before, PriorityOps(t, channel, priorities) + todo, plan)
    modifies ch
    ensures if err then Refused(ch, before, plan) else OnTrack(ch, before, todo, plan)
  {
    for j := 0 to |priorities|
      invariant OnTrack(ch, before, PriorityOps(t, channel, priorities[j..]) + todo, plan)
    {
      assert priorities[j..][1..] == priorities[j + 1..];
      ghost var after := PriorityOps(t, channel, priorities[j + 1..]) + todo;
      assert PriorityOps(t, channel, priorities[j..]) + todo == LevelOps(t, channel, priorities[j], 1) + after;
      err := DeclareLevels(ch, t, channel, priorities[j], before, after, plan);
      if err { return; }
    }
    err := false;
  }

  method DeclareDeadLetter(ch: AmqpChannel, t: Topology, channel: string,
                           ghost before: seq<Op>, ghost todo: seq<Op>, ghost plan: seq<Op>) returns (err: bool)
    requires OnTrack(ch, before, DeadLetterOps(t, channel) + todo, plan)
    modifies ch
    ensures if err then Refused(ch, before, plan) else OnTrack(ch, before, todo, plan)
  {
    err := ch.DeclareAndBind(DLQQueueName(t.prefix, channel), NoArgs, channel, Dlq);
  }

  method DeclareChannels(ch: AmqpChannel, t: Topology, channels: seq<string>, ghost before: seq<Op>,
                         ghost plan: seq<Op>)
    returns (err: bool)
    requires OnTrack(ch, before, ChannelOps(t, channels), plan)
    modifies ch
    ensures if err then Refused(ch, before, plan) else ch.ops == plan
  {
    for i := 0 to |channels|
      invariant OnTrack(ch, before, ChannelOps(t, channels[i..]), plan)
    {
      var channel := channels[i];
      assert channels[i..][1..] == channels[i + 1..];
      ghost var after := ChannelOps(t, channels[i + 1..]);
      ghost var todo := DeadLetterOps(t, channel) + after;
      assert ChannelOps(t, channels[i..]) == PriorityOps(t, channel, PRIORITIES) + todo;
      err := DeclarePriorities(ch, t, channel, PRIORITIES, before, todo, plan);
      if err { return; }
      err := DeclareDeadLetter(ch, t, channel, before, after, plan);
      if err { return; }
    }
    err := false;
  }

  /** What is carried out is always a prefix of the plan, and the call succeeds iff it is the whole plan; wherever it
      stops, nothing has been bound to an exchange or a queue before that was declared. */
  method DeclareTopologyWith(ch: AmqpChannel, t: Topology) returns (err: bool)
    modifies ch
    ensures if err then Refused(ch, old(ch.ops), old(ch.ops) + Plan(t)) else ch.ops == old(ch.ops) + Plan(t)
    ensures old(ch.ops) <= ch.ops && InOrder({}, ch.ops[|old(ch.ops)|..])
  {
    hide LateOps, BindingOps, InOrder;
    ghost var before, plan := ch.ops, ch.ops + Plan(t);
    PrefixesInOrder(before, t);
    err := ch.Perform(DeclareExchange(t.exchange));
    if err { return; }
    assert OnTrack(ch, before, BindingOps(t.bindings, t.exchange) + LateOps(t), plan);
    err := DeclareBindings(ch, t, before, LateOps(t), plan);
    if err { return; }
    err := DeclareLate(ch, t, before, plan);
  }

  method DeclareLate(ch: AmqpChannel, t: Topology, ghost before: seq<Op>, ghost plan: seq<Op>) returns (err: bool)
    requires OnTrack(ch, before, LateOps(t), plan)
    modifies ch
    ensures if err then Refused(ch, before, plan) else ch.ops == plan
  {
    hide ChannelOps;
    err := ch.Perform(DeclareExchange(Retry));
    if err { return; }
    assert OnTrack(ch, before, [DeclareExchange(Dlq)] + ChannelOps(t, CHANNELS), plan);
    err := ch.Perform(DeclareExchange(Dlq));
    if err { return; }
    assert OnTrack(ch, before, ChannelOps(t, CHANNELS), plan);
    err := DeclareChannels(ch, t, CHANNELS, before, plan);
  }
}
