/** Where the declared topology sends a message: every routing key reaches at most one queue. */
module Routing {
  import opened Domain
  import opened Keys
  import opened Topology

  /** A declared queue, identified by what it was declared for. */
  datatype Place = Main(lane: Lane) | Hold(lane: Lane, level: int) | Dead(channel: string)

  predicate ValidPlace(place: Place) {
    match place
    case Main(lane) => ValidLane(lane)
    case Hold(lane, level) => ValidLane(lane) && 1 <= level <= 3
    case Dead(channel) => ValidChannel(channel)
  }

  function LaneKey(lane: Lane): string { lane.channel + "." + lane.priority }

  /** The queue's name without the test-isolation prefix. */
  function BareName(place: Place): string {
    match place
    case Main(lane) => LaneKey(lane)
    case Hold(lane, level) => RetryKey(lane.channel, lane.priority, level)
    case Dead(channel) => channel + ".dlq"
  }

  function BindingKey(place: Place): string {
    match place
    case Main(lane) => LaneKey(lane)
    case Hold(lane, level) => RetryKey(lane.channel, lane.priority, level)
    case Dead(channel) => channel
  }

  function BoundTo(place: Place): Exchange {
    match place
    case Main(_) => Notifications
    case Hold(_, _) => Retry
    case Dead(_) => Dlq
  }

  function ArgsOf(place: Place, ttls: RetryTTLs): QueueArgs {
    if place.Hold? then Holding(TtlMs(ttls.Level(place.level)), Notifications, LaneKey(place.lane)) else NoArgs
  }

  const LANES: set<Lane> := set c, p | c in CHANNELS && p in PRIORITIES :: Lane(c, p)

  const PLACES: set<Place> :=
    (set lane | lane in LANES :: Main(lane))
    + (set lane, level | lane in LANES && 1 <= level <= 3 :: Hold(lane, level))
    + (set c | c in CHANNELS :: Dead(c))

  lemma PlacesAreValid(place: Place)
    ensures place in PLACES <==> ValidPlace(place)
  {
    match place
    case Main(lane) => assert ValidLane(lane) <==> lane in LANES;
    case Hold(lane, level) => assert ValidLane(lane) <==> lane in LANES;
    case Dead(channel) =>
  }

  // ---------------------------------------------------------------- how many places there are

  lemma {:induction false} ImageSize<A, B>(s: set<A>, f: A -> B, t: set<B>)
    requires forall a, b :: a in s && b in s && f(a) == f(b) ==> a == b
    requires forall a :: a in s ==> f(a) in t
    requires forall y :: y in t ==> exists a :: a in s && f(a) == y
    ensures |t| == |s|
    decreases |s|
  {
    if s != {} {
      var a :| a in s;
      var s', t' := s - {a}, t - {f(a)};
      forall y | y in t' ensures exists b :: b in s' && f(b) == y {
        var b :| b in s && f(b) == y;
        assert b in s';
      }
      ImageSize(s', f, t');
      assert f(a) in t;
    } else {
      assert t == {};
    }
  }

  lemma UnionSize<T>(a: set<T>, b: set<T>, c: set<T>, all: set<T>)
    requires a !! b && a !! c && b !! c && all == a + b + c
    ensures |all| == |a| + |b| + |c|
  {
    assert |a + b| == |a| + |b|;
    assert |(a + b) + c| == |a + b| + |c|;
  }

  lemma TextsDiffer()
    ensures "email" != "sms" && "sms" != "push" && "email" != "push"
    ensures "high" != "normal" && "normal" != "low" && "high" != "low"
  {
    assert "email"[0] != "sms"[0] && "sms"[0] != "push"[0] && "email"[0] != "push"[0];
    assert "high"[0] != "normal"[0] && "normal"[0] != "low"[0] && "high"[0] != "low"[0];
  }

  /** The lanes of one channel. */
  function LanesOf(channel: string): set<Lane> { set p | p in PRIORITIES :: Lane(channel, p) }

  lemma ThreeLanes(channel: string)
    ensures |LanesOf(channel)| == 3
  {
    TextsDiffer();
    var a, b, c := Lane(channel, "high"), Lane(channel, "normal"), Lane(channel, "low");
    assert LanesOf(channel) == {a} + {b} + {c};
    UnionSize({a}, {b}, {c}, LanesOf(channel));
  }

  lemma NineLanes()
    ensures |LANES| == 9
  {
    TextsDiffer();
    ThreeLanes("email");
    ThreeLanes("sms");
    ThreeLanes("push");
    forall lane: Lane ensures lane in LANES <==> lane in LanesOf("email") + LanesOf("sms") + LanesOf("push") {
      assert lane in LANES <==> lane.channel in CHANNELS && lane in LanesOf(lane.channel);
    }
    UnionSize(LanesOf("email"), LanesOf("sms"), LanesOf("push"), LANES);
  }

  /** The retry queues of one level. */
  function HoldsAt(level: int): set<Place> { set lane | lane in LANES :: Hold(lane, level) }

  lemma NineHolds(level: int)
    ensures |HoldsAt(level)| == 9
  {
    hide LANES;
    NineLanes();
    ImageSize(LANES, (lane: Lane) => Hold(lane, level), HoldsAt(level));
  }

  const MAINS: set<Place> := set p | p in PLACES && p.Main?
  const HOLDS: set<Place> := set p | p in PLACES && p.Hold?
  const DEADS: set<Place> := set p | p in PLACES && p.Dead?

  lemma MainsCounted()
    ensures |MAINS| == 9
  {
    hide LANES;
    NineLanes();
    ImageSize(LANES, (lane: Lane) => Main(lane), MAINS);
  }

  lemma HoldsCounted()
    ensures |HOLDS| == 27
  {
    hide LANES;
    NineHolds(1);
    NineHolds(2);
    NineHolds(3);
    UnionSize(HoldsAt(1), HoldsAt(2), HoldsAt(3), HOLDS);
  }

  lemma DeadsCounted()
    ensures |DEADS| == 3
  {
    TextsDiffer();
    forall p: Place ensures p in DEADS <==> p in {Dead("email")} + {Dead("sms")} + {Dead("push")} {
      PlacesAreValid(p);
    }
    hide PLACES, DEADS;
    UnionSize({Dead("email")}, {Dead("sms")}, {Dead("push")}, DEADS);
  }

  /** Nine main queues, 27 retry queues and three dead-letter queues: 39 in all. */
  lemma PlacesCounted()
    ensures |MAINS| == 9 && |HOLDS| == 27 && |DEADS| == 3
    ensures |PLACES| == 39
  {
    MainsCounted();
    HoldsCounted();
    DeadsCounted();
    hide PLACES;
    UnionSize(MAINS, HOLDS, DEADS, PLACES);
  }

  // ---------------------------------------------------------------- the production bindings

  function LaneBindings(prefix: string, channels: seq<string>, priorities: seq<string>): seq<QueueBinding>
    decreases |channels|, prefix
  {
    if channels == [] then []
    else ChannelBindings(prefix, channels[0], priorities) + LaneBindings(prefix, channels[1..], priorities)
  }

  function ChannelBindings(prefix: string, channel: string, priorities: seq<string>): seq<QueueBinding>
    decreases |priorities|, prefix
  {
    if priorities == [] then []
    else
      var name := channel + "." + priorities[0];
      [QueueBinding(prefix + name, name)] + ChannelBindings(prefix, channel, priorities[1..])
  }

  method AllProductionBindings() returns (bindings: seq<QueueBinding>)
    ensures bindings == LaneBindings("", CHANNELS, PRIORITIES)
    ensures |bindings| == 9
    ensures forall i, j :: 0 <= i < 3 && 0 <= j < 3 ==>
              var name := ["email", "sms", "push"][i] + "." + ["high", "normal", "low"][j];
              bindings[3 * i + j] == QueueBinding(name, name)
  {
    bindings := CollectBindings(CHANNELS, PRIORITIES, "");
    LaneBindingsRead(CHANNELS);
  }

  lemma {:induction false} LaneBindingsRead(channels: seq<string>)
    ensures var bindings := LaneBindings("", channels, PRIORITIES);
            && |bindings| == 3 * |channels|
            && forall i, j :: 0 <= i < |channels| && 0 <= j < 3 ==>
                 var name := channels[i] + "." + PRIORITIES[j];
                 bindings[3 * i + j] == QueueBinding(name, name)
  {
    if channels != [] {
      var c := channels[0];
      var first := [QueueBinding(c + ".high", c + ".high"), QueueBinding(c + ".normal", c + ".normal"),
                    QueueBinding(c + ".low", c + ".low")];
      assert ChannelBindings("", c, PRIORITIES) == first by {
        ThreeBindings(c);
      }
      LaneBindingsRead(channels[1..]);
      forall i, j | 0 <= i < |channels| && 0 <= j < 3
        ensures var name := channels[i] + "." + PRIORITIES[j];
                LaneBindings("", channels, PRIORITIES)[3 * i + j] == QueueBinding(name, name)
      {
        if i > 0 {
          assert (first + LaneBindings("", channels[1..], PRIORITIES))[3 * i + j]
                 == LaneBindings("", channels[1..], PRIORITIES)[3 * (i - 1) + j];
        }
      }
    }
  }

  lemma ThreeBindings(c: string)
    ensures ChannelBindings("", c, PRIORITIES)
            == [QueueBinding(c + ".high", c + ".high"), QueueBinding(c + ".normal", c + ".normal"),
                QueueBinding(c + ".low", c + ".low")]
  {
    assert PRIORITIES[1..] == ["normal", "low"] && ["normal", "low"][1..] == ["low"];
    assert c + "." + "high" == c + ".high" && c + "." + "normal" == c + ".normal" && c + "." + "low" == c + ".low";
    assert "" + (c + ".high") == c + ".high" && "" + (c + ".normal") == c + ".normal";
    assert "" + (c + ".low") == c + ".low";
  }

  method CollectBindings(channels: seq<string>, priorities: seq<string>, ghost prefix: string)
    returns (bindings: seq<QueueBinding>)
    requires prefix == ""
    ensures bindings == LaneBindings(prefix, channels, priorities)
  {
    bindings := [];
    for i := 0 to |channels|
      invariant bindings + LaneBindings(prefix, channels[i..], priorities) == LaneBindings(prefix, channels, priorities)
    {
      assert channels[i..][1..] == channels[i + 1..];
      bindings := CollectChannel(channels[i], priorities, bindings, prefix);
    }
  }

  /** The inner loop: one channel's bindings, appended to those already collected. */
  method CollectChannel(channel: string, priorities: seq<string>, collected: seq<QueueBinding>, ghost prefix: string)
    returns (bindings: seq<QueueBinding>)
    requires prefix == ""
    ensures bindings == collected + ChannelBindings(prefix, channel, priorities)
  {
    bindings := collected;
    for j := 0 to |priorities|
      invariant bindings + ChannelBindings(prefix, channel, priorities[j..])
                == collected + ChannelBindings(prefix, channel, priorities)
    {
      var name := channel + "." + priorities[j];
      assert priorities[j..][1..] == priorities[j + 1..];
      assert prefix + name == name;
      bindings := bindings + [QueueBinding(name, name)];
    }
  }

  /** The topology of a deployment: production has the empty prefix. */
  function Deployment(prefix: string, ttls: RetryTTLs): Topology {
    Topology(Notifications, LaneBindings(prefix, CHANNELS, PRIORITIES), prefix, ttls)
  }

  const PRODUCTION_TTLS := RetryTTLs(30_000_000_000, 120_000_000_000, 600_000_000_000)

  // ---------------------------------------------------------------- what the plan declares

  /** One of the two operations that set up a queue. */
  predicate SetsUp(op: Op, place: Place, prefix: string, ttls: RetryTTLs) {
    || op == DeclareQueue(prefix + BareName(place), ArgsOf(place, ttls))
    || op == Bind(prefix + BareName(place), BindingKey(place), BoundTo(place))
  }

  lemma {:induction false} ChannelBindingsDeclare(op: Op, prefix: string, channel: string, ps: seq<string>,
      ttls: RetryTTLs)
    ensures op in BindingOps(ChannelBindings(prefix, channel, ps), Notifications) <==>
            exists p :: p in ps && SetsUp(op, Main(Lane(channel, p)), prefix, ttls)
  {
    if ps != [] {
      ChannelBindingsDeclare(op, prefix, channel, ps[1..], ttls);
      assert BindingKey(Main(Lane(channel, ps[0]))) == channel + "." + ps[0];
      assert forall p :: p in ps <==> p == ps[0] || p in ps[1..];
    }
  }

  lemma {:induction false} BindingOpsConcat(a: seq<QueueBinding>, b: seq<QueueBinding>, exchange: Exchange)
    ensures BindingOps(a + b, exchange) == BindingOps(a, exchange) + BindingOps(b, exchange)
  {
    if a == [] {
      assert a + b == b;
    } else {
      assert (a + b)[1..] == a[1..] + b;
      BindingOpsConcat(a[1..], b, exchange);
    }
  }

  lemma {:induction false} LaneBindingsDeclare(op: Op, prefix: string, cs: seq<string>, ttls: RetryTTLs)
    ensures op in BindingOps(LaneBindings(prefix, cs, PRIORITIES), Notifications) <==>
            exists c, p :: c in cs && p in PRIORITIES && SetsUp(op, Main(Lane(c, p)), prefix, ttls)
  {
    if cs != [] {
      LaneBindingsDeclare(op, prefix, cs[1..], ttls);
      ChannelBindingsDeclare(op, prefix, cs[0], PRIORITIES, ttls);
      BindingOpsConcat(ChannelBindings(prefix, cs[0], PRIORITIES), LaneBindings(prefix, cs[1..], PRIORITIES),
                       Notifications);
      assert forall c :: c in cs <==> c == cs[0] || c in cs[1..];
    }
  }

  lemma {:induction false} LevelOpsDeclare(op: Op, t: Topology, c: string, p: string, level: int)
    requires t.exchange == Notifications && level >= 1
    ensures op in LevelOps(t, c, p, level) <==>
            exists l :: level <= l <= 3 && SetsUp(op, Hold(Lane(c, p), l), t.prefix, t.retryTTLs)
    decreases 3 - level
  {
    if level <= 3 {
      LevelOpsDeclare(op, t, c, p, level + 1);
      var queue := RetryQueueName(t.prefix, c, p, level);
      assert BareName(Hold(Lane(c, p), level)) == RetryKey(c, p, level);
      assert SetsUp(op, Hold(Lane(c, p), level), t.prefix, t.retryTTLs) <==>
             op in [DeclareQueue(queue, Holding(TtlMs(t.retryTTLs.Level(level)), t.exchange, c + "." + p)),
                    Bind(queue, RetryKey(c, p, level), Retry)];
    }
  }

  lemma {:induction false} PriorityOpsDeclare(op: Op, t: Topology, c: string, ps: seq<string>)
    requires t.exchange == Notifications
    ensures op in PriorityOps(t, c, ps) <==>
            exists p, l :: p in ps && 1 <= l <= 3 && SetsUp(op, Hold(Lane(c, p), l), t.prefix, t.retryTTLs)
  {
    if ps != [] {
      PriorityOpsDeclare(op, t, c, ps[1..]);
      LevelOpsDeclare(op, t, c, ps[0], 1);
      assert forall p :: p in ps <==> p == ps[0] || p in ps[1..];
    }
  }

  lemma DeadLetterOpsDeclare(op: Op, t: Topology, c: string)
    ensures op in DeadLetterOps(t, c) <==> SetsUp(op, Dead(c), t.prefix, t.retryTTLs)
  {
  }

  lemma {:induction false} ChannelOpsDeclare(op: Op, t: Topology, cs: seq<string>)
    requires t.exchange == Notifications
    ensures op in ChannelOps(t, cs) <==>
            || (exists c, p, l :: c in cs && p in PRIORITIES && 1 <= l <= 3
                                  && SetsUp(op, Hold(Lane(c, p), l), t.prefix, t.retryTTLs))
            || (exists c :: c in cs && SetsUp(op, Dead(c), t.prefix, t.retryTTLs))
  {
    hide SetsUp, PriorityOps, DeadLetterOps;
    if cs != [] {
      ChannelOpsDeclare(op, t, cs[1..]);
      PriorityOpsDeclare(op, t, cs[0], PRIORITIES);
      DeadLetterOpsDeclare(op, t, cs[0]);
      assert cs == [cs[0]] + cs[1..];
    }
  }

  lemma PlanParts(op: Op, t: Topology)
    ensures op in Plan(t) <==>
            || op in {DeclareExchange(t.exchange), DeclareExchange(Retry), DeclareExchange(Dlq)}
            || op in BindingOps(t.bindings, t.exchange)
            || op in ChannelOps(t, CHANNELS)
  {
  }

  lemma PlaceDeclared(op: Op, place: Place, prefix: string, ttls: RetryTTLs)
    requires ValidPlace(place) && SetsUp(op, place, prefix, ttls)
    ensures op in Plan(Deployment(prefix, ttls))
  {
    var t := Deployment(prefix, ttls);
    PlanParts(op, t);
    match place
    case Main(lane) =>
      LaneBindingsDeclare(op, prefix, CHANNELS, ttls);
      assert SetsUp(op, Main(Lane(lane.channel, lane.priority)), prefix, ttls);
    case Hold(lane, l) =>
      ChannelOpsDeclare(op, t, CHANNELS);
      assert SetsUp(op, Hold(Lane(lane.channel, lane.priority), l), prefix, ttls);
    case Dead(c) =>
      ChannelOpsDeclare(op, t, CHANNELS);
  }

  lemma DeclaredMain(op: Op, prefix: string, ttls: RetryTTLs)
    requires op in BindingOps(LaneBindings(prefix, CHANNELS, PRIORITIES), Notifications)
    ensures exists place :: ValidPlace(place) && SetsUp(op, place, prefix, ttls)
  {
    LaneBindingsDeclare(op, prefix, CHANNELS, ttls);
    var c, p :| c in CHANNELS && p in PRIORITIES && SetsUp(op, Main(Lane(c, p)), prefix, ttls);
    assert ValidPlace(Main(Lane(c, p)));
  }

  lemma DeclaredOther(op: Op, t: Topology)
    requires t.exchange == Notifications && op in ChannelOps(t, CHANNELS)
    ensures exists place :: ValidPlace(place) && SetsUp(op, place, t.prefix, t.retryTTLs)
  {
    ChannelOpsDeclare(op, t, CHANNELS);
    if c, p, l :|
      c in CHANNELS && p in PRIORITIES && 1 <= l <= 3 && SetsUp(op, Hold(Lane(c, p), l), t.prefix, t.retryTTLs)
    {
      assert ValidPlace(Hold(Lane(c, p), l));
    } else {
      var c :| c in CHANNELS && SetsUp(op, Dead(c), t.prefix, t.retryTTLs);
      assert ValidPlace(Dead(c));
    }
  }

  lemma DeclaredPlace(op: Op, prefix: string, ttls: RetryTTLs)
    requires op in Plan(Deployment(prefix, ttls)) && !op.DeclareExchange?
    ensures exists place :: ValidPlace(place) && SetsUp(op, place, prefix, ttls)
  {
    var t := Deployment(prefix, ttls);
    PlanParts(op, t);
    if op in BindingOps(t.bindings, t.exchange) {
      DeclaredMain(op, prefix, ttls);
    } else {
      DeclaredOther(op, t);
    }
  }

  /** Exactly the 39 places are declared and bound, each with its own arguments: 9 main queues, 27 retry
      queues that dead-letter back to their own lane, and 3 dead-letter queues. */
  lemma DeploymentDeclares(op: Op, prefix: string, ttls: RetryTTLs)
    requires !op.DeclareExchange?
    ensures op in Plan(Deployment(prefix, ttls)) <==>
            exists place :: ValidPlace(place) && SetsUp(op, place, prefix, ttls)
  {
    if op in Plan(Deployment(prefix, ttls)) {
      DeclaredPlace(op, prefix, ttls);
    }
    forall place | ValidPlace(place) && SetsUp(op, place, prefix, ttls) ensures op in Plan(Deployment(prefix, ttls)) {
      PlaceDeclared(op, place, prefix, ttls);
    }
  }

  /** The three retry levels of a lane: the level as text, and how long it holds a message. */
  function LevelsOf(ttls: RetryTTLs): seq<(string, int)> {
    [("1", ttls.level1), ("2", ttls.level2), ("3", ttls.level3)]
  }

  /** The operations of a lane and of its channel's dead-letter queue, name by name. */
  lemma PlanReads(prefix: string, ttls: RetryTTLs, c: string, p: string)
    requires c in ["email", "sms", "push"] && p in ["high", "normal", "low"]
    ensures var plan, lane := Plan(Deployment(prefix, ttls)), c + "." + p;
            && DeclareQueue(prefix + lane, NoArgs) in plan && Bind(prefix + lane, lane, Notifications) in plan
            && DeclareQueue(prefix + (c + ".dlq"), NoArgs) in plan && Bind(prefix + (c + ".dlq"), c, Dlq) in plan
            && forall level :: level in LevelsOf(ttls) ==>
                 var name := c + "." + (p + "." + ("retry." + level.0));
                 && DeclareQueue(prefix + name, Holding(TtlMs(level.1), Notifications, lane)) in plan
                 && Bind(prefix + name, name, Retry) in plan
  {
    hide Plan, TtlMs;
    var lane := Lane(c, p);
    PlaceReads(prefix, ttls, Main(lane), c + "." + p, NoArgs, c + "." + p, Notifications);
    PlaceReads(prefix, ttls, Dead(c), c + ".dlq", NoArgs, c, Dlq);
    forall level | level in LevelsOf(ttls)
      ensures var name := c + "." + (p + "." + ("retry." + level.0));
              && DeclareQueue(prefix + name, Holding(TtlMs(level.1), Notifications, c + "." + p))
                 in Plan(Deployment(prefix, ttls))
              && Bind(prefix + name, name, Retry) in Plan(Deployment(prefix, ttls))
    {
      var l := if level == ("1", ttls.level1) then 1 else if level == ("2", ttls.level2) then 2 else 3;
      assert Itoa(l) == level.0;
      var name := c + "." + (p + "." + ("retry." + level.0));
      PlaceReads(prefix, ttls, Hold(lane, l), name, Holding(TtlMs(level.1), Notifications, c + "." + p), name, Retry);
    }
  }

  lemma PlaceReads(prefix: string, ttls: RetryTTLs, place: Place, name: string, args: QueueArgs, key: string,
                   exchange: Exchange)
    requires ValidPlace(place) && name == BareName(place) && args == ArgsOf(place, ttls)
    requires key == BindingKey(place) && exchange == BoundTo(place)
    ensures DeclareQueue(prefix + name, args) in Plan(Deployment(prefix, ttls))
    ensures Bind(prefix + name, key, exchange) in Plan(Deployment(prefix, ttls))
  {
    PlaceDeclared(DeclareQueue(prefix + name, args), place, prefix, ttls);
    PlaceDeclared(Bind(prefix + name, key, exchange), place, prefix, ttls);
  }

  // ---------------------------------------------------------------- names and keys tell places apart

  lemma LevelText(l: int, m: int)
    requires 1 <= l <= 3 && 1 <= m <= 3 && Itoa(l) == Itoa(m)
    ensures l == m
  {
    assert Itoa(l) == ["0123456789"[l]] && Itoa(m) == ["0123456789"[m]];
  }

  /** What follows "channel." in a queue's name. */
  function NameTail(place: Place): string {
    match place
    case Main(lane) => lane.priority
    case Hold(lane, level) => lane.priority + "." + ("retry." + Itoa(level))
    case Dead(_) => "dlq"
  }

  function ChannelOf(place: Place): string {
    match place
    case Main(lane) => lane.channel
    case Hold(lane, _) => lane.channel
    case Dead(channel) => channel
  }

  lemma NameSplits(place: Place)
    ensures BareName(place) == ChannelOf(place) + "." + NameTail(place)
  {
    match place
    case Main(_) =>
    case Hold(_, _) =>
    case Dead(channel) => assert channel + ".dlq" == channel + "." + "dlq";
  }

  lemma TailsDiffer(p: Place, q: Place)
    requires ValidPlace(p) && ValidPlace(q) && NameTail(p) == NameTail(q)
    ensures p.Main? == q.Main? && p.Hold? == q.Hold?
    ensures !p.Dead? ==> p.lane.priority == q.lane.priority
    ensures p.Hold? ==> p.level == q.level
  {
    if p.Hold? && q.Hold? {
      ValidPriorityText(p.lane.priority);
      ValidPriorityText(q.lane.priority);
      var x, y := "retry." + Itoa(p.level), "retry." + Itoa(q.level);
      CutAtDot(p.lane.priority, q.lane.priority, x, y);
      assert x[|"retry."|..] == Itoa(p.level) && y[|"retry."|..] == Itoa(q.level);
      LevelText(p.level, q.level);
    } else {
      TailDots(p);
      TailDots(q);
    }
  }

  lemma TailDots(p: Place)
    requires ValidPlace(p)
    ensures p.Hold? <==> !NoDot(NameTail(p))
    ensures p.Dead? <==> NameTail(p) == "dlq"
  {
    match p
    case Main(lane) => ValidPriorityText(lane.priority);
    case Hold(lane, level) => assert NameTail(p)[|lane.priority|] == '.';
    case Dead(_) =>
  }

  lemma NamesDiffer(p: Place, q: Place, prefix: string)
    requires ValidPlace(p) && ValidPlace(q) && prefix + BareName(p) == prefix + BareName(q)
    ensures p == q
  {
    assert (prefix + BareName(p))[|prefix|..] == BareName(p);
    assert (prefix + BareName(q))[|prefix|..] == BareName(q);
    NameSplits(p);
    NameSplits(q);
    ValidChannelText(ChannelOf(p));
    ValidChannelText(ChannelOf(q));
    CutAtDot(ChannelOf(p), ChannelOf(q), NameTail(p), NameTail(q));
    TailsDiffer(p, q);
  }

  lemma KeysDiffer(p: Place, q: Place)
    requires ValidPlace(p) && ValidPlace(q) && BoundTo(p) == BoundTo(q) && BindingKey(p) == BindingKey(q)
    ensures p == q
  {
    if !p.Dead? {
      assert "" + BareName(p) == "" + BareName(q);
      NamesDiffer(p, q, "");
    }
  }

  // ---------------------------------------------------------------- routing

  predicate Reaches(exchange: Exchange, key: string, place: Place) {
    place in PLACES && BoundTo(place) == exchange && BindingKey(place) == key
  }

  /** The one queue a key reaches, if any. */
  function Route(exchange: Exchange, key: string): (place: Option<Place>)
    ensures forall p :: Reaches(exchange, key, p) <==> place == Some(p)
  {
    if exists p :: p in PLACES && Reaches(exchange, key, p) then
      UniquePlace(exchange, key);
      var p :| p in PLACES && Reaches(exchange, key, p);
      Some(p)
    else None
  }

  lemma UniquePlace(exchange: Exchange, key: string)
    ensures forall p, q :: Reaches(exchange, key, p) && Reaches(exchange, key, q) ==> p == q
  {
    forall p, q | Reaches(exchange, key, p) && Reaches(exchange, key, q) ensures p == q {
      PlacesAreValid(p);
      PlacesAreValid(q);
      KeysDiffer(p, q);
    }
  }

  /** The queues a topic exchange without wildcard bindings copies a message to. */
  function RoutedQueues(t: Topology, exchange: Exchange, key: string): set<string> {
    set op | op in Plan(t) && op.Bind? && op.exchange == exchange && op.key == key :: op.target
  }

  /** In every deployment a key reaches exactly the queue `Route` names, and no queue if `Route` names none. */
  lemma RoutingExact(prefix: string, ttls: RetryTTLs, exchange: Exchange, key: string)
    ensures RoutedQueues(Deployment(prefix, ttls), exchange, key)
            == match Route(exchange, key) case Some(p) => {prefix + BareName(p)} case None => {}
  {
    var t := Deployment(prefix, ttls);
    forall name | name in RoutedQueues(t, exchange, key)
      ensures exists p :: Reaches(exchange, key, p) && name == prefix + BareName(p)
    {
      var op :| op in Plan(t) && op.Bind? && op.exchange == exchange && op.key == key && op.target == name;
      DeploymentDeclares(op, prefix, ttls);
      var p :| ValidPlace(p) && SetsUp(op, p, prefix, ttls);
      PlacesAreValid(p);
      assert Reaches(exchange, key, p);
    }
    forall p | Reaches(exchange, key, p) ensures prefix + BareName(p) in RoutedQueues(t, exchange, key) {
      PlacesAreValid(p);
      var op := Bind(prefix + BareName(p), BindingKey(p), BoundTo(p));
      assert SetsUp(op, p, prefix, ttls);
      DeploymentDeclares(op, prefix, ttls);
    }
  }

  /** The keys the system builds reach the queue they are meant for; a retry queue's dead-letter key leads back to
      its lane. */
  lemma LaneRoutes(lane: Lane, level: int)
    requires ValidLane(lane)
    ensures Route(Notifications, RoutingKey(lane.channel, lane.priority)) == Some(Main(lane))
    ensures Route(Notifications, LaneKey(lane)) == Some(Main(lane))
    ensures 1 <= level <= 3 ==> Route(Retry, RetryKey(lane.channel, lane.priority, level)) == Some(Hold(lane, level))
    ensures Route(Dlq, lane.channel) == Some(Dead(lane.channel))
  {
    ValidPriorityText(lane.priority);
    PlacesAreValid(Main(lane));
    PlacesAreValid(Hold(lane, level));
    PlacesAreValid(Dead(lane.channel));
    assert Reaches(Notifications, LaneKey(lane), Main(lane));
    assert 1 <= level <= 3 ==> Reaches(Retry, RetryKey(lane.channel, lane.priority, level), Hold(lane, level));
    assert Reaches(Dlq, lane.channel, Dead(lane.channel));
  }
}
