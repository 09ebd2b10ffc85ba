/** Where copies can be, under any interleaving, crash, redelivery and fault: every copy keeps its lane and payload,
    every provider call gets the stored row, and no publish is ever unroutable. */
module Placement {
  import opened Domain
  import opened Keys
  import opened Topology
  import opened Routing
  import opened World
  import opened Handle
  import opened Protocol

  function LaneOf(m: NotificationMessage): Lane { Lane(m.channel, m.priority) }

  ghost predicate RowOk(rows: map<Uuid, Notification>, id: Uuid)
    requires id in rows
  {
    rows[id].id == id && ValidLane(Lane(rows[id].channel, rows[id].priority))
  }

  /** The body is the wire form of the stored row. */
  ghost predicate StoredBody(rows: map<Uuid, Notification>, body: Body) {
    body.Encoded? && body.msg.id in rows && RowOk(rows, body.msg.id) && body.msg == MessageFrom(rows[body.msg.id])
  }

  /** The program counters a handler of attempt a can be at. */
  predicate PcFits(pc: Pc, a: int) {
    match pc
    case AtRetry(_) => a <= 2
    case AtLogRetry(_) => a <= 2
    case AtDlq => a == 3
    case AtFailed => a == 3
    case AtUnmark => a == 3
    case AtLogDlq => a == 3
    case _ => true
  }

  /** A delivery from a main queue: its key is its row's lane and its attempt is within 0..3. */
  ghost predicate DeliveryFits(rows: map<Uuid, Notification>, d: Delivery, pc: Pc) {
    && StoredBody(rows, d.body)
    && d.key == LaneKey(LaneOf(d.body.msg))
    && 0 <= d.attempt <= 3
    && d.correlationId == UuidText(d.body.msg.correlationId)
    && PcFits(pc, d.attempt)
  }

  ghost predicate Placed(rows: map<Uuid, Notification>, e: Entry) {
    && StoredBody(rows, e.msg.body)
    && var lane := LaneOf(e.msg.body.msg);
       var a := AttemptOf(e.msg);
       && HeaderString(e.msg.headers.correlationId) == UuidText(e.msg.body.msg.correlationId)
       && match e.place
          case Main(l) =>
            && l == lane && e.msg.key == LaneKey(lane) && 0 <= a <= 3
            && (e.handling.Running? ==> PcFits(e.handling.pc, a))
          case Hold(l, level) => l == lane && a == level && 1 <= level <= 3 && e.handling.Ready?
          case Dead(c) =>
            && c == lane.channel && a == 3 && e.handling.Ready?
            && e.msg.headers.originalRoutingKey == Text(LaneKey(lane))
  }

  /** Every provider call carries what the row holds, only stored rows are handed over, and nothing was published into
      the void. */
  ghost predicate EventOk(rows: map<Uuid, Notification>, ev: Event) {
    && !ev.Unrouted?
    && (ev.Handed? ==> ev.id in rows)
    && (ev.Sent? ==> ev.to.id in rows && ev.to == ToNotification(MessageFrom(rows[ev.to.id])) && 0 <= ev.attempt <= 3)
  }

  ghost predicate Inv(w: World) {
    && (forall id :: id in w.rows ==> RowOk(w.rows, id))
    && (forall k :: 0 <= k < |w.entries| ==> Placed(w.rows, w.entries[k]))
    && (forall k :: 0 <= k < |w.hist| ==> EventOk(w.rows, w.hist[k]))
  }

  /** Rows are never deleted, and only their status ever changes. */
  ghost predicate Grows(rows: map<Uuid, Notification>, rows': map<Uuid, Notification>) {
    forall id :: id in rows ==> id in rows' && rows'[id] == rows[id].(status := rows'[id].status)
  }

  lemma GrowKeeps(w: World, w': World)
    requires Inv(w) && Grows(w.rows, w'.rows)
    requires w'.entries == w.entries && w'.hist == w.hist
    requires forall id :: id in w'.rows && id !in w.rows ==> RowOk(w'.rows, id)
    ensures Inv(w')
  {
    forall k | 0 <= k < |w.entries| ensures Placed(w'.rows, w'.entries[k]) {
      assert Placed(w.rows, w.entries[k]);
      StoredGrows(w.rows, w'.rows, w.entries[k].msg.body);
    }
    forall k | 0 <= k < |w.hist| ensures EventOk(w'.rows, w'.hist[k]) {
      assert EventOk(w.rows, w.hist[k]);
    }
  }

  lemma StoredGrows(rows: map<Uuid, Notification>, rows': map<Uuid, Notification>, body: Body)
    requires StoredBody(rows, body) && Grows(rows, rows')
    ensures StoredBody(rows', body)
  {
  }

  // ---------------------------------------------------------------- one publish

  lemma PublishKeeps(w: World, exchange: Exchange, m: Message, fault: Fault, place: Place)
    requires Inv(w) && Route(exchange, m.key) == Some(place)
    requires Placed(w.rows, Entry(place, m, w.now, Ready))
    ensures Inv(Publish(w, exchange, m, fault))
  {
    assert RouteEvents(exchange, m.key, fault) == [];
  }

  lemma RetryKeeps(w: World, d: Delivery, fault: Fault)
    requires Inv(w) && DeliveryFits(w.rows, d, AtRetry(OtherError))
    ensures Inv(Publish(w, Retry, RetryOf(d, d.body.msg), fault))
    ensures Arrivals(w.now, Retry, RetryOf(d, d.body.msg), fault)
            == if fault.Applied()
               then [Entry(Hold(LaneOf(d.body.msg), d.attempt + 1), RetryOf(d, d.body.msg), w.now, Ready)] else []
    ensures RouteEvents(Retry, RetryOf(d, d.body.msg).key, fault) == []
  {
    hide Route, Reaches, Itoa;
    var lane := LaneOf(d.body.msg);
    KeyOfLane(lane);
    ResolveOwnKey(lane, d.body.msg.priority);
    LaneRoutes(lane, d.attempt + 1);
    AttemptRoundTrip(d.attempt + 1);
    PublishKeeps(w, Retry, RetryOf(d, d.body.msg), fault, Hold(lane, d.attempt + 1));
  }

  lemma KeyOfLane(lane: Lane)
    requires ValidLane(lane)
    ensures LaneKey(lane) == RoutingKey(lane.channel, lane.priority) && LaneKey(lane) != ""
  {
    ValidPriorityText(lane.priority);
  }

  lemma DlqKeeps(w: World, d: Delivery, fault: Fault)
    requires Inv(w) && DeliveryFits(w.rows, d, AtDlq)
    ensures Inv(Publish(w, Dlq, DlqOf(d, d.body.msg), fault))
    ensures Arrivals(w.now, Dlq, DlqOf(d, d.body.msg), fault)
            == if fault.Applied() then [Entry(Dead(d.body.msg.channel), DlqOf(d, d.body.msg), w.now, Ready)] else []
    ensures RouteEvents(Dlq, DlqOf(d, d.body.msg).key, fault) == []
  {
    hide Route, Reaches;
    var lane := LaneOf(d.body.msg);
    KeyOfLane(lane);
    LaneRoutes(lane, 1);
    AttemptRoundTrip(d.attempt);
    PublishKeeps(w, Dlq, DlqOf(d, d.body.msg), fault, Dead(d.body.msg.channel));
  }

  // ---------------------------------------------------------------- a worker's effects

  lemma SendKeeps(w: World, d: Delivery, c: Choice)
    requires Inv(w) && DeliveryFits(w.rows, d, AtSend)
    ensures var (w', pc') := Effect(w, d, AtSend, c); Inv(w') && DeliveryFits(w'.rows, d, pc') && w'.rows == w.rows
  {
    var m := d.body.msg;
    assert EventOk(w.rows, Sent(ToNotification(m), d.attempt, c.outcome, w.now));
  }

  lemma StatusKeeps(w: World, id: Uuid, status: Status, fault: Fault)
    requires Inv(w)
    ensures var w' := SetStatus(w, id, status, fault); Inv(w') && Grows(w.rows, w'.rows)
  {
    GrowKeeps(w, SetStatus(w, id, status, fault));
  }

  lemma PublishingKeeps(w: World, d: Delivery, pc: Pc, c: Choice)
    requires Inv(w) && DeliveryFits(w.rows, d, pc) && (pc.AtRetry? || pc.AtDlq?)
    ensures var (w', pc') := Effect(w, d, pc, c); Inv(w') && DeliveryFits(w'.rows, d, pc') && w'.rows == w.rows
  {
    hide Effect, RetryOf, DlqOf, Inv, Route;
    if pc.AtRetry? {
      RetryIs(w, d, pc, c);
      RetryKeeps(w, d, c.fault);
    } else {
      DlqIs(w, d, pc, c);
      DlqKeeps(w, d, c.fault);
    }
  }

  lemma EnterKeeps(w: World, d: Delivery, c: Choice)
    requires Inv(w) && DeliveryFits(w.rows, d, Enter)
    ensures var (w', pc') := Effect(w, d, Enter, c); Inv(w') && DeliveryFits(w'.rows, d, pc') && w'.rows == w.rows
  {
    assert Effect(w, d, Enter, c).0 in {w, Mark(w, d.body.msg.id, c.fault)};
  }

  lemma UpdateKeeps(w: World, d: Delivery, pc: Pc, c: Choice)
    requires Inv(w) && DeliveryFits(w.rows, d, pc) && (pc.AtDelivered? || pc.AtFailed?)
    ensures var (w', pc') := Effect(w, d, pc, c); Inv(w') && DeliveryFits(w'.rows, d, pc') && Grows(w.rows, w'.rows)
  {
    var id, status := d.body.msg.id, if pc.AtDelivered? then Status.Delivered else Failed;
    assert Effect(w, d, pc, c).0 == SetStatus(w, id, status, c.fault);
    StatusKeeps(w, id, status, c.fault);
    StoredGrows(w.rows, SetStatus(w, id, status, c.fault).rows, d.body);
  }

  lemma BookKeeps(w: World, d: Delivery, pc: Pc, c: Choice)
    requires Inv(w) && DeliveryFits(w.rows, d, pc)
    requires pc.AtUnmark? || pc.AtLogSuccess? || pc.AtLogRetry? || pc.AtLogDlq? || pc.Done?
    ensures var (w', pc') := Effect(w, d, pc, c); Inv(w') && DeliveryFits(w'.rows, d, pc') && w'.rows == w.rows
  {
    var w' := Effect(w, d, pc, c).0;
    assert w'.entries == w.entries && w'.rows == w.rows;
    assert w'.hist == w.hist || w'.hist == w.hist + [Unmarked(d.body.msg.id)];
  }

  lemma EffectKeeps(w: World, d: Delivery, pc: Pc, c: Choice)
    requires Inv(w) && DeliveryFits(w.rows, d, pc)
    ensures var (w', pc') := Effect(w, d, pc, c); Inv(w') && DeliveryFits(w'.rows, d, pc') && Grows(w.rows, w'.rows)
  {
    match pc
    case Enter => EnterKeeps(w, d, c);
    case AtSend => SendKeeps(w, d, c);
    case AtRetry(_) => PublishingKeeps(w, d, pc, c);
    case AtDlq => PublishingKeeps(w, d, pc, c);
    case AtDelivered => UpdateKeeps(w, d, pc, c);
    case AtFailed => UpdateKeeps(w, d, pc, c);
    case _ => BookKeeps(w, d, pc, c);
  }

  lemma {:induction false} RunKeeps(w: World, d: Delivery, pc: Pc, env: Env)
    requires Inv(w) && DeliveryFits(w.rows, d, pc)
    ensures Inv(RunFrom(w, d, pc, env).0)
    decreases Rank(pc)
  {
    if !pc.Done? {
      var c := ChoiceAt(env, pc);
      EffectProgress(w, d, pc, c);
      EffectKeeps(w, d, pc, c);
      var (w', pc') := Effect(w, d, pc, c);
      RunKeeps(w', d, pc', env);
    }
  }

  // ---------------------------------------------------------------- every step

  lemma DropKeeps(w: World, i: nat, exit: Exit)
    requires Inv(w) && i < |w.entries|
    ensures Inv(Drop(w, i, exit))
  {
    hide Placed, RowOk;
    var w' := Drop(w, i, exit);
    forall k | 0 <= k < |w'.entries| ensures Placed(w'.rows, w'.entries[k]) {
      assert w'.entries[k] == w.entries[if k < i then k else k + 1];
    }
  }

  lemma GoneKeeps(w: World, i: nat)
    requires Inv(w) && i < |w.entries|
    ensures Inv(HandlerGone(w, i))
  {
    hide Placed, RowOk;
    var w' := HandlerGone(w, i);
    forall k | 0 <= k < |w'.entries| ensures Placed(w'.rows, w'.entries[k]) {
      assert w'.entries[k] == w.entries[if k < i then k else k + 1];
    }
  }

  lemma DetachedKeeps(w: World, i: nat)
    requires Inv(w) && i < |w.entries| && w.entries[i].handling.Running?
    ensures Inv(Detached(w, i))
  {
    hide RowOk, StoredBody;
    assert Placed(w.rows, w.entries[i]);
    var w' := Detached(w, i);
    forall k | 0 <= k < |w'.entries| ensures Placed(w'.rows, w'.entries[k]) {
      assert k < |w.entries| && k != i ==> w'.entries[k] == w.entries[k];
    }
  }

  lemma HandlingKeeps(w: World, i: nat, h: Handling)
    requires Inv(w) && i < |w.entries|
    requires h.Running? ==> w.entries[i].place.Main? && PcFits(h.pc, AttemptOf(w.entries[i].msg))
    ensures Inv(SetHandling(w, i, h))
  {
    assert Placed(w.rows, w.entries[i]);
  }

  lemma PerformKeeps(w: World, i: nat, c: Choice)
    requires Inv(w) && Enabled(w, Perform(i, c))
    ensures Inv(Next(w, Perform(i, c)))
  {
    var e := w.entries[i];
    assert Placed(w.rows, e);
    var d := DeliveryOf(e.msg);
    EffectKeeps(w, d, e.handling.pc, c);
    EffectAppends(w, d, e.handling.pc, c);
    var (w', pc') := Effect(w, d, e.handling.pc, c);
    HandlingKeeps(w', i, Running(pc', w.entries[i].handling.attached));
  }

  lemma DeliverKeeps(w: World, i: nat, env: Env)
    requires Inv(w) && Enabled(w, Deliver(i, env))
    ensures Inv(Next(w, Deliver(i, env)))
  {
    assert Placed(w.rows, w.entries[i]);
    var d := DeliveryOf(w.entries[i].msg);
    RunKeeps(w, d, Enter, env);
    RunIsHandle(w, d, env);
    HandleAppends(w, d, env);
    var (w', exit) := HandleSpec(w, d, env);
    DropKeeps(w', i, exit);
  }

  lemma ExpireKeeps(w: World, i: nat)
    requires Inv(w) && Enabled(w, Expire(i))
    ensures Inv(Next(w, Expire(i)))
    ensures var e := w.entries[i]; var lane := LaneOf(e.msg.body.msg);
            && Next(w, Expire(i)).entries
               == Remove(w.entries, i) + [Entry(Main(lane), e.msg.(key := LaneKey(lane)), w.now, Ready)]
            && Next(w, Expire(i)).hist == w.hist
  {
    hide Route, Reaches;
    var e := w.entries[i];
    assert Placed(w.rows, e);
    var lane := LaneOf(e.msg.body.msg);
    LaneRoutes(lane, 1);
    DropKeeps(w, i, Moved);
    var dropped := Drop(w, i, Moved);
    assert dropped == w.(entries := Remove(w.entries, i));
    PublishKeeps(dropped, Notifications, e.msg.(key := LaneKey(lane)), NoFault, Main(lane));
  }

  lemma RepublishKeeps(w: World, i: nat, fault: Fault)
    requires Inv(w) && i < |w.entries| && w.entries[i].place.Dead?
    ensures Inv(Republished(w, w.entries[i], fault))
    ensures var m := w.entries[i].msg.body.msg; var lane := LaneOf(m);
            && Republished(w, w.entries[i], fault)
               == w.(entries := w.entries + if fault.Applied()

                            then [Entry(Main(lane), ReplayMessage(w.entries[i].msg, m.channel), w.now, Ready)] else [],
                     hist := w.hist + if fault.Applied() then [Replayed(m.id)] else [])
            && AttemptOf(ReplayMessage(w.entries[i].msg, m.channel)) == 0
  {
    hide Route, Reaches;
    var e := w.entries[i];
    assert Placed(w.rows, e);
    var lane := LaneOf(e.msg.body.msg);
    KeyOfLane(lane);
    LaneRoutes(lane, 1);
    var m := ReplayMessage(e.msg, e.place.channel);
    var logged := w.(hist := w.hist + if fault.Applied() then [Replayed(e.msg.body.msg.id)] else []);
    PublishKeeps(logged, Notifications, m, fault, Main(lane));
  }

  lemma PublishRowKeeps(w: World, id: Uuid, fault: Fault)
    requires Inv(w) && id in w.rows
    ensures Inv(PublishStored(w, w.rows[id], fault))
    ensures var n := w.rows[id]; var lane := Lane(n.channel, n.priority);
            PublishStored(w, n, fault)
            == w.(entries := w.entries
                            + if fault.Applied() then [Entry(Main(lane), FirstMessage(n), w.now, Ready)] else [],
                  hist := w.hist + [Handed(id)] + if fault.Applied() then [Born(id)] else [])
  {
    hide Route, Reaches;
    var n := w.rows[id];
    assert RowOk(w.rows, id);
    var lane := Lane(n.channel, n.priority);
    KeyOfLane(lane);
    LaneRoutes(lane, 1);
    var handed := w.(hist := w.hist + [Handed(id)] + if fault.Applied() then [Born(id)] else []);
    PublishKeeps(handed, Notifications, FirstMessage(n), fault, Main(lane));
  }

  lemma {:induction false} AddRowsGrows(rows: map<Uuid, Notification>, ns: seq<Notification>)
    requires forall k :: 0 <= k < |ns| ==> ns[k].id !in rows && ValidLane(Lane(ns[k].channel, ns[k].priority))
    ensures forall id :: id in rows ==> AddRows(rows, ns)[id] == rows[id]
    ensures forall id :: id in AddRows(rows, ns) && id !in rows ==> RowOk(AddRows(rows, ns), id)
  {
    if ns != [] {
      AddRowsGrows(rows, ns[..|ns| - 1]);
    }
  }

  lemma StepKeeps(w: World, s: Step)
    requires Inv(w) && Enabled(w, s)
    ensures Inv(Next(w, s))
  {
    match s
    case Insert(n) => GrowKeeps(w, Next(w, s));
    case InsertBatch(_, ns) => AddRowsGrows(w.rows, ns); GrowKeeps(w, Next(w, s));
    case PublishRow(id, fault) => PublishRowKeeps(w, id, fault);
    case Pick(i) => HandlingKeeps(w, i, Running(Enter));
    case Perform(i, c) => PerformKeeps(w, i, c);
    case Settle(i) =>
      DropKeeps(w, i, w.entries[i].handling.pc.exit);
      GoneKeeps(w, i);
    case Crash(i) =>
      HandlingKeeps(w, i, Ready);
      GoneKeeps(w, i);
    case Redeliver(i) => DetachedKeeps(w, i);
    case Deliver(i, env) => DeliverKeeps(w, i, env);
    case Expire(i) => ExpireKeeps(w, i);
    case Cancel(id) =>
      if id in w.rows && w.rows[id].status.Pending? {
        var logged := w.(hist := w.hist + [CancelledRow(id)]);
        GrowKeeps(logged, Next(w, s));
      }
    case Replay(i, fault) =>
      RepublishKeeps(w, i, fault);
      DropKeeps(Republished(w, w.entries[i], fault), i, ReplayExit(fault));
    case ReplayCrash(i) => RepublishKeeps(w, i, NoFault);
    case Tick(_) =>
  }

  /** Lane and payload preservation, and routability, in every reachable state of every run. */
  lemma {:induction false} EveryRunPlaced(ttls: RetryTTLs, ws: seq<World>, steps: seq<Step>, k: nat)
    requires IsRun(ttls, ws, steps) && k < |ws|
    ensures Inv(ws[k])
  {
    if k > 0 {
      EveryRunPlaced(ttls, ws, steps, k - 1);
      StepKeeps(ws[k - 1], steps[k - 1]);
    }
  }
}
