/** What the notifications table keeps over every run: status history, cancellation, and batch totals. */
module Rows {
  import opened Domain
  import opened World
  import opened Handle
  import opened Protocol

  /** Rows keep their batch; a row that left `pending` does not come back to it. */
  ghost predicate Moves(rows: map<Uuid, Notification>, rows': map<Uuid, Notification>) {
    forall id :: id in rows ==>
      id in rows' && rows'[id].batchId == rows[id].batchId && (rows'[id].status.Pending? ==> rows[id].status.Pending?)
  }

  function Cancels(w: World, id: Uuid): nat { multiset(w.hist)[CancelledRow(id)] }

  /** A change that adds no row, no batch and no cancellation. */
  ghost predicate Quiet(w: World, w': World) {
    && Moves(w.rows, w'.rows) && w'.rows.Keys == w.rows.Keys && w'.batches == w.batches
    && forall id :: Cancels(w', id) == Cancels(w, id)
  }

  lemma HistoryQuiet(w: World, w': World, more: seq<Event>)
    requires w'.rows == w.rows && w'.batches == w.batches && w'.hist == w.hist + more
    requires forall ev :: ev in more ==> !ev.CancelledRow?
    ensures Quiet(w, w')
  {
    forall id ensures Cancels(w', id) == Cancels(w, id) {
      assert CancelledRow(id) !in more;
    }
  }

  lemma StatusQuiet(w: World, id: Uuid, status: Status, fault: Fault)
    requires !status.Pending?
    ensures Quiet(w, SetStatus(w, id, status, fault))
  {
  }

  lemma PublishQuiet(w: World, exchange: Topology.Exchange, m: Message, fault: Fault)
    ensures Quiet(w, Publish(w, exchange, m, fault))
  {
    hide Arrivals;
    HistoryQuiet(w, Publish(w, exchange, m, fault), RouteEvents(exchange, m.key, fault));
  }

  lemma EffectQuiet(w: World, d: Delivery, pc: Pc, c: Choice)
    ensures Quiet(w, Effect(w, d, pc, c).0)
  {
    hide Quiet, PoisonOf, RetryOf, DlqOf, Publish, SetStatus;
    var w' := Effect(w, d, pc, c).0;
    if d.body.Poison? {
      PublishQuiet(w, Topology.Dlq, PoisonOf(d), c.fault);
      HistoryQuiet(w, w, []);
    } else {
      var m := d.body.msg;
      match pc
      case AtRetry(_) => PublishQuiet(w, Topology.Retry, RetryOf(d, m), c.fault);
      case AtDlq => PublishQuiet(w, Topology.Dlq, DlqOf(d, m), c.fault);
      case AtDelivered => StatusQuiet(w, m.id, Delivered, c.fault);
      case AtFailed => StatusQuiet(w, m.id, Failed, c.fault);
      case AtSend => HistoryQuiet(w, w', [Sent(ToNotification(m), d.attempt, c.outcome, w.now)]);
      case Enter => HistoryQuiet(w, w, []);
        HistoryQuiet(w, Mark(w, m.id, c.fault), Mark(w, m.id, c.fault).hist[|w.hist|..]);
      case AtUnmark => HistoryQuiet(w, w', w'.hist[|w.hist|..]);
      case _ => HistoryQuiet(w, w', []);
    }
  }

  lemma {:induction false} PerformFromQuiet(w: World, i: nat, env: Env)
    requires i < |w.entries| && w.entries[i].handling.Running? && w.entries[i].handling.attached
    ensures Quiet(w, PerformFrom(w, i, env))
    decreases Rank(w.entries[i].handling.pc)
  {
    hide Effect;
    var e := w.entries[i];
    var pc := e.handling.pc;
    if pc.Done? {
      HistoryQuiet(w, Drop(w, i, pc.exit), LeftEvents(e.msg.body, pc.exit));
    } else {
      var c := ChoiceAt(env, pc);
      EffectProgress(w, DeliveryOf(e.msg), pc, c);
      EffectAppends(w, DeliveryOf(e.msg), pc, c);
      EffectQuiet(w, DeliveryOf(e.msg), pc, c);
      PerformFromQuiet(Next(w, Perform(i, c)), i, env);
    }
  }

  lemma RepublishQuiet(w: World, e: Entry, fault: Fault)
    requires e.place.Dead?
    ensures Quiet(w, Republished(w, e, fault))
  {
    hide ReplayMessage, Publish;
    var m := ReplayMessage(e.msg, e.place.channel);
    var back := fault.Applied() && e.msg.body.Encoded? && Routing.Route(Topology.Notifications, m.key).Some?;
    var replayed := if back then [Replayed(e.msg.body.msg.id)] else [];
    var logged := w.(hist := w.hist + replayed);
    HistoryQuiet(w, logged, replayed);
    PublishQuiet(logged, Topology.Notifications, m, fault);
  }

  lemma PublishRowQuiet(w: World, n: Notification, fault: Fault)
    ensures Quiet(w, PublishStored(w, n, fault))
  {
    hide FirstMessage, Publish, Keys.RoutingKey;
    var routed := fault.Applied()
        && Routing.Route(Topology.Notifications, Keys.RoutingKey(n.channel, n.priority)).Some?;
    var more := [Handed(n.id)] + if routed then [Born(n.id)] else [];
    var handed := w.(hist := w.hist + [Handed(n.id)] + if routed then [Born(n.id)] else []);
    HistoryQuiet(w, handed, more);
    PublishQuiet(handed, Topology.Notifications, FirstMessage(n), fault);
  }

  lemma ExpireQuiet(w: World, i: nat)
    requires i < |w.entries| && w.entries[i].place.Hold?
    ensures Quiet(w, Expired(w, i))
  {
    hide Publish;
    var e, args := w.entries[i], Routing.ArgsOf(w.entries[i].place, w.ttls);
    PublishQuiet(w.(entries := Remove(w.entries, i)), args.deadLetterExchange, e.msg.(key := args.deadLetterKey),
        NoFault);
  }

  /** Every step but the two inserts and cancel is quiet. */
  lemma StepQuiet(w: World, s: Step)
    requires Enabled(w, s) && !s.Insert? && !s.InsertBatch? && !s.Cancel?
    ensures Quiet(w, Next(w, s))
  {
    hide Quiet, PublishStored, Effect, Handled, Expired, Republished;
    var w' := Next(w, s);
    match s
    case PublishRow(id, fault) => PublishRowQuiet(w, w.rows[id], fault);
    case Perform(i, c) => PerformQuiet(w, i, c);
    case Settle(i) => SettleQuiet(w, i);
    case Deliver(i, env) => DeliverQuiet(w, i, env);
    case Expire(i) => ExpireQuiet(w, i);
    case Replay(i, fault) => ReplayQuiet(w, i, fault);
    case ReplayCrash(i) => RepublishQuiet(w, w.entries[i], NoFault);
    case _ => HistoryQuiet(w, w', []);
  }

  lemma SettleQuiet(w: World, i: nat)
    requires Enabled(w, Settle(i))
    ensures Quiet(w, Next(w, Settle(i)))
  {
    hide Quiet;
    var h := w.entries[i].handling;
    HistoryQuiet(w, Next(w, Settle(i)), if h.attached then LeftEvents(w.entries[i].msg.body, h.pc.exit) else []);
  }

  lemma PerformQuiet(w: World, i: nat, c: Choice)
    requires Enabled(w, Perform(i, c))
    ensures Quiet(w, Next(w, Perform(i, c)))
  {
    hide Effect;
    var e := w.entries[i];
    EffectAppends(w, DeliveryOf(e.msg), e.handling.pc, c);
    EffectQuiet(w, DeliveryOf(e.msg), e.handling.pc, c);
  }

  lemma ReplayQuiet(w: World, i: nat, fault: Fault)
    requires Enabled(w, Replay(i, fault))
    ensures Quiet(w, Next(w, Replay(i, fault)))
  {
    hide Publish, ReplayMessage;
    RepublishQuiet(w, w.entries[i], fault);
    RepublishAppends(w, i, fault);
    var w1 := Republished(w, w.entries[i], fault);
    HistoryQuiet(w1, Drop(w1, i, ReplayExit(fault)), LeftEvents(w1.entries[i].msg.body, ReplayExit(fault)));
  }

  lemma DeliverQuiet(w: World, i: nat, env: Env)
    requires Enabled(w, Deliver(i, env))
    ensures Quiet(w, Next(w, Deliver(i, env)))
  {
    hide PerformFrom, Handled;
    UninterruptedIsDeliver(w, i, env);
    PerformFromQuiet(Next(w, Pick(i)), i, env);
  }

  // ---------------------------------------------------------------- status history

  /** Cancellation happened at most once, and not to a row that is still pending or not there. */
  ghost predicate CancelledOnce(w: World, id: Uuid) {
    && Cancels(w, id) + (if id in w.rows && w.rows[id].status.Pending? then 1 else 0) <= 1
    && (id !in w.rows ==> Cancels(w, id) == 0)
  }

  lemma StepStatus(w: World, s: Step, id: Uuid)
    requires Enabled(w, s) && CancelledOnce(w, id)
    ensures CancelledOnce(Next(w, s), id) && Moves(w.rows, Next(w, s).rows)
    ensures Cancels(w, id) <= Cancels(Next(w, s), id)
    ensures Cancels(Next(w, s), id) > Cancels(w, id) ==>
              s == Cancel(id) && id in w.rows && w.rows[id].status.Pending? && Next(w, s).rows[id].status.Cancelled?
  {
    hide PublishStored, Effect, Handled, Expired, Republished, Performed, Drop;
    match s
    case Insert(n) =>
    case InsertBatch(batch, ns) => Added(w.rows, ns);
    case Cancel(row) =>
    case _ => StepQuiet(w, s);
  }

  lemma {:induction false} Added(rows: map<Uuid, Notification>, ns: seq<Notification>)
    requires forall k :: 0 <= k < |ns| ==> ns[k].id !in rows
    ensures forall id :: id in rows ==> AddRows(rows, ns)[id] == rows[id]
    ensures forall id :: id in AddRows(rows, ns) && id !in rows ==>
              exists k :: 0 <= k < |ns| && ns[k].id == id && AddRows(rows, ns)[id] == ns[k]
  {
    if ns != [] {
      Added(rows, ns[..|ns| - 1]);
    }
  }

  /** No run re-enters `pending`, and no run cancels a notification twice. */
  lemma {:induction false} StatusHistory(ttls: Topology.RetryTTLs, ws: seq<World>, steps: seq<Step>, j: nat, k: nat,
                                         id: Uuid)
    requires IsRun(ttls, ws, steps) && j <= k < |ws|
    ensures CancelledOnce(ws[k], id) && Cancels(ws[k], id) <= 1
    ensures id in ws[j].rows && !ws[j].rows[id].status.Pending? ==> id in ws[k].rows && !ws[k].rows[id].status.Pending?
    decreases k
  {
    hide Next, Enabled;
    if k == 0 {
    } else if j == k {
      StatusHistory(ttls, ws, steps, k - 1, k - 1, id);
      StepStatus(ws[k - 1], steps[k - 1], id);
    } else {
      StatusHistory(ttls, ws, steps, j, k - 1, id);
      StepStatus(ws[k - 1], steps[k - 1], id);
    }
  }

  // ---------------------------------------------------------------- batch totals

  function Members(rows: map<Uuid, Notification>, batch: Uuid): set<Uuid> {
    set id | id in rows && rows[id].batchId == Some(batch)
  }

  function WithStatus(rows: map<Uuid, Notification>, batch: Uuid, status: Status): set<Uuid> {
    set id | id in Members(rows, batch) && rows[id].status == status
  }

  /** The total stored with a batch is the number of its rows. */
  ghost predicate BatchesCounted(w: World) {
    && (forall b :: b in w.batches ==> |Members(w.rows, b)| == w.batches[b])
    && (forall id :: id in w.rows && w.rows[id].batchId.Some? ==> w.rows[id].batchId.value in w.batches)
  }

  lemma OneMemberMore(rows: map<Uuid, Notification>, n: Notification, b: Uuid)
    requires n.id !in rows
    ensures |Members(rows[n.id := n], b)| == |Members(rows, b)| + if n.batchId == Some(b) then 1 else 0
  {
    assert Members(rows[n.id := n], b) == Members(rows, b) + if n.batchId == Some(b) then {n.id} else {};
  }

  lemma {:induction false} AddedMembers(rows: map<Uuid, Notification>, ns: seq<Notification>, batch: Uuid, b: Uuid)
    requires forall k :: 0 <= k < |ns| ==> ns[k].id !in rows && ns[k].batchId == Some(batch)
    requires forall j, k :: 0 <= j < k < |ns| ==> ns[j].id != ns[k].id
    ensures |Members(AddRows(rows, ns), b)| == |Members(rows, b)| + if b == batch then |ns| else 0
  {
    hide Members;
    if ns != [] {
      var init, last := ns[..|ns| - 1], ns[|ns| - 1];
      AddedMembers(rows, init, batch, b);
      assert last.id !in AddRows(rows, init);
      OneMemberMore(AddRows(rows, init), last, b);
    }
  }

  lemma QuietCounts(w: World, w': World)
    requires Quiet(w, w') && BatchesCounted(w)
    ensures BatchesCounted(w')
  {
    forall b ensures Members(w'.rows, b) == Members(w.rows, b) {}
  }

  lemma BatchInserted(w: World, batch: Uuid, ns: seq<Notification>)
    requires FreshBatch(w, batch, ns) && BatchesCounted(w)
    ensures BatchesCounted(Next(w, InsertBatch(batch, ns)))
  {
    var w' := w.(rows := AddRows(w.rows, ns), batches := w.batches[batch := |ns|]);
    Added(w.rows, ns);
    assert Members(w.rows, batch) == {};
    forall b | b in w'.batches ensures |Members(w'.rows, b)| == w'.batches[b] {
      AddedMembers(w.rows, ns, batch, b);
    }
  }

  lemma StepBatches(w: World, s: Step)
    requires Enabled(w, s) && BatchesCounted(w)
    ensures BatchesCounted(Next(w, s))
  {
    hide BatchesCounted, PublishStored, Effect, Handled, Expired, Republished, Performed, Drop;
    match s
    case Insert(n) => RowInserted(w, n);
    case InsertBatch(batch, ns) => BatchInserted(w, batch, ns);
    case Cancel(row) => RowCancelled(w, row);
    case _ =>
      StepQuiet(w, s);
      QuietCounts(w, Next(w, s));
  }

  lemma RowInserted(w: World, n: Notification)
    requires n.id !in w.rows && n.batchId.None? && BatchesCounted(w)
    ensures BatchesCounted(w.(rows := w.rows[n.id := n]))
  {
    forall b ensures Members(w.rows[n.id := n], b) == Members(w.rows, b) {}
  }

  lemma RowCancelled(w: World, id: Uuid)
    requires BatchesCounted(w)
    ensures BatchesCounted(CancelIfPending(w, id))
  {
    forall b ensures Members(CancelIfPending(w, id).rows, b) == Members(w.rows, b) {}
  }

  lemma StatusesPartition(rows: map<Uuid, Notification>, b: Uuid)
    ensures |Members(rows, b)| == |WithStatus(rows, b, Pending)| + |WithStatus(rows, b, Delivered)|
                                  + |WithStatus(rows, b, Failed)| + |WithStatus(rows, b, Cancelled)|
  {
    hide Members, WithStatus;
    var p, d := WithStatus(rows, b, Pending), WithStatus(rows, b, Delivered);
    var f, c := WithStatus(rows, b, Failed), WithStatus(rows, b, Cancelled);
    OneStatusEach(rows, b);
    DisjointSizes(p, d);
    DisjointSizes(p + d, f);
    DisjointSizes(p + d + f, c);
    assert Members(rows, b) == p + d + f + c;
  }

  lemma OneStatusEach(rows: map<Uuid, Notification>, b: Uuid)
    ensures forall id :: id in Members(rows, b) <==> exists s: Status :: id in WithStatus(rows, b, s)
    ensures forall s: Status, t: Status :: s != t ==> WithStatus(rows, b, s) !! WithStatus(rows, b, t)
  {
    forall id | id in Members(rows, b) ensures exists s: Status :: id in WithStatus(rows, b, s) {
      assert id in WithStatus(rows, b, rows[id].status);
    }
  }

  lemma DisjointSizes<T>(a: set<T>, b: set<T>)
    requires a !! b
    ensures |a + b| == |a| + |b|
  {
  }

  /** In every reachable state the four status counts of a batch add up to its stored total. */
  lemma {:induction false} BatchConservation(ttls: Topology.RetryTTLs, ws: seq<World>, steps: seq<Step>, k: nat)
    requires IsRun(ttls, ws, steps) && k < |ws|
    ensures BatchesCounted(ws[k])
    ensures forall b :: b in ws[k].batches ==>
              |WithStatus(ws[k].rows, b, Pending)| + |WithStatus(ws[k].rows, b, Delivered)|
              + |WithStatus(ws[k].rows, b, Failed)| + |WithStatus(ws[k].rows, b, Cancelled)| == ws[k].batches[b]
  {
    hide Next, Enabled;
    if k > 0 {
      BatchConservation(ttls, ws, steps, k - 1);
      StepBatches(ws[k - 1], steps[k - 1]);
    }
    forall b | b in ws[k].batches
      ensures |WithStatus(ws[k].rows, b, Pending)| + |WithStatus(ws[k].rows, b, Delivered)|
              + |WithStatus(ws[k].rows, b, Failed)| + |WithStatus(ws[k].rows, b, Cancelled)| == ws[k].batches[b]
    {
      StatusesPartition(ws[k].rows, b);
    }
  }
}
