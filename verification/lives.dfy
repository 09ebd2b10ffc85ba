/** Redelivery-free runs: conservation, the send budget, retry spacing, and `delivered` as an absorbing status. */
module Lives {
  import opened Domain
  import opened Topology
  import opened Routing
  import opened World
  import opened Handle
  import opened Protocol
  import opened Placement
  import opened Cycles

  /** The table part of a world. */
  datatype Tables = Tables(rows: map<Uuid, Notification>, processed: set<Uuid>, log: seq<Attempt>,
                           batches: map<Uuid, nat>)

  function TablesOf(w: World): Tables { Tables(w.rows, w.processed, w.log, w.batches) }

  function Logged(t: Tables, a: Attempt, fault: Fault): Tables {
    if fault.Applied() && a.id in t.rows then t.(log := t.log + [a]) else t
  }

  /** What one delivery does to the tables. */
  function TablesAfter(w: World, d: Delivery, m: NotificationMessage, env: Env): Tables {
    var t := TablesOf(w).(
      processed := if d.attempt == 0 && env.mark.Applied() then w.processed + {m.id} else w.processed);
    if !CallsProvider(w, d, m, env) then t
    else if env.send.Accepted? then
      var t' := if env.delivered.Applied() then t.(rows := SetRow(t.rows, m.id, Delivered)) else t;
      if env.delivered.Reported() || m.id !in w.rows then t'
      else Logged(t', Attempt(m.id, d.attempt, Success), env.record)
    else if env.ctxDone then t
    else if d.attempt <= 2 then
      var status := if env.send.CircuitOpen? then CircuitOpened else Retrying;
      if env.retry.Reported() then t else Logged(t, Attempt(m.id, d.attempt, status), env.record)
    else if env.dlq.Reported() then t
    else
      var t' := t.(rows := if env.failed.Applied() then SetRow(t.rows, m.id, Failed) else t.rows,
                   processed := if env.unmark.Applied() then t.processed - {m.id} else t.processed);
      Logged(t', Attempt(m.id, d.attempt, DeadLettered), env.record)
  }

  lemma RetryTables(w: World, d: Delivery, m: NotificationMessage, env: Env)
    ensures var status := if env.send.CircuitOpen? then CircuitOpened else Retrying;
            TablesOf(HandleRetry(w, d, m, env).0)
            == if env.retry.Reported() then TablesOf(w)
               else Logged(TablesOf(w), Attempt(m.id, d.attempt, status), env.record)
  {
    hide RetryOf, Arrivals, RouteEvents;
  }

  lemma ExhaustedTables(w: World, d: Delivery, m: NotificationMessage, env: Env)
    ensures TablesOf(HandleExhausted(w, d, m, env).0)
            == if env.dlq.Reported() then TablesOf(w)
               else Logged(TablesOf(w).(rows := if env.failed.Applied() then SetRow(w.rows, m.id, Failed) else w.rows,
                                        processed := if env.unmark.Applied() then w.processed - {m.id}
                                            else w.processed),
                           Attempt(m.id, d.attempt, DeadLettered), env.record)
  {
    hide DlqOf, Arrivals, RouteEvents;
    var published := Publish(w, Dlq, DlqOf(d, m), env.dlq);
    var failed := SetStatus(published, m.id, Failed, env.failed);
    assert env.unmark.Applied() ==> Unmark(failed, m.id, env.unmark).processed == w.processed - {m.id};
  }

  lemma HandleTables(w: World, d: Delivery, env: Env)
    requires d.body.Encoded?
    ensures TablesOf(HandleSpec(w, d, env).0) == TablesAfter(w, d, d.body.msg, env)
  {
    hide HandleRetry, HandleExhausted;
    var m := d.body.msg;
    if CallsProvider(w, d, m, env) {
      var marked := if d.attempt == 0 then Mark(w, m.id, NoFault) else w;
      var sent := Send(marked, m, d.attempt, env.send);
      RetryTables(sent, d, m, env);
      ExhaustedTables(sent, d, m, env);
    } else {
      assert d.attempt == 0 && m.id in w.processed ==> w.processed + {m.id} == w.processed;
    }
  }

  lemma DeliverTables(w: World, i: nat, env: Env)
    requires Inv(w) && Enabled(w, Deliver(i, env))
    ensures TablesOf(Next(w, Deliver(i, env)))
            == TablesAfter(w, DeliveryOf(w.entries[i].msg), w.entries[i].msg.body.msg, env)
  {
    hide HandleSpec, TablesAfter, Inv;
    DeliveredFits(w, i);
    HandleAppends(w, DeliveryOf(w.entries[i].msg), env);
    HandleTables(w, DeliveryOf(w.entries[i].msg), env);
  }

  // ---------------------------------------------------------------- conservation and budget

  /** Of each notification at most one copy is live; every copy born has left the live set in exactly one of three
      ways or is still live; and the provider is called at most four times per cycle. */
  lemma Conservation(ttls: RetryTTLs, ws: seq<World>, steps: seq<Step>, k: nat, id: Uuid)
    requires CalmRun(ttls, ws, steps) && k < |ws|
    ensures var w, h := ws[k], multiset(ws[k].hist);
            && h[Born(id)]
               == Live(w.entries, id) + h[Left(id, Completed)] + h[Left(id, Duplicate)] + h[Left(id, Discarded)]
            && h[Born(id)] <= 1 && Live(w.entries, id) <= 1
            && |SendsOf(w.hist, id)| <= 4 * (1 + h[Replayed(id)])
  {
    hide Next, Enabled, Inv, Live, SendsOf, Chain, Spot;
    RunCalm(ttls, ws, steps, k);
    assert Cyclic(ws[k], id);
  }

  // ---------------------------------------------------------------- spacing

  /** The time the retry levels 1..a hold a message, in milliseconds. */
  function HoldTime(ttls: RetryTTLs, a: nat): int { if a == 0 then 0 else HoldTime(ttls, a - 1) + Ttl(ttls, a) }

  lemma {:induction false} ChainSpacing(ttls: RetryTTLs, sends: seq<Event>, k: nat, a: nat)
    requires Chain(ttls, sends) && k < |sends| && a == k % 4
    ensures sends[k].Sent? && sends[k - a].Sent? && sends[k].attempt == a && sends[k - a].attempt == 0
    ensures sends[k].at >= sends[k - a].at + HoldTime(ttls, a)
    decreases a
  {
    assert ChainAt(ttls, sends, k);
    if a > 0 {
      ChainSpacing(ttls, sends, k - 1, a - 1);
    }
  }

  /** Call number k of a notification is attempt k mod 4 of its cycle, and comes no earlier after the cycle's attempt 0
      than the TTLs of the levels in between. */
  lemma RetrySpacing(ttls: RetryTTLs, ws: seq<World>, steps: seq<Step>, n: nat, id: Uuid, k: nat)
    requires CalmRun(ttls, ws, steps) && n < |ws| && k < |SendsOf(ws[n].hist, id)|
    ensures var sends := SendsOf(ws[n].hist, id);
            && sends[k].attempt == k % 4
            && sends[k].at >= sends[k - k % 4].at + HoldTime(ttls, k % 4)
            && (k + 1 < |sends| ==> !sends[k].outcome.Accepted?)
  {
    hide Next, Enabled, Inv, Live, SendsOf, Spot;
    RunCalm(ttls, ws, steps, n);
    RunTtls(ttls, ws, steps, n);
    assert Cyclic(ws[n], id);
    var sends := SendsOf(ws[n].hist, id);
    ChainSpacing(ttls, sends, k, k % 4);
    assert ChainAt(ttls, sends, k);
  }

  lemma {:induction false} RunTtls(ttls: RetryTTLs, ws: seq<World>, steps: seq<Step>, k: nat)
    requires CalmRun(ttls, ws, steps) && k < |ws|
    ensures ws[k].ttls == ttls
  {
    hide Next, Enabled, Calm, Uninterrupted;
    if k > 0 {
      RunTtls(ttls, ws, steps, k - 1);
      RunCalm(ttls, ws, steps, k - 1);
      TtlsKept(ws[k - 1], steps[k - 1]);
    }
  }

  lemma TtlsKept(w: World, s: Step)
    requires Calm(w) && Enabled(w, s) && Uninterrupted(s)
    ensures Next(w, s).ttls == w.ttls
  {
    hide Inv, Cyclic, HandleSpec, Handled;
    if s.Deliver? {
      DeliverView(w, s.i, s.env, 0);
    }
  }

  /** With the production TTLs the last of four attempts comes at least 12 minutes 30 seconds after the first. */
  lemma ProductionSpacing()
    ensures HoldTime(PRODUCTION_TTLS, 1) == 30_000
    ensures HoldTime(PRODUCTION_TTLS, 2) == 150_000
    ensures HoldTime(PRODUCTION_TTLS, 3) == 750_000
  {
    assert HoldTime(PRODUCTION_TTLS, 1) == Ttl(PRODUCTION_TTLS, 1);
    assert HoldTime(PRODUCTION_TTLS, 2) == HoldTime(PRODUCTION_TTLS, 1) + Ttl(PRODUCTION_TTLS, 2);
  }

  // ---------------------------------------------------------------- delivered is absorbing

  /** A row is `delivered` only if the provider accepted the last call made for it. */
  ghost predicate DeliveredMeansSent(w: World, id: Uuid) {
    id in w.rows && w.rows[id].status.Delivered? ==> !Undelivered(ViewOf(w, id).sends)
  }

  /** Once the provider has accepted a notification, no copy of it is left. */
  lemma NothingLeft(w: World, id: Uuid, i: nat)
    requires Calm(w) && i < |w.entries| && !Undelivered(ViewOf(w, id).sends)
    ensures !w.entries[i].Has(id)
  {
    hide ViewOf, Inv, Chain, Live;
    assert Cyclic(w, id);
    assert w.entries[i].Has(id) ==> Spot(w, w.entries[i], ViewOf(w, id));
  }

  /** A delivery changes only its own row; it makes it `delivered` only after an accepted call. */
  lemma DeliveredRow(w: World, d: Delivery, m: NotificationMessage, env: Env, id: Uuid)
    ensures var rows := TablesAfter(w, d, m, env).rows;
            && rows.Keys == w.rows.Keys
            && (id in w.rows && id != m.id ==> rows[id] == w.rows[id])
            && (id in w.rows && rows[id].status.Delivered? && !w.rows[id].status.Delivered? ==>
                  id == m.id && CallsProvider(w, d, m, env) && env.send.Accepted?)
  {
  }

  lemma DeliverAbsorbs(w: World, i: nat, env: Env, id: Uuid)
    requires Calm(w) && Enabled(w, Deliver(i, env)) && DeliveredMeansSent(w, id)
    ensures DeliveredMeansSent(Next(w, Deliver(i, env)), id)
    ensures id in w.rows && w.rows[id].status.Delivered? ==>
              id in Next(w, Deliver(i, env)).rows && Next(w, Deliver(i, env)).rows[id].status.Delivered?
  {
    hide ViewOf, Inv, Cyclic, Handled, Successors, TablesAfter;
    DeliveredFits(w, i);
    DeliverView(w, i, env, id);
    DeliverTables(w, i, env);
    DeliveredRow(w, DeliveryOf(w.entries[i].msg), w.entries[i].msg.body.msg, env, id);
    if !Undelivered(ViewOf(w, id).sends) {
      NothingLeft(w, id, i);
    }
  }

  lemma StepAbsorbs(w: World, s: Step, id: Uuid)
    requires Calm(w) && Enabled(w, s) && Uninterrupted(s) && DeliveredMeansSent(w, id)
    ensures DeliveredMeansSent(Next(w, s), id)
    ensures id in w.rows && w.rows[id].status.Delivered? ==>
              id in Next(w, s).rows && Next(w, s).rows[id].status.Delivered?
  {
    hide ViewOf, Inv, Cyclic, PublishStored, Handled, Expired, Republished, Drop;
    match s
    case PublishRow(row, fault) => PublishRowView(w, row, fault, id);
    case Deliver(i, env) => DeliverAbsorbs(w, i, env, id);
    case Expire(i) => ExpireKeeps(w, i); ExpireTables(w, i); SameView(w, Next(w, s), id);
    case Cancel(row) => CancelAbsorbs(w, row, id);
    case Replay(i, fault) => DeadEncoded(w, i); ReplayView(w, i, fault, id);
    case Insert(_) => SameView(w, Next(w, s), id);
    case InsertBatch(_, ns) => SameView(w, Next(w, s), id); AddedPending(w.rows, ns);
    case Tick(_) => SameView(w, Next(w, s), id);
    case _ =>
  }

  lemma ExpireTables(w: World, i: nat)
    requires Enabled(w, Expire(i))
    ensures TablesOf(Next(w, Expire(i))) == TablesOf(w)
  {
    hide ArgsOf, Arrivals, RouteEvents;
  }

  lemma CancelAbsorbs(w: World, row: Uuid, id: Uuid)
    requires DeliveredMeansSent(w, id)
    ensures DeliveredMeansSent(CancelIfPending(w, row), id)
    ensures id in w.rows && w.rows[id].status.Delivered? ==>
              CancelIfPending(w, row).rows[id].status.Delivered?
  {
    hide ViewOf;
    if CancelIfPending(w, row) != w {
      EventView(w, CancelIfPending(w, row), CancelledRow(row), id);
    }
  }

  lemma {:induction false} AddedPending(rows: map<Uuid, Notification>, ns: seq<Notification>)
    requires forall k :: 0 <= k < |ns| ==> ns[k].id !in rows && ns[k].status.Pending?
    ensures forall id :: id in rows ==> AddRows(rows, ns)[id] == rows[id]
    ensures forall id :: id in AddRows(rows, ns) && id !in rows ==> AddRows(rows, ns)[id].status.Pending?
  {
    if ns != [] {
      AddedPending(rows, ns[..|ns| - 1]);
    }
  }

  /** In redelivery-free runs a delivered notification stays delivered, whatever fails, is cancelled or replayed. */
  lemma {:induction false} DeliveredIsAbsorbing(ttls: RetryTTLs, ws: seq<World>, steps: seq<Step>, j: nat, k: nat,
                                                id: Uuid)
    requires CalmRun(ttls, ws, steps) && j <= k < |ws|
    ensures DeliveredMeansSent(ws[k], id)
    ensures id in ws[j].rows && ws[j].rows[id].status.Delivered? ==>
            id in ws[k].rows && ws[k].rows[id].status.Delivered?
    decreases k
  {
    hide Next, Enabled, Calm, ViewOf, Uninterrupted, Undelivered;
    if k > 0 {
      DeliveredIsAbsorbing(ttls, ws, steps, if j == k then k - 1 else j, k - 1, id);
      RunCalm(ttls, ws, steps, k - 1);
      StepAbsorbs(ws[k - 1], steps[k - 1], id);
    }
  }
}
