/** Fault-free, redelivery-free runs: the whole protocol is a simple function of the provider's outcome stream. */
module Refinement {
  import opened Domain
  import opened Keys
  import opened Topology
  import opened Routing
  import opened World
  import opened Handle
  import opened Protocol
  import opened Placement
  import opened Cycles
  import opened Lives
  import opened Audit
  import Rows

  // ---------------------------------------------------------------- the specification

  /** What becomes of a notification. */
  datatype Fate =
    | Unborn
    | Trying(failures: nat)     // in its current cycle the provider has failed this often
    | Reached(calls: nat)       // delivered, with this many calls in the last cycle
    | GivenUp                   // in the dead-letter queue

  /** Reads the provider's answers one by one: a success ends it, four failures end a cycle, a replay opens another. */
  function FateOf(answers: seq<bool>, cycles: nat, failures: nat): Fate
    requires failures <= 4
    decreases cycles, |answers|, 4 - failures
  {
    if cycles == 0 then Unborn
    else if failures == 4 then if cycles == 1 then GivenUp else FateOf(answers, cycles - 1, 0)
    else if answers == [] then Trying(failures)
    else if answers[0] then Reached(failures + 1)
    else FateOf(answers[1..], cycles, failures + 1)
  }

  /** With f failures behind it, a cycle is delivered on its c-th call iff that answer is its first success and c <= 4,
      and is given up iff all of its four answers are failures. */
  lemma {:induction false} OneCycle(answers: seq<bool>, f: nat, c: nat)
    requires f <= 4
    ensures FateOf(answers, 1, f) == Reached(c) <==>
            f < c <= 4 && c - f <= |answers| && answers[c - f - 1] && forall j :: 0 <= j < c - f - 1 ==> !answers[j]
    ensures FateOf(answers, 1, f) == GivenUp <==> |answers| >= 4 - f && forall j :: 0 <= j < 4 - f ==> !answers[j]
    decreases 4 - f
  {
    if f < 4 && answers != [] && !answers[0] {
      OneCycle(answers[1..], f + 1, c);
    }
  }

  /** A replay opens a fresh cycle on the rest of the stream. */
  lemma NextCycle(answers: seq<bool>, cycles: nat)
    requires cycles >= 1 && |answers| >= 4 && !answers[0] && !answers[1] && !answers[2] && !answers[3]
    ensures FateOf(answers, cycles + 1, 0) == FateOf(answers[4..], cycles, 0)
  {
    var a1, a2, a3 := answers[1..], answers[2..], answers[3..];
    assert a1[1..] == a2 && a2[1..] == a3 && a3[1..] == answers[4..];
    assert FateOf(answers, cycles + 1, 0) == FateOf(a1, cycles + 1, 1);
    assert FateOf(a1, cycles + 1, 1) == FateOf(a2, cycles + 1, 2);
    assert FateOf(a2, cycles + 1, 2) == FateOf(a3, cycles + 1, 3);
    assert FateOf(a3, cycles + 1, 3) == FateOf(answers[4..], cycles + 1, 4);
  }

  function Answers(sends: seq<Event>): seq<bool>
    requires forall k :: 0 <= k < |sends| ==> sends[k].Sent?
  {
    seq(|sends|, k requires 0 <= k < |sends| => sends[k].outcome.Accepted?)
  }

  /** A stream whose only success, if any, is its last answer and falls into the last cycle. */
  ghost predicate Usable(answers: seq<bool>, cycles: nat, failures: nat) {
    && (forall k :: 0 <= k < |answers| - 1 ==> !answers[k])
    && failures + |answers| <= 4 * cycles
    && (answers != [] && answers[|answers| - 1] ==> failures + |answers| > 4 * (cycles - 1))
    && (answers == [] || !answers[|answers| - 1] ==> failures + |answers| >= 4 * (cycles - 1))
  }

  lemma {:induction false} FateClosed(answers: seq<bool>, cycles: nat, failures: nat)
    requires failures <= 4 && Usable(answers, cycles, failures)
    ensures var total := failures + |answers|;
            FateOf(answers, cycles, failures)
            == if cycles == 0 then Unborn
               else if answers != [] && answers[|answers| - 1] then Reached(total - 4 * (cycles - 1))
               else if total == 4 * cycles then GivenUp
               else Trying(total - 4 * (cycles - 1))
    decreases cycles, |answers|, 4 - failures
  {
    if cycles == 0 {
    } else if failures == 4 {
      if cycles > 1 {
        FateClosed(answers, cycles - 1, 0);
      }
    } else if answers != [] && !answers[0] {
      FateClosed(answers[1..], cycles, failures + 1);
    }
  }

  // ---------------------------------------------------------------- fault-free runs

  predicate Clean(env: Env) {
    && env.mark.NoFault? && env.delivered.NoFault? && env.retry.NoFault? && env.dlq.NoFault?
    && env.failed.NoFault? && env.unmark.NoFault? && env.record.NoFault? && !env.ctxDone
  }

  predicate FaultFree(s: Step) {
    Uninterrupted(s) &&
    match s
    case PublishRow(_, fault) => fault.NoFault?
    case Deliver(_, env) => Clean(env)
    case Replay(_, fault) => fault.NoFault?
    case _ => true
  }

  function Losses(w: World, id: Uuid): nat {
    multiset(w.hist)[Left(id, Discarded)] + multiset(w.hist)[Left(id, Duplicate)]
  }

  /** The status that the calls made and the cancellations granted so far amount to. */
  function StatusAfter(sends: seq<Event>, cancelled: bool): Status {
    if !Undelivered(sends) then Delivered
    else if |sends| >= 4 then Failed
    else if cancelled then Cancelled
    else Pending
  }

  /** The tables and the broker, as a function of the provider calls and the number of cycles. */
  ghost predicate Exact(w: World, id: Uuid) {
    var v := ViewOf(w, id);
    var n := |v.sends|;
    && v.born == v.handed
    && Losses(w, id) == 0
    && Live(w.entries, id) == (if v.handed == 1 && Undelivered(v.sends) then 1 else 0)
    && (!Undelivered(v.sends) ==> n > 4 * (v.Cycles() - 1))
    && (id in w.processed <==> n > 0 && (!Undelivered(v.sends) || n % 4 != 0))
    && (id in w.rows ==> w.rows[id].status == StatusAfter(v.sends, Rows.Cancels(w, id) > 0))
    && (id !in w.rows ==> Rows.Cancels(w, id) == 0)
    && Retells(LogOf(w.log, id), v.sends)
  }

  lemma SameLosses(w: World, w': World, more: seq<Event>, id: Uuid)
    requires w'.hist == w.hist + more && forall ev :: ev in more ==> !ev.Left? && !ev.CancelledRow?
    ensures Losses(w', id) == Losses(w, id) && Rows.Cancels(w', id) == Rows.Cancels(w, id)
  {
    assert Left(id, Discarded) !in more && Left(id, Duplicate) !in more && CancelledRow(id) !in more;
  }

  // ---------------------------------------------------------------- one clean delivery

  lemma CleanExit(w: World, d: Delivery, env: Env)
    requires d.body.Encoded? && d.body.msg.id in w.rows && Clean(env) && CallsProvider(w, d, d.body.msg, env)
    ensures HandleSpec(w, d, env).1 == if env.send.Accepted? then Completed else Moved
  {
    hide RetryOf, DlqOf, Publish;
  }

  lemma CleanLosses(w: World, i: nat, env: Env, id: Uuid)
    requires Inv(w) && Enabled(w, Deliver(i, env)) && Clean(env)
    requires CallsProvider(w, DeliveryOf(w.entries[i].msg), w.entries[i].msg.body.msg, env)
    ensures var w' := Next(w, Deliver(i, env));
            Losses(w', id) == Losses(w, id) && Rows.Cancels(w', id) == Rows.Cancels(w, id)
  {
    hide HandleSpec, Inv, CallsProvider;
    DeliveredFits(w, i);
    var d := DeliveryOf(w.entries[i].msg);
    HandleAppends(w, d, env);
    CleanExit(w, d, env);
    var w1, exit := HandleSpec(w, d, env).0, HandleSpec(w, d, env).1;
    SameLosses(w, w1, w1.hist[|w.hist|..], id);
    var left := LeftEvents(w1.entries[i].msg.body, exit);
    assert Left(id, Discarded) !in left && Left(id, Duplicate) !in left && CancelledRow(id) !in left;
  }

  /** The tables after a clean delivery that called the provider. */
  lemma CleanTables(w: World, i: nat, env: Env)
    requires Inv(w) && Enabled(w, Deliver(i, env)) && Clean(env)
    requires CallsProvider(w, DeliveryOf(w.entries[i].msg), w.entries[i].msg.body.msg, env)
    ensures var w', m, a := Next(w, Deliver(i, env)), w.entries[i].msg.body.msg, AttemptOf(w.entries[i].msg);
            var last := !env.send.Accepted? && a == 3;
            && w'.rows == (if env.send.Accepted? then SetRow(w.rows, m.id, Delivered)
                           else if last then SetRow(w.rows, m.id, Failed) else w.rows)
            && w'.processed
               == (if last then w.processed - {m.id} else if a == 0 then w.processed + {m.id} else w.processed)
            && w'.log == w.log + [Entered(SendEvent(w, DeliveryOf(w.entries[i].msg), m, env))]
  {
    hide Handled, Inv;
    DeliveredFits(w, i);
    DeliverTables(w, i, env);
    DeliveryLog(w, i, env);
  }

  lemma CleanCalls(w: World, i: nat, env: Env, id: Uuid)
    requires Enabled(w, Deliver(i, env)) && Clean(env) && w.entries[i].Has(id)
    requires Calm(w) && Exact(w, id)
    ensures var d, m, v := DeliveryOf(w.entries[i].msg), w.entries[i].msg.body.msg, ViewOf(w, id);
            && CallsProvider(w, d, m, env) && |Successors(w, d, m, env)| == (if env.send.Accepted? then 0 else 1)
            && 0 <= d.attempt <= 3 && v.Cycles() >= 1 && |v.sends| == 4 * (v.Cycles() - 1) + d.attempt
            && Undelivered(v.sends) && v.handed == 1 && id in w.rows
  {
    hide ViewOf, Inv, Live, Chain, RetryOf, DlqOf;
    DeliveredFits(w, i);
    assert Cyclic(w, id) && Spot(w, w.entries[i], ViewOf(w, id));
    LiveCopy(w.entries, i, id);
  }

  /** The status and ledger membership after one more call, from what they were before. */
  lemma NextCall(sends: seq<Event>, ev: Event, c: nat, cancelled: bool)
    requires Undelivered(sends) && c >= 1 && 4 * (c - 1) <= |sends| < 4 * c
    requires ev.Sent? && ev.attempt == |sends| - 4 * (c - 1)
    ensures var sends', ok, a := sends + [ev], ev.outcome.Accepted?, ev.attempt;
            && (Undelivered(sends') <==> !ok) && |sends'| > 4 * (c - 1)
            && (|sends'| % 4 != 0 <==> a != 3) && (|sends| % 4 != 0 <==> a != 0)
            && StatusAfter(sends', cancelled)
               == if ok then Delivered else if a == 3 then Failed else StatusAfter(sends, cancelled)
  {
  }

  /** One more call, with what it does to ledger, row and copies. */
  lemma ExactAdvances(w: World, w': World, id: Uuid, ev: Event)
    requires Exact(w, id) && ev.Sent? && 0 <= ev.attempt <= 3 && id in w.rows && id in w'.rows
    requires var v, v' := ViewOf(w, id), ViewOf(w', id);
             && v' == v.(sends := v.sends + [ev], gone := v'.gone) && v.handed == 1 && v.Cycles() >= 1
             && |v.sends| == 4 * (v.Cycles() - 1) + ev.attempt && Undelivered(v.sends)
             && Retells(LogOf(w'.log, id), v.sends + [ev])
    requires Losses(w', id) == Losses(w, id) && Rows.Cancels(w', id) == Rows.Cancels(w, id)
    requires Live(w'.entries, id) == if ev.outcome.Accepted? then 0 else 1
    requires w'.rows[id].status
             == if ev.outcome.Accepted? then Delivered else if ev.attempt == 3 then Failed else w.rows[id].status
    requires id in w'.processed <==>
               (ev.outcome.Accepted? || ev.attempt < 3) && (ev.attempt == 0 || id in w.processed)
    ensures Exact(w', id)
  {
    hide ViewOf, Live, Losses, Rows.Cancels, LogOf, Retells, StatusAfter, Undelivered;
    var v := ViewOf(w, id);
    NextCall(v.sends, ev, v.Cycles(), Rows.Cancels(w, id) > 0);
  }

  lemma DeliverExactOwn(w: World, i: nat, env: Env, id: Uuid)
    requires Enabled(w, Deliver(i, env)) && Clean(env) && w.entries[i].Has(id)
    requires Calm(w) && Exact(w, id)
    ensures Exact(Next(w, Deliver(i, env)), id)
  {
    hide ViewOf, Inv, Live, Handled, Successors, CallsProvider, Cyclic, Losses, Rows.Cancels, SendEvent, Retells, Exact,
      StatusAfter, Undelivered;
    var e, w' := w.entries[i], Next(w, Deliver(i, env));
    var d, m, v := DeliveryOf(e.msg), e.msg.body.msg, ViewOf(w, id);
    CleanCalls(w, i, env, id);
    DeliverView(w, i, env, id);
    CleanTables(w, i, env);
    CleanLosses(w, i, env, id);
    SuccessorsBounded(w, d, m, env);
    LiveSwap(w.entries, i, Successors(w, d, m, env), id);
    ExactParts(w, id);
    RetellsOn(w, d, m, env, id, LogOf(w.log, id), v.sends);
    ExactAdvances(w, w', id, SendEvent(w, d, m, env));
  }

  lemma ExactParts(w: World, id: Uuid)
    requires Exact(w, id)
    ensures var v := ViewOf(w, id);
            && Retells(LogOf(w.log, id), v.sends)
            && Live(w.entries, id) == (if v.handed == 1 && Undelivered(v.sends) then 1 else 0)
            && (id in w.processed <==> |v.sends| > 0 && (!Undelivered(v.sends) || |v.sends| % 4 != 0))
  {
  }

  lemma RetellsOn(w: World, d: Delivery, m: NotificationMessage, env: Env, id: Uuid, log: seq<Attempt>,
                  sends: seq<Event>)
    requires m.id == id && log == LogOf(w.log, id) && Retells(log, sends)
    ensures var ev := SendEvent(w, d, m, env);
            && ev.Sent? && ev.outcome == env.send && ev.attempt == d.attempt
            && Retells(LogOf(w.log + [Entered(ev)], id), sends + [ev])
  {
    LogAppend(w.log, Entered(SendEvent(w, d, m, env)), id);
  }

  /** Nothing Exact speaks of has changed for id. */
  lemma StillExact(w: World, w': World, id: Uuid)
    requires Exact(w, id) && ViewOf(w', id) == ViewOf(w, id) && Live(w'.entries, id) == Live(w.entries, id)
    requires Losses(w', id) == Losses(w, id) && Rows.Cancels(w', id) == Rows.Cancels(w, id)
    requires (id in w'.processed <==> id in w.processed) && LogOf(w'.log, id) == LogOf(w.log, id)
    requires id in w.rows ==> id in w'.rows && w'.rows[id].status == w.rows[id].status
    requires id in w'.rows && id !in w.rows ==> w'.rows[id].status.Pending? && ViewOf(w, id).sends == []
    ensures Exact(w', id)
  {
  }

  lemma DeliverExactOther(w: World, i: nat, env: Env, id: Uuid)
    requires Enabled(w, Deliver(i, env)) && Clean(env) && !w.entries[i].Has(id)
    requires Calm(w) && Exact(w, id)
    requires forall j :: Exact(w, j)
    ensures Exact(Next(w, Deliver(i, env)), id)
  {
    hide ViewOf, Inv, Live, Handled, Successors, CallsProvider, Cyclic, Losses, Rows.Cancels, Exact, SendEvent, LogOf;
    var e := w.entries[i];
    DeliveredFits(w, i);
    var d, m := DeliveryOf(e.msg), e.msg.body.msg;
    assert Exact(w, m.id);
    CleanCalls(w, i, env, m.id);
    DeliverView(w, i, env, id);
    CleanTables(w, i, env);
    CleanLosses(w, i, env, id);
    SuccessorsBounded(w, d, m, env);
    LiveSwap(w.entries, i, Successors(w, d, m, env), id);
    SentIsSent(w, d, m, env);
    LogAppend(w.log, Entered(SendEvent(w, d, m, env)), id);
    StillExact(w, Next(w, Deliver(i, env)), id);
  }

  // ---------------------------------------------------------------- every step

  lemma PublishRowExact(w: World, row: Uuid, id: Uuid)
    requires Calm(w) && Exact(w, id) && Enabled(w, PublishRow(row, NoFault))
    ensures Exact(Next(w, PublishRow(row, NoFault)), id)
  {
    hide ViewOf, Inv, Live, Chain, Spot, PublishStored, FirstMessage;
    var w', n := Next(w, PublishRow(row, NoFault)), w.rows[row];
    assert Cyclic(w, id);
    PublishRowView(w, row, NoFault, id);
    PublishRowTables(w, row, id);
    LiveAppend(w.entries, [Entry(Main(Lane(n.channel, n.priority)), FirstMessage(n), w.now, Ready)], id);
    if row == id {
      NotYetHanded(w, id);
    }
  }

  lemma PublishRowTables(w: World, row: Uuid, id: Uuid)
    requires Inv(w) && Enabled(w, PublishRow(row, NoFault))
    ensures var w' := Next(w, PublishRow(row, NoFault));
            && TablesOf(w') == TablesOf(w) && Losses(w', id) == Losses(w, id)
               && Rows.Cancels(w', id) == Rows.Cancels(w, id)
  {
    hide FirstMessage, Inv;
    PublishRowKeeps(w, row, NoFault);
    SameLosses(w, Next(w, PublishRow(row, NoFault)), [Handed(row), Born(row)], id);
  }

  lemma ExpireExact(w: World, i: nat, id: Uuid)
    requires Calm(w) && Exact(w, id) && Enabled(w, Expire(i))
    ensures Exact(Next(w, Expire(i)), id)
  {
    hide ViewOf, Live, Expired, Cyclic;
    var w', e := Next(w, Expire(i)), w.entries[i];
    assert Placed(w.rows, e);
    ExpireKeeps(w, i);
    ExpireTables(w, i);
    SameView(w, w', id);
    var lane := LaneOf(e.msg.body.msg);
    LiveSwap(w.entries, i, [Entry(Main(lane), e.msg.(key := LaneKey(lane)), w.now, Ready)], id);
    StillExact(w, w', id);
  }

  lemma CancelExact(w: World, row: Uuid, id: Uuid)
    requires Calm(w) && Exact(w, id)
    ensures Exact(CancelIfPending(w, row), id)
  {
    hide ViewOf, Live, Inv;
    var w' := CancelIfPending(w, row);
    if w' != w {
      EventView(w, w', CancelledRow(row), id);
      assert Losses(w', id) == Losses(w, id);
      assert Rows.Cancels(w', id) == Rows.Cancels(w, id) + if row == id then 1 else 0;
    }
  }

  lemma ReplayTables(w: World, i: nat, id: Uuid)
    requires Inv(w) && Enabled(w, Replay(i, NoFault))
    ensures var w' := Next(w, Replay(i, NoFault));
            && TablesOf(w') == TablesOf(w) && Losses(w', id) == Losses(w, id)
               && Rows.Cancels(w', id) == Rows.Cancels(w, id)
  {
    hide ReplayMessage, Inv, Republished;
    DeadEncoded(w, i);
    RepublishKeeps(w, i, NoFault);
    SameLosses(w, Next(w, Replay(i, NoFault)), [Replayed(w.entries[i].msg.body.msg.id)], id);
  }

  lemma ReplayExact(w: World, i: nat, id: Uuid)
    requires Calm(w) && Exact(w, id) && Enabled(w, Replay(i, NoFault))
    ensures Exact(Next(w, Replay(i, NoFault)), id)
  {
    hide ViewOf, Live, Inv, Chain, ReplayMessage, Republished, Drop, Losses, Rows.Cancels;
    var w', e := Next(w, Replay(i, NoFault)), w.entries[i];
    DeadEncoded(w, i);
    ReplayView(w, i, NoFault, id);
    ReplayTables(w, i, id);
    var m := e.msg.body.msg;
    LiveSwap(w.entries, i, [Entry(Main(LaneOf(m)), ReplayMessage(e.msg, m.channel), w.now, Ready)], id);
    if m.id == id {
      assert Cyclic(w, id) && Spot(w, e, ViewOf(w, id));
    } else {
      StillExact(w, w', id);
    }
  }

  lemma UnknownUnsent(w: World, id: Uuid)
    requires Cyclic(w, id) && id !in w.rows
    ensures ViewOf(w, id).sends == []
  {
    hide Live, Chain, Spot, ViewOf;
  }

  lemma RowsAddedExact(w: World, w': World, id: Uuid)
    requires Cyclic(w, id) && Exact(w, id) && w' == w.(rows := w'.rows, batches := w'.batches)
    requires id in w.rows ==> id in w'.rows && w'.rows[id] == w.rows[id]
    requires id in w'.rows && id !in w.rows ==> w'.rows[id].status.Pending?
    ensures Exact(w', id)
  {
    hide ViewOf, Live, Cyclic, Exact, Losses, Rows.Cancels;
    SameView(w, w', id);
    SameLosses(w, w', [], id);
    if id !in w.rows {
      UnknownUnsent(w, id);
    }
    StillExact(w, w', id);
  }

  lemma InsertExact(w: World, s: Step, id: Uuid)
    requires Calm(w) && Exact(w, id) && Enabled(w, s) && (s.Insert? || s.InsertBatch?)
    ensures Exact(Next(w, s), id)
  {
    hide Cyclic, Exact, Inv, AddRows;
    if s.InsertBatch? {
      AddedPending(w.rows, s.ns);
    }
    RowsAddedExact(w, Next(w, s), id);
  }

  lemma StepExact(w: World, s: Step, id: Uuid)
    requires Calm(w) && (forall j :: Exact(w, j)) && Enabled(w, s) && FaultFree(s)
    ensures Exact(Next(w, s), id)
  {
    hide ViewOf, Live, Inv, Cyclic, Exact, PublishStored, Handled, Expired, Republished, CancelIfPending, AddRows, Drop,
      Losses;
    assert Exact(w, id);
    match s
    case PublishRow(row, _) => PublishRowExact(w, row, id);
    case Deliver(i, env) =>
      if w.entries[i].Has(id) {
        DeliverExactOwn(w, i, env, id);
      } else {
        DeliverExactOther(w, i, env, id);
      }
    case Expire(i) => ExpireExact(w, i, id);
    case Cancel(row) => CancelExact(w, row, id);
    case Replay(i, _) => ReplayExact(w, i, id);
    case Insert(_) => InsertExact(w, s, id);
    case InsertBatch(_, _) => InsertExact(w, s, id);
    case Tick(_) => SameView(w, Next(w, s), id); SameLosses(w, Next(w, s), [], id); StillExact(w, Next(w, s), id);
    case _ =>
  }

  ghost predicate FaultFreeRun(ttls: RetryTTLs, ws: seq<World>, steps: seq<Step>) {
    IsRun(ttls, ws, steps) && forall k :: 0 <= k < |steps| ==> FaultFree(steps[k])
  }

  lemma {:induction false} RunExact(ttls: RetryTTLs, ws: seq<World>, steps: seq<Step>, k: nat)
    requires FaultFreeRun(ttls, ws, steps) && k < |ws|
    ensures Calm(ws[k]) && forall id :: Exact(ws[k], id)
  {
    hide Next, Enabled, Calm, Exact;
    RunCalm(ttls, ws, steps, k);
    if k == 0 {
      forall id ensures Exact(ws[0], id) {
        InitExact(ttls, id);
      }
    } else {
      RunExact(ttls, ws, steps, k - 1);
      forall id ensures Exact(ws[k], id) {
        StepExact(ws[k - 1], steps[k - 1], id);
      }
    }
  }

  lemma InitExact(ttls: RetryTTLs, id: Uuid)
    ensures Exact(Init(ttls), id)
  {
  }

  // ---------------------------------------------------------------- the refinement

  /** What a fate looks like in the queues and tables. */
  ghost predicate Shows(w: World, id: Uuid, fate: Fate) {
    match fate
    case Unborn => Live(w.entries, id) == 0 && id !in w.processed
    case Trying(f) =>
      // one copy, in its lane: waiting at retry level f, or in the main queue as attempt f
      && f <= 3 && Live(w.entries, id) == 1
      && (forall e :: e in w.entries && e.Has(id) ==>
            (e.place.Main? && AttemptOf(e.msg) == f) || (f > 0 && e.place.Hold? && e.place.level == f))
      && (id in w.processed <==> f > 0)
      && id in w.rows && !w.rows[id].status.Delivered?
    case Reached(calls) =>
      && 1 <= calls <= 4 && Live(w.entries, id) == 0 && id in w.processed
      && id in w.rows && w.rows[id].status.Delivered?
    case GivenUp =>
      && Live(w.entries, id) == 1 && (forall e :: e in w.entries && e.Has(id) ==> e.place.Dead?)
      && id !in w.processed && id in w.rows && w.rows[id].status.Failed?
  }

  lemma AnswersUsable(w: World, id: Uuid)
    requires Calm(w) && Exact(w, id)
    ensures var v := ViewOf(w, id);
            (forall k :: 0 <= k < |v.sends| ==> v.sends[k].Sent?) && Usable(Answers(v.sends), v.Cycles(), 0)
  {
    hide Inv, Live;
    assert Cyclic(w, id);
    var v := ViewOf(w, id);
    forall k | 0 <= k < |v.sends| ensures ChainAt(w.ttls, v.sends, k) {}
    if Undelivered(v.sends) && v.Cycles() >= 1 {
      CopyFound(w, id);
    }
    forall k | 0 <= k < |v.sends| - 1 ensures !Answers(v.sends)[k] {
      assert ChainAt(w.ttls, v.sends, k);
    }
  }

  lemma CopyFound(w: World, id: Uuid)
    requires Calm(w) && Exact(w, id) && Undelivered(ViewOf(w, id).sends) && ViewOf(w, id).Cycles() >= 1
    ensures |ViewOf(w, id).sends| >= 4 * (ViewOf(w, id).Cycles() - 1)
  {
    hide Inv, Live, Chain, ViewOf, Losses, Rows.Cancels;
    assert Cyclic(w, id);
    LiveSomewhere(w.entries, id);
    var k: nat :| k < |w.entries| && w.entries[k].Has(id);
    PlacedAt(w, k);
    assert Spot(w, w.entries[k], ViewOf(w, id));
  }

  lemma PlacedAt(w: World, k: nat)
    requires Inv(w) && k < |w.entries|
    ensures Placed(w.rows, w.entries[k])
  {
  }

  lemma {:induction false} LiveSomewhere(entries: seq<Entry>, id: Uuid)
    requires Live(entries, id) >= 1
    ensures exists k :: 0 <= k < |entries| && entries[k].Has(id)
  {
    if entries[|entries| - 1].Has(id) {
    } else {
      var init := entries[..|entries| - 1];
      LiveSomewhere(init, id);
      var k :| 0 <= k < |init| && init[k].Has(id);
      assert entries[k].Has(id);
    }
  }

  /** In every state of every fault-free run, what the broker, the ledger, the table and the audit trail show of a
      notification is the fate computed from the provider's answers to it and the number of its replays alone. */
  lemma OutcomeStreamRefinement(ttls: RetryTTLs, ws: seq<World>, steps: seq<Step>, k: nat, id: Uuid)
    requires FaultFreeRun(ttls, ws, steps) && k < |ws|
    ensures var w := ws[k];
            var sends, cycles := SendsOf(w.hist, id), multiset(w.hist)[Born(id)] + multiset(w.hist)[Replayed(id)];
            && Shows(w, id, FateOf(Answers(sends), cycles, 0))
            && (id in w.rows ==> w.rows[id].status == StatusAfter(sends, Rows.Cancels(w, id) > 0))
            && Retells(LogOf(w.log, id), sends)
            && Losses(w, id) == 0
  {
    hide Next, Enabled, Calm, Exact, Shows, FateOf, Usable, SendsOf, StatusAfter, Retells, FaultFree;
    RunExact(ttls, ws, steps, k);
    FateShown(ws[k], id);
    StatusShown(ws[k], id);
  }

  lemma StatusShown(w: World, id: Uuid)
    requires Exact(w, id)
    ensures id in w.rows ==> w.rows[id].status == StatusAfter(ViewOf(w, id).sends, Rows.Cancels(w, id) > 0)
    ensures Retells(LogOf(w.log, id), ViewOf(w, id).sends) && Losses(w, id) == 0
  {
  }

  lemma FateShown(w: World, id: Uuid)
    requires Calm(w) && Exact(w, id)
    ensures var v := ViewOf(w, id);
            && Usable(Answers(v.sends), v.Cycles(), 0) && Shows(w, id, FateOf(Answers(v.sends), v.Cycles(), 0))
  {
    hide Inv, Live, Chain, ViewOf, Rows.Cancels, Losses;
    assert Cyclic(w, id);
    var v := ViewOf(w, id);
    AnswersUsable(w, id);
    FateClosed(Answers(v.sends), v.Cycles(), 0);
    forall e | e in w.entries && e.Has(id) ensures Spot(w, e, v) && Placed(w.rows, e) {
      var k :| 0 <= k < |w.entries| && w.entries[k] == e;
      PlacedAt(w, k);
    }
  }
}
