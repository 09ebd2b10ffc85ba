/** A batch's summary over a run: all pending when the batch is stored, and from then on one row at a time moves from
    one count to another. */
module Batches {
  import opened Domain
  import opened World
  import opened Handle
  import opened Protocol
  import opened Placement
  import opened Cycles
  import opened Lives
  import opened Rows
  import opened Stores

  function CountOf(s: BatchSummary, status: Status): nat {
    match status
    case Pending => s.pending
    case Delivered => s.delivered
    case Failed => s.failed
    case Cancelled => s.cancelled
  }

  ghost function SummaryOf(w: World, batch: Uuid): BatchSummary
    requires batch in w.batches
  {
    Summary(w.rows, w.batches[batch], batch)
  }

  /** One row fewer with status `from`, one more with status `to`. */
  predicate Moved(a: BatchSummary, b: BatchSummary, from: Status, to: Status) {
    && b.total == a.total
    && forall s: Status :: CountOf(b, s) + (if s == from then 1 else 0) == CountOf(a, s) + (if s == to then 1 else 0)
  }

  // ---------------------------------------------------------------- one row

  lemma CountMoves(rows: map<Uuid, Notification>, id: Uuid, status: Status, batch: Uuid, s: Status)
    requires id in rows
    ensures var member := rows[id].batchId == Some(batch);
            |WithStatus(SetRow(rows, id, status), batch, s)| + (if member && rows[id].status == s then 1 else 0)
            == |WithStatus(rows, batch, s)| + (if member && status == s then 1 else 0)
  {
    hide WithStatus;
    var rows' := SetRow(rows, id, status);
    var before, after := WithStatus(rows, batch, s), WithStatus(rows', batch, s);
    forall j ensures j in before - {id} <==> j in after - {id} {
      Counted(rows, batch, s, j);
      Counted(rows', batch, s, j);
    }
    Counted(rows, batch, s, id);
    Counted(rows', batch, s, id);
    assert before - {id} == after - {id};
    SizeWithout(before, id);
    SizeWithout(after, id);
  }

  lemma Counted(rows: map<Uuid, Notification>, batch: Uuid, s: Status, id: Uuid)
    ensures id in WithStatus(rows, batch, s) <==> id in rows && rows[id].batchId == Some(batch) && rows[id].status == s
  {
  }

  lemma SizeWithout(s: set<Uuid>, id: Uuid)
    ensures |s| == |s - {id}| + if id in s then 1 else 0
  {
    if id in s {
      assert s == (s - {id}) + {id};
    } else {
      assert s == s - {id};
    }
  }

  // ---------------------------------------------------------------- one step

  /** A step that stores no row sets the status of at most one. */
  lemma StepSets(w: World, s: Step) returns (id: Uuid, status: Status)
    requires Inv(w) && Enabled(w, s) && !s.Insert? && !s.InsertBatch?
    ensures Next(w, s).rows == w.rows || (id in w.rows && Next(w, s).rows == SetRow(w.rows, id, status))
    ensures Next(w, s).batches == w.batches
  {
    hide Inv, PublishStored, Effect, Handled, Expired, Republished, Performed, Drop, HandlerGone, Detached, SetRow;
    id, status := 0, Pending;
    if !s.Cancel? {
      StepQuiet(w, s);
    }
    match s
    case Cancel(row) => id, status := row, Cancelled;
    case Perform(i, c) => id, status := PerformSets(w, i, c);
    case Deliver(i, env) => id, status := DeliverSets(w, i, env);
    case _ => StepLeaves(w, s);
  }

  lemma StepLeaves(w: World, s: Step)
    requires Enabled(w, s) && !s.Insert? && !s.InsertBatch? && !s.Cancel? && !s.Perform? && !s.Deliver?
    ensures Next(w, s).rows == w.rows
  {
    hide FirstMessage, ReplayMessage, Arrivals, RouteEvents;
  }

  lemma PerformSets(w: World, i: nat, c: Choice) returns (id: Uuid, status: Status)
    requires Enabled(w, Perform(i, c))
    ensures var rows := Next(w, Perform(i, c)).rows;
            rows == w.rows || (id in w.rows && rows == SetRow(w.rows, id, status))
  {
    hide RetryOf, DlqOf, PoisonOf, Arrivals, RouteEvents;
    var body := w.entries[i].msg.body;
    id := if body.Encoded? then body.msg.id else 0;
    status := if w.entries[i].handling.pc.AtDelivered? then Delivered else Failed;
  }

  lemma DeliverSets(w: World, i: nat, env: Env) returns (id: Uuid, status: Status)
    requires Inv(w) && Enabled(w, Deliver(i, env))
    ensures var rows := Next(w, Deliver(i, env)).rows;
            rows == w.rows || (id in w.rows && rows == SetRow(w.rows, id, status))
  {
    hide Inv, Handled;
    DeliveredFits(w, i);
    DeliverTables(w, i, env);
    id, status := w.entries[i].msg.body.msg.id, if env.send.Accepted? then Delivered else Failed;
    assert Next(w, Deliver(i, env)).rows
           == TablesAfter(w, DeliveryOf(w.entries[i].msg), w.entries[i].msg.body.msg, env).rows;
  }

  lemma SetMoves(rows: map<Uuid, Notification>, id: Uuid, status: Status, batch: Uuid, total: nat)
    requires id in rows
    ensures var a, b := Summary(rows, total, batch), Summary(SetRow(rows, id, status), total, batch);
            if rows[id].batchId == Some(batch) then Moved(a, b, rows[id].status, status) else a == b
  {
    hide WithStatus, SetRow;
    var a, b := Summary(rows, total, batch), Summary(SetRow(rows, id, status), total, batch);
    CountMoves(rows, id, status, batch, Pending);
    CountMoves(rows, id, status, batch, Delivered);
    CountMoves(rows, id, status, batch, Failed);
    CountMoves(rows, id, status, batch, Cancelled);
  }

  // ---------------------------------------------------------------- new rows

  lemma InsertLeaves(w: World, s: Step, batch: Uuid)
    requires Enabled(w, s) && (s.Insert? || s.InsertBatch?) && batch in w.batches
    ensures batch in Next(w, s).batches && SummaryOf(Next(w, s), batch) == SummaryOf(w, batch)
    ensures forall id :: id in w.rows ==> id in Next(w, s).rows && Next(w, s).rows[id] == w.rows[id]
  {
    if s.InsertBatch? {
      Added(w.rows, s.ns);
    }
    var w' := Next(w, s);
    forall status: Status ensures WithStatus(w'.rows, batch, status) == WithStatus(w.rows, batch, status) {}
    assert WithStatus(w'.rows, batch, Pending) == WithStatus(w.rows, batch, Pending);
    assert WithStatus(w'.rows, batch, Delivered) == WithStatus(w.rows, batch, Delivered);
    assert WithStatus(w'.rows, batch, Failed) == WithStatus(w.rows, batch, Failed);
    assert WithStatus(w'.rows, batch, Cancelled) == WithStatus(w.rows, batch, Cancelled);
  }

  /** A batch starts with every one of its rows pending. */
  lemma BatchStarts(ttls: Topology.RetryTTLs, ws: seq<World>, steps: seq<Step>, k: nat, batch: Uuid)
    requires IsRun(ttls, ws, steps) && k < |steps| && steps[k].InsertBatch? && steps[k].batch == batch
    ensures batch !in ws[k].batches && batch in ws[k + 1].batches
    ensures var n := |steps[k].ns|; SummaryOf(ws[k + 1], batch) == BatchSummary(n, n, 0, 0, 0)
  {
    var w, w', ns := ws[k], ws[k + 1], steps[k].ns;
    BatchConservation(ttls, ws, steps, k);
    BatchConservation(ttls, ws, steps, k + 1);
    Added(w.rows, ns);
    forall id | id in Members(w'.rows, batch) ensures w'.rows[id].status.Pending? {
      if id in w.rows {
        assert false;
      }
    }
    assert WithStatus(w'.rows, batch, Delivered) == {};
    assert WithStatus(w'.rows, batch, Failed) == {};
    assert WithStatus(w'.rows, batch, Cancelled) == {};
  }

  // ---------------------------------------------------------------- runs

  /** In every run, a step leaves the summary of a stored batch as it is, or one row of the batch, and no other row,
      changes its status, and the summary moves by that one. */
  lemma StepMoves(ttls: Topology.RetryTTLs, ws: seq<World>, steps: seq<Step>, k: nat, batch: Uuid) returns (id: Uuid)
    requires IsRun(ttls, ws, steps) && k < |steps| && batch in ws[k].batches
    ensures batch in ws[k + 1].batches
    ensures var w, w', a, b := ws[k], ws[k + 1], SummaryOf(ws[k], batch), SummaryOf(ws[k + 1], batch);
            || (a == b && forall j :: j in w.rows && w.rows[j].batchId == Some(batch) ==>
                            j in w'.rows && w'.rows[j] == w.rows[j])
            || (&& id in w.rows && id in w'.rows && w.rows[id].batchId == Some(batch)
                && w'.rows == w.rows[id := w'.rows[id]]
                && Moved(a, b, w.rows[id].status, w'.rows[id].status))
  {
    hide Inv, Next, Enabled, Summary, Moved;
    EveryRunPlaced(ttls, ws, steps, k);
    var w, s := ws[k], steps[k];
    if s.Insert? || s.InsertBatch? {
      InsertLeaves(w, s, batch);
      id := 0;
    } else {
      var status;
      id, status := StepSets(w, s);
      if id in w.rows {
        SetMoves(w.rows, id, status, batch, w.batches[batch]);
      }
    }
  }

  /** Each row of the batch that goes from pending to delivered raises `delivered` and lowers `pending` by one. */
  lemma DeliveryCounts(ttls: Topology.RetryTTLs, ws: seq<World>, steps: seq<Step>, k: nat, batch: Uuid, id: Uuid)
    requires IsRun(ttls, ws, steps) && k < |steps| && batch in ws[k].batches
    requires id in ws[k].rows && ws[k].rows[id].batchId == Some(batch) && ws[k].rows[id].status.Pending?
    requires id in ws[k + 1].rows && ws[k + 1].rows[id].status.Delivered?
    ensures batch in ws[k + 1].batches
    ensures var a, b := SummaryOf(ws[k], batch), SummaryOf(ws[k + 1], batch);
            && a.pending >= 1
            && b == a.(pending := a.pending - 1, delivered := a.delivered + 1)
  {
    hide Next, Enabled, Summary;
    var moved := StepMoves(ttls, ws, steps, k, batch);
    assert moved == id;
    var a, b := SummaryOf(ws[k], batch), SummaryOf(ws[k + 1], batch);
    assert CountOf(b, Pending) + 1 == CountOf(a, Pending) && CountOf(b, Delivered) == CountOf(a, Delivered) + 1;
    assert CountOf(b, Failed) == CountOf(a, Failed) && CountOf(b, Cancelled) == CountOf(a, Cancelled);
  }
}
