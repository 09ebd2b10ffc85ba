/** The repositories and publishers that the workers and the API drive, as objects. The `fault` argument of a method is
    the environment's part: how the database or broker answers that call. */
module Stores {
  import opened Domain
  import opened Keys
  import opened Topology
  import opened Routing
  import opened World
  import opened Protocol
  import opened Queues
  import opened Audit
  import opened Rows

  datatype Error = NoError | NotFound | NotPending | Unavailable

  /** The processed_messages table. */
  class ProcessedRepository {
    var ids: set<Uuid>

    constructor ()
      ensures ids == {}
    {
      ids := {};
    }

    method MarkIfUnprocessed(id: Uuid, fault: Fault) returns (inserted: bool, err: bool)
      modifies this
      ensures err == fault.Reported() && inserted == (!err && id !in old(ids))
      ensures ids == if fault.Applied() then old(ids) + {id} else old(ids)
    {
      inserted := !fault.Reported() && id !in ids;
      if fault.Applied() {
        ids := ids + {id};
      }
      err := fault.Reported();
    }

    method DeleteProcessed(id: Uuid, fault: Fault) returns (err: bool)
      modifies this
      ensures err == fault.Reported()
      ensures ids == if fault.Applied() then old(ids) - {id} else old(ids)
    {
      if fault.Applied() {
        ids := ids - {id};
      }
      err := fault.Reported();
    }
  }

  /** The notifications and batches tables. */
  class NotificationRepository {
    var rows: map<Uuid, Notification>
    var batches: map<Uuid, nat>

    constructor ()
      ensures rows == map[] && batches == map[]
    {
      rows, batches := map[], map[];
    }

    method UpdateStatus(id: Uuid, status: Status, fault: Fault) returns (err: Error)
      modifies this`rows
      ensures rows == if fault.Applied() then SetRow(old(rows), id, status) else old(rows)
      ensures err == if fault.Reported() then Unavailable else if id !in old(rows) then NotFound else NoError
    {
      if fault.Applied() && id in rows {
        rows := rows[id := rows[id].(status := status)];
      }
      err := if fault.Reported() then Unavailable else if id !in rows then NotFound else NoError;
    }

    /** One conditional UPDATE; the existence check, which may fail too, only tells the two refusals apart. */
    method CancelIfPending(id: Uuid, update: Fault, checkFails: bool) returns (n: Option<Notification>, err: Error)
      modifies this`rows
      ensures var pending := id in old(rows) && old(rows)[id].status.Pending?;
              && rows == (if pending && update.Applied() then SetRow(old(rows), id, Cancelled) else old(rows))
              && (err.NoError? <==> pending && !update.Reported())
              && (err.NoError? ==> id in rows && n == Some(rows[id]))
              && (!err.NoError? ==> n.None?)
              && (err.NotFound? <==> id !in old(rows) && !update.Reported() && !checkFails)
              && (err.NotPending? <==> id in old(rows) && !pending && !update.Reported() && !checkFails)
    {
      var pending := id in rows && rows[id].status.Pending?;
      if pending && update.Applied() {
        rows := rows[id := rows[id].(status := Cancelled)];
      }
      if update.Reported() {
        return None, Unavailable;
      }
      if pending {
        return Some(rows[id]), NoError;
      }
      if checkFails {
        return None, Unavailable;
      }
      return None, if id in rows then NotPending else NotFound;
    }

    /** A single row, unless it clashes with a stored one. */
    method Insert(n: Notification, fault: Fault) returns (err: Error)
      modifies this`rows
      ensures err.NoError? <==> Fits(old(rows), batches, n) && !fault.Reported()
      ensures rows == if Fits(old(rows), batches, n) && fault.Applied() then old(rows)[n.id := n] else old(rows)
      ensures err.NoError? <==>
                && n.id !in old(rows) && !fault.Reported()
                && (n.idempotencyKey.Some? ==>
                      forall id :: id in old(rows) ==> old(rows)[id].idempotencyKey != n.idempotencyKey)
                && (n.batchId.Some? ==> n.batchId.value in batches)
    {
      var fits := Fits(rows, batches, n);
      err := if fits && !fault.Reported() then NoError else Unavailable;
      if fits && fault.Applied() {
        rows := rows[n.id := n];
      }
    }

    /** A row with this idempotency key: the unique index admits at most one. */
    method GetByIdempotencyKey(key: string, fault: Fault) returns (n: Option<Notification>, err: Error)
      ensures err == if fault.Reported() then Unavailable else if KeyFree(rows, Some(key)) then NotFound else NoError
      ensures if err.NoError? then n.Some? && n.value in rows.Values && n.value.idempotencyKey == Some(key) else n.None?
    {
      if fault.Reported() {
        return None, Unavailable;
      }
      if id :| id in rows && rows[id].idempotencyKey == Some(key) {
        n, err := Some(rows[id]), NoError;
      } else {
        n, err := None, NotFound;
      }
    }

    /** One transaction: the batch row and all notifications, or nothing; `fault` is how it ends. */
    method InsertBatch(batch: Uuid, ns: seq<Notification>, fault: Fault) returns (err: Error)
      modifies this
      ensures err.NoError? <==> Insertable(old(rows), old(batches), batch, ns) && !fault.Reported()
      ensures if Insertable(old(rows), old(batches), batch, ns) && fault.Applied()
              then rows == AddRows(old(rows), ns) && batches == old(batches)[batch := |ns|]
              else rows == old(rows) && batches == old(batches)
    {
      hide Fits;
      var copied, counted, ok := rows, batches[batch := |ns|], batch !in batches;
      assert ns[..0] == [];
      for k := 0 to |ns|
        invariant ok <==> batch !in batches && AllFit(rows, counted, ns[..k])
        invariant copied == AddRows(rows, ns[..k]) && rows == old(rows) && batches == old(batches)
      {
        assert ns[..k + 1][..k] == ns[..k];
        ok := ok && Fits(copied, counted, ns[k]);
        copied := copied[ns[k].id := ns[k]];
      }
      assert ns[..|ns|] == ns;
      err := if ok && !fault.Reported() then NoError else Unavailable;
      if ok && fault.Applied() {
        rows, batches := copied, counted;
      }
    }

    /** The per-status counts the grouping query returns, read into a summary. Reading them may break off with an
        error. */
    method GetBatchSummary(batch: Uuid, groups: seq<(Status, nat)>, totalFails: bool, groupsFail: bool)
      returns (summary: BatchSummary, err: Error)
      requires !groupsFail ==> Groups(rows, batch, groups)
      ensures err == if totalFails then Unavailable
                     else if batch !in batches then NotFound
                     else if groupsFail then Unavailable
                     else NoError
      ensures summary == if err.NoError? then Summary(rows, batches[batch], batch) else BatchSummary(0, 0, 0, 0, 0)
      ensures err.NoError? ==>
                && summary.total == batches[batch]
                && summary.pending
                   == |set id | id in rows && rows[id].batchId == Some(batch) && rows[id].status.Pending?|
                && summary.delivered
                   == |set id | id in rows && rows[id].batchId == Some(batch) && rows[id].status.Delivered?|
                && summary.failed == |set id | id in rows && rows[id].batchId == Some(batch) && rows[id].status.Failed?|
                && summary.cancelled
                   == |set id | id in rows && rows[id].batchId == Some(batch) && rows[id].status.Cancelled?|
    {
      hide Groups, Reported;
      CountsRead(rows, batch);
      if totalFails {
        return BatchSummary(0, 0, 0, 0, 0), Unavailable;
      }
      if batch !in batches {
        return BatchSummary(0, 0, 0, 0, 0), NotFound;
      }
      summary := ReadGroups(groups, batches[batch]);
      if groupsFail {
        return BatchSummary(0, 0, 0, 0, 0), Unavailable;
      }
      forall status: Status ensures Reported(groups, status) == |WithStatus(rows, batch, status)| {
        ReportedCount(rows, batch, groups, status);
      }
      err := NoError;
    }

    static method ReadGroups(groups: seq<(Status, nat)>, total: nat) returns (summary: BatchSummary)
      ensures summary == BatchSummary(total, Reported(groups, Pending), Reported(groups, Delivered),
                                      Reported(groups, Failed), Reported(groups, Cancelled))
    {
      summary := BatchSummary(total, 0, 0, 0, 0);
      for k := 0 to |groups|
        invariant summary.total == total
        invariant summary.pending == Reported(groups[..k], Pending)
        invariant summary.delivered == Reported(groups[..k], Delivered)
        invariant summary.failed == Reported(groups[..k], Failed)
        invariant summary.cancelled == Reported(groups[..k], Cancelled)
      {
        var (status, count) := groups[k];
        assert groups[..k + 1][..k] == groups[..k];
        match status
        case Pending => summary := summary.(pending := count);
        case Delivered => summary := summary.(delivered := count);
        case Failed => summary := summary.(failed := count);
        case Cancelled => summary := summary.(cancelled := count);
      }
      assert groups[..|groups|] == groups;
    }
  }

  /** The partial unique index on idempotency_key. */
  predicate KeyFree(rows: map<Uuid, Notification>, key: Option<string>) {
    key.Some? ==> forall id :: id in rows ==> rows[id].idempotencyKey != key
  }

  /** No primary, unique or foreign key constraint stops the row. */
  predicate Fits(rows: map<Uuid, Notification>, batches: map<Uuid, nat>, n: Notification) {
    n.id !in rows && KeyFree(rows, n.idempotencyKey) && (n.batchId.Some? ==> n.batchId.value in batches)
  }

  /** ... nor any of a list of rows, inserted in turn. */
  predicate AllFit(rows: map<Uuid, Notification>, batches: map<Uuid, nat>, ns: seq<Notification>) {
    ns == [] || (AllFit(rows, batches, ns[..|ns| - 1]) && Fits(AddRows(rows, ns[..|ns| - 1]), batches, ns[|ns| - 1]))
  }

  predicate Insertable(rows: map<Uuid, Notification>, batches: map<Uuid, nat>, batch: Uuid, ns: seq<Notification>) {
    batch !in batches && AllFit(rows, batches[batch := |ns|], ns)
  }

  /** Rows of a batch without idempotency keys go in iff their ids are new and distinct. */
  lemma {:induction false} PlainRowsFit(rows: map<Uuid, Notification>, batches: map<Uuid, nat>, batch: Uuid,
                                        ns: seq<Notification>)
    requires batch in batches && forall k :: 0 <= k < |ns| ==>
             ns[k].batchId == Some(batch) && ns[k].idempotencyKey.None?
    ensures AllFit(rows, batches, ns) <==> NewIds(rows, ns)
  {
    hide NewIds, AddRows;
    if ns == [] {
      NoIds(rows);
    } else {
      var init, last := ns[..|ns| - 1], ns[|ns| - 1];
      assert forall k :: 0 <= k < |init| ==> init[k] == ns[k];
      PlainRowsFit(rows, batches, batch, init);
      AddedKeys(rows, init);
      OneMoreId(rows, init, last);
      assert ns == init + [last];
    }
  }

  predicate NewIds(rows: map<Uuid, Notification>, ns: seq<Notification>) {
    && (forall k :: 0 <= k < |ns| ==> ns[k].id !in rows)
    && forall j, k :: 0 <= j < k < |ns| ==> ns[j].id != ns[k].id
  }

  lemma NoIds(rows: map<Uuid, Notification>)
    ensures NewIds(rows, [])
  {
  }

  lemma OneMoreId(rows: map<Uuid, Notification>, init: seq<Notification>, last: Notification)
    ensures NewIds(rows, init + [last]) <==>
            NewIds(rows, init) && last.id !in rows && forall j :: 0 <= j < |init| ==> init[j].id != last.id
  {
    var ns := init + [last];
    assert forall k :: 0 <= k < |init| ==> ns[k] == init[k];
    assert ns[|init|] == last;
  }

  lemma {:induction false} AddedKeys(rows: map<Uuid, Notification>, ns: seq<Notification>)
    ensures forall id :: id in AddRows(rows, ns) <==> id in rows || exists k :: 0 <= k < |ns| && ns[k].id == id
  {
    if ns != [] {
      var init := ns[..|ns| - 1];
      AddedKeys(rows, init);
      forall k | 0 <= k < |ns| ensures ns[k].id in AddRows(rows, ns) {
        if k < |ns| - 1 {
          assert init[k].id in AddRows(rows, init);
        }
      }
    }
  }

  datatype BatchSummary = BatchSummary(total: nat, pending: nat, delivered: nat, failed: nat, cancelled: nat)

  ghost function Summary(rows: map<Uuid, Notification>, total: nat, batch: Uuid): BatchSummary {
    BatchSummary(total, |WithStatus(rows, batch, Pending)|, |WithStatus(rows, batch, Delivered)|,
                 |WithStatus(rows, batch, Failed)|, |WithStatus(rows, batch, Cancelled)|)
  }

  lemma CountsRead(rows: map<Uuid, Notification>, batch: Uuid)
    ensures WithStatus(rows, batch, Pending)
            == set id | id in rows && rows[id].batchId == Some(batch) && rows[id].status.Pending?
    ensures WithStatus(rows, batch, Delivered)
            == set id | id in rows && rows[id].batchId == Some(batch) && rows[id].status.Delivered?
    ensures WithStatus(rows, batch, Failed)
            == set id | id in rows && rows[id].batchId == Some(batch) && rows[id].status.Failed?
    ensures WithStatus(rows, batch, Cancelled)
            == set id | id in rows && rows[id].batchId == Some(batch) && rows[id].status.Cancelled?
  {
  }

  /** SELECT status, COUNT(*) ... GROUP BY status: one row per status that occurs, in no particular order. */
  ghost predicate Groups(rows: map<Uuid, Notification>, batch: Uuid, groups: seq<(Status, nat)>) {
    && (forall j, k :: 0 <= j < k < |groups| ==> groups[j].0 != groups[k].0)
    && (forall k :: 0 <= k < |groups| ==> groups[k].1 == |WithStatus(rows, batch, groups[k].0)|)
    && forall status: Status :: (forall k :: 0 <= k < |groups| ==> groups[k].0 != status) ==>
       WithStatus(rows, batch, status) == {}
  }

  /** The last count reported for a status, 0 if there is none. */
  function Reported(groups: seq<(Status, nat)>, status: Status): nat {
    if groups == [] then 0
    else if groups[|groups| - 1].0 == status then groups[|groups| - 1].1
    else Reported(groups[..|groups| - 1], status)
  }

  lemma {:induction false} ReportedLast(groups: seq<(Status, nat)>, status: Status)
    ensures (forall k :: 0 <= k < |groups| ==> groups[k].0 != status) ==> Reported(groups, status) == 0
    ensures (exists k :: 0 <= k < |groups| && groups[k].0 == status) ==>
              exists k :: 0 <= k < |groups| && groups[k].0 == status && Reported(groups, status) == groups[k].1
  {
    if groups != [] {
      ReportedLast(groups[..|groups| - 1], status);
    }
  }

  lemma ReportedCount(rows: map<Uuid, Notification>, batch: Uuid, groups: seq<(Status, nat)>, status: Status)
    requires Groups(rows, batch, groups)
    ensures Reported(groups, status) == |WithStatus(rows, batch, status)|
  {
    ReportedLast(groups, status);
  }

  /** The rows of delivery_attempts, and the repository that appends to them and lists them. */
  class DeliveryAttemptsRepository {
    var log: seq<Attempt>

    constructor ()
      ensures log == []
    {
      log := [];
    }

    /** `known` says whether the row's notification exists: notification_id is a foreign key. */
    method RecordAttempt(a: Attempt, known: bool, fault: Fault) returns (err: bool)
      modifies this
      ensures err <==> fault.Reported() || !known
      ensures log == if fault.Applied() && known then old(log) + [a] else old(log)
    {
      if known && fault.Applied() {
        log := log + [a];
      }
      err := fault.Reported() || !known;
    }

    /** Exactly the notification's rows, ascending by number, rows of one number in the order they were recorded. */
    method ListAttempts(id: Uuid, fails: bool) returns (result: seq<Attempt>, err: bool)
      ensures err == fails && (err ==> result == [])
      ensures !err ==> Ascending(result) && multiset(result) == multiset(LogOf(log, id))
      ensures !err ==> forall number :: WithNumber(result, number) == WithNumber(LogOf(log, id), number)
    {
      hide ByNumber, LogOf, WithNumber;
      if fails {
        return [], true;
      }
      var rows := ByNumber(LogOf(log, id));
      ByNumberSorts(LogOf(log, id));
      result := [];
      for k := 0 to |rows|
        invariant result == rows[..k]
      {
        result := result + [rows[k]];
      }
      assert result == rows;
      err := false;
    }
  }

  /** The broker's queues behind a confirming publisher. */
  class Broker {
    var now: nat
    var entries: seq<Entry>

    constructor ()
      ensures now == 0 && entries == []
    {
      now, entries := 0, [];
    }

    method PublishToExchange(exchange: Exchange, key: string, headers: Headers, body: Body, fault: Fault)
      returns (err: bool)
      modifies this`entries
      ensures entries == old(entries) + Arrivals(now, exchange, Message(key, headers, body), fault)
      ensures err == fault.Reported()
    {
      var place := Route(exchange, key);
      if fault.Applied() && place.Some? {
        entries := entries + [Entry(place.value, Message(key, headers, body), now, Ready)];
      }
      err := fault.Reported();
    }

    /** basic.get with manual acknowledgement: the queue's front, if any, is handed out under a tag. */
    method Get(place: Place) returns (tag: nat, ok: bool)
      modifies this`entries
      ensures ok <==> tag < |old(entries)|
      ensures tag == Front(old(entries), place)
      ensures entries
              == if ok then old(entries)[tag := old(entries)[tag].(handling := Running(Enter))] else old(entries)
    {
      tag := Front(entries, place);
      ok := tag < |entries|;
      if ok {
        entries := entries[tag := entries[tag].(handling := Running(Enter))];
      }
    }

    method Ack(tag: nat)
      requires tag < |entries|
      modifies this`entries
      ensures entries == Remove(old(entries), tag)
    {
      entries := Remove(entries, tag);
    }

    /** The queues served here have no dead-letter exchange: a message refused without requeue is gone. */
    method Nack(tag: nat, requeue: bool)
      requires tag < |entries|
      modifies this`entries
      ensures entries
              == if requeue then old(entries)[tag := old(entries)[tag].(handling := Ready)]
                  else Remove(old(entries), tag)
    {
      entries := if requeue then entries[tag := entries[tag].(handling := Ready)] else Remove(entries, tag);
    }

    method QueueInspect(place: Place) returns (messages: nat)
      ensures messages == |Waiting(entries, place)|
    {
      messages := |Waiting(entries, place)|;
    }
  }

  class RetryPublisherAdapter {
    const pub: Broker

    constructor (pub: Broker)
      ensures this.pub == pub
    {
      this.pub := pub;
    }

    method PublishRetry(channel: string, priority: string, level: int, attempt: int, correlationId: string, body: Body,
                        fault: Fault)
      returns (err: bool)
      modifies pub`entries
      ensures pub.entries == old(pub.entries)
                             + Arrivals(pub.now, Retry,
                                 RetryMessage(channel, priority, level, attempt, correlationId, body), fault)
      ensures var key := channel + "." + (priority + "." + ("retry." + Itoa(level)));
              pub.entries
              == old(pub.entries)
                 + Arrivals(pub.now, Retry,
                     Message(key, Headers(Int32(AsInt32(attempt)), Text(correlationId), Absent, Text(channel)), body),
                     fault)
      ensures err == fault.Reported()
    {
      var key := channel + "." + (priority + "." + ("retry." + Itoa(level)));
      err := pub.PublishToExchange(Retry, key,
          Headers(Int32(AsInt32(attempt)), Text(correlationId), Absent, Text(channel)), body, fault);
    }

    method PublishDLQ(channel: string, attempt: int, correlationId: string, originalKey: string, body: Body,
                      fault: Fault)
      returns (err: bool)
      modifies pub`entries
      ensures pub.entries == old(pub.entries)
                             + Arrivals(pub.now, Dlq, DlqMessage(channel, attempt, correlationId, originalKey, body),
                                 fault)
      ensures var headers := Headers(Int32(AsInt32(attempt)), Text(correlationId), Text(originalKey), Text(channel));
              pub.entries == old(pub.entries) + Arrivals(pub.now, Dlq, Message(channel, headers, body), fault)
      ensures err == fault.Reported()
    {
      var headers := Headers(Int32(AsInt32(attempt)), Text(correlationId), Text(originalKey), Text(channel));
      err := pub.PublishToExchange(Dlq, channel, headers, body, fault);
    }
  }
}
