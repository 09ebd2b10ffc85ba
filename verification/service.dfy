/** The API side: creating notifications singly, idempotently and in batches, as code and as protocol steps. */
module Service {
  import opened Domain
  import opened Keys
  import opened Topology
  import opened Routing
  import opened World
  import opened Protocol
  import opened Placement
  import opened Stores
  import opened Rows

  /** `textOk`: recipient and content pass validation. */
  datatype CreateInput = CreateInput(
    recipient: string, channel: string, content: string, priority: string, correlationId: Uuid,
    batchId: Option<Uuid>, idempotencyKey: Option<string>, textOk: bool)

  datatype CreateError = Fine | InvalidInput | LookupFailed | InsertFailed | PublishFailed

  datatype BatchResult = Created(batch: Uuid, ns: seq<Notification>) | InvalidItem(index: nat) | BatchNotInserted

  function DefaultPriority(priority: string): string { if priority == "" then PRIORITY_NORMAL else priority }

  predicate Valid(input: CreateInput) {
    input.textOk && ValidChannel(input.channel) && ValidPriority(DefaultPriority(input.priority))
  }

  function RowOf(input: CreateInput, id: Uuid, now: int): Notification {
    Notification(id, input.recipient, input.channel, input.content, DefaultPriority(input.priority), Pending,
                 input.correlationId, input.batchId, input.idempotencyKey, now)
  }

  /** What is generated for one batch item: its id, and a correlation id in case it brings none. */
  datatype Generated = Generated(id: Uuid, correlationId: Uuid)

  function BatchRow(input: CreateInput, g: Generated, batch: Uuid, now: int): Notification {
    Notification(g.id, input.recipient, input.channel, input.content, DefaultPriority(input.priority), Pending,
                 if input.correlationId == 0 then g.correlationId else input.correlationId, Some(batch), None, now)
  }

  function BatchRows(items: seq<CreateInput>, gs: seq<Generated>, batch: Uuid, now: int): (ns: seq<Notification>)
    requires |gs| == |items|
    ensures |ns| == |items| && forall k :: 0 <= k < |items| ==> ns[k] == BatchRow(items[k], gs[k], batch, now)
  {
    seq(|items|, k requires 0 <= k < |items| => BatchRow(items[k], gs[k], batch, now))
  }

  /** One new pending row per item, holding what the item gives; every other row is as it was. */
  ghost predicate ItemsAdded(rows: map<Uuid, Notification>, rows': map<Uuid, Notification>, items: seq<CreateInput>,
                             gs: seq<Generated>, batch: Uuid, now: int)
    requires |gs| == |items|
  {
    && (forall id :: id in rows' <==> id in rows || exists k :: 0 <= k < |items| && gs[k].id == id)
    && (forall id :: id in rows ==> rows'[id] == rows[id])
    && (forall j, k :: 0 <= j < k < |items| ==> gs[j].id != gs[k].id)
    && forall k :: 0 <= k < |items| ==> gs[k].id !in rows && CarriesItem(rows'[gs[k].id], items[k], gs[k], batch, now)
  }

  predicate CarriesItem(row: Notification, item: CreateInput, g: Generated, batch: Uuid, now: int) {
    && row.id == g.id && row.createdAt == now && row.status.Pending?
    && row.recipient == item.recipient && row.channel == item.channel && row.content == item.content
    && row.priority == (if item.priority == "" then "normal" else item.priority)
    && row.correlationId == (if item.correlationId == 0 then g.correlationId else item.correlationId)
    && row.batchId == Some(batch) && row.idempotencyKey.None?
  }

  lemma BatchStored(rows: map<Uuid, Notification>, batches: map<Uuid, nat>, items: seq<CreateInput>,
                    gs: seq<Generated>, batch: Uuid, now: int)
    requires |gs| == |items| && Insertable(rows, batches, batch, BatchRows(items, gs, batch, now))
    ensures var ns := BatchRows(items, gs, batch, now);
            && ItemsAdded(rows, AddRows(rows, ns), items, gs, batch, now)
            && forall k :: 0 <= k < |items| ==> AddRows(rows, ns)[gs[k].id] == ns[k]
  {
    hide AllFit, AddRows, CarriesItem;
    var ns := BatchRows(items, gs, batch, now);
    PlainRowsFit(rows, batches[batch := |ns|], batch, ns);
    AddedKeys(rows, ns);
    Added(rows, ns);
    forall k | 0 <= k < |ns|
      ensures AddRows(rows, ns)[ns[k].id] == ns[k] && CarriesItem(ns[k], items[k], gs[k], batch, now)
    {
      AddedRow(rows, ns, k);
      RowCarries(items[k], gs[k], batch, now);
    }
  }

  lemma RowCarries(item: CreateInput, g: Generated, batch: Uuid, now: int)
    ensures CarriesItem(BatchRow(item, g, batch, now), item, g, batch, now)
  {
  }

  /** Each row published in turn; errors are only logged. */
  function PublishAll(w: World, ns: seq<Notification>, faults: seq<Fault>): World
    requires |faults| == |ns|
  {
    if ns == [] then w
    else
      var last := |ns| - 1;
      PublishStored(PublishAll(w, ns[..last], faults[..last]), ns[last], faults[last])
  }

  // ---------------------------------------------------------------- the service

  class NotificationService {
    const repo: NotificationRepository
    const publisher: Broker
    ghost var hist: seq<Event>
    /** The parts of the shared state that the API neither reads nor writes: TTLs, ledger, trail. */
    ghost const elsewhere: World

    constructor (repo: NotificationRepository, publisher: Broker, ghost elsewhere: World)
      ensures this.repo == repo && this.publisher == publisher && this.elsewhere == elsewhere && hist == []
    {
      this.repo, this.publisher, this.elsewhere, this.hist := repo, publisher, elsewhere, [];
    }

    ghost function Shared(): World
      reads this, repo, publisher
    {
      elsewhere.(now := publisher.now, rows := repo.rows, batches := repo.batches, entries := publisher.entries,
          hist := hist)
    }

    method PublishOne(n: Notification, fault: Fault) returns (err: bool)
      modifies this`hist, publisher`entries
      ensures Shared() == PublishStored(old(Shared()), n, fault) && err == fault.Reported()
    {
      hide Arrivals, RouteEvents, Route, RoutingKey, UuidText;
      var body := Encoded(MessageFrom(n));
      var headers := Headers(Absent, Text(UuidText(n.correlationId)), Absent, Absent);
      var key := RoutingKey(n.channel, n.priority);
      err := publisher.PublishToExchange(Notifications, key, headers, body, fault);
      ghost var routed := fault.Applied() && Route(Notifications, key).Some?;
      hist := hist + [Handed(n.id)] + (if routed then [Born(n.id)] else []) + RouteEvents(Notifications, key, fault);
    }

    /** Refused without a trace, or inserted and then handed to the broker exactly once. */
    method Create(input: CreateInput, id: Uuid, now: int, insert: Fault, publish: Fault)
      returns (n: Option<Notification>, err: CreateError)
      modifies this`hist, repo`rows, publisher`entries
      ensures err.InvalidInput? <==> !Valid(input)
      ensures err.InvalidInput? ==> Shared() == old(Shared())
      ensures err.InsertFailed? <==>
              Valid(input) && (insert.Reported() || !Fits(old(repo.rows), repo.batches, RowOf(input, id, now)))
      ensures err.InsertFailed? ==>
                Shared() == if insert.Applied() && Fits(old(repo.rows), repo.batches, RowOf(input, id, now))
                            then old(Shared()).(rows := old(repo.rows)[id := RowOf(input, id, now)]) else old(Shared())
      ensures err.Fine? || err.PublishFailed? ==>
                var row := RowOf(input, id, now);
                && Shared() == PublishStored(old(Shared()).(rows := old(repo.rows)[id := row]), row, publish)
                && (err.Fine? <==> publish.NoFault?) && n == if err.Fine? then Some(row) else None
      ensures !err.LookupFailed? && (!err.Fine? ==> n.None?)
      // the row, field by field
      ensures err.InvalidInput? <==>
              !(input.textOk && input.channel in ["email", "sms", "push"]
                && input.priority in ["", "high", "normal", "low"])
      ensures err.Fine? || err.PublishFailed? ==> id !in old(repo.rows) && id in repo.rows
      ensures id !in repo.rows || id in old(repo.rows) ==> repo.rows == old(repo.rows)
      ensures id in repo.rows && id !in old(repo.rows) ==>
                && (forall other :: other in repo.rows <==> other in old(repo.rows) || other == id)
                && (forall other :: other in old(repo.rows) ==> repo.rows[other] == old(repo.rows)[other])
                && var row := repo.rows[id];
                   && row.id == id && row.createdAt == now && row.status.Pending?
                   && row.recipient == input.recipient && row.channel == input.channel && row.content == input.content
                   && row.priority == (if input.priority == "" then "normal" else input.priority)
                   && row.correlationId == input.correlationId && row.batchId == input.batchId
                   && row.idempotencyKey == input.idempotencyKey
                   && (err.Fine? ==> n == Some(row))
    {
      hide PublishStored;
      var priority := if input.priority == "" then PRIORITY_NORMAL else input.priority;
      var row := Notification(id, input.recipient, input.channel, input.content, priority, Pending, input.correlationId,
                              input.batchId, input.idempotencyKey, now);
      if !(input.textOk && ValidChannel(row.channel) && ValidPriority(row.priority)) {
        return None, InvalidInput;
      }
      var insertErr := repo.Insert(row, insert);
      if !insertErr.NoError? {
        return None, InsertFailed;
      }
      var publishErr := PublishOne(row, publish);
      if publishErr {
        return None, PublishFailed;
      }
      return Some(row), Fine;
    }

    /** A key that is already stored is answered with its row, and nothing happens; otherwise the row is created
        under it. */
    method CreateWithIdempotency(input: CreateInput, key: string, id: Uuid, now: int, lookup: Fault, insert: Fault,
                                 publish: Fault)
      returns (n: Option<Notification>, replayed: bool, err: CreateError)
      modifies this`hist, repo`rows, publisher`entries
      ensures replayed <==> !lookup.Reported() && !KeyFree(old(repo.rows), Some(key))
      ensures replayed ==>
              err.Fine? && n.Some? && n.value in old(repo.rows).Values && n.value.idempotencyKey == Some(key)
      ensures err.LookupFailed? <==> lookup.Reported()
      ensures replayed || err.LookupFailed? || err.InvalidInput? ==> Shared() == old(Shared())
      ensures !replayed && !err.LookupFailed? ==>
                var keyed := input.(idempotencyKey := Some(key));
                var row := RowOf(keyed, id, now);
                var fits := Fits(old(repo.rows), repo.batches, row);
                var stored := old(Shared()).(rows := old(repo.rows)[id := row]);
                && (err.InvalidInput? <==> !Valid(keyed))
                && (err.InsertFailed? <==> Valid(keyed) && (insert.Reported() || !fits))
                && (err.InsertFailed? ==> Shared() == if insert.Applied() && fits then stored else old(Shared()))
                && (err.Fine? || err.PublishFailed? ==>
                      Shared() == PublishStored(stored, row, publish) && (err.Fine? <==> publish.NoFault?))
                && n == if err.Fine? then Some(row) else None
      ensures !err.Fine? ==> n.None?
      ensures id !in repo.rows || id in old(repo.rows) ==> repo.rows == old(repo.rows)
      ensures id in repo.rows && id !in old(repo.rows) ==>
                && (forall other :: other in repo.rows <==> other in old(repo.rows) || other == id)
                && (forall other :: other in old(repo.rows) ==> repo.rows[other] == old(repo.rows)[other])
                && var row := repo.rows[id];
                   && row.id == id && row.createdAt == now && row.status.Pending?
                   && row.recipient == input.recipient && row.channel == input.channel && row.content == input.content
                   && row.priority == (if input.priority == "" then "normal" else input.priority)
                   && row.correlationId == input.correlationId && row.batchId == input.batchId
                   && row.idempotencyKey == Some(key)
                   && (err.Fine? && !replayed ==> n == Some(row))
    {
      hide Fits, PublishStored, KeyFree, Valid;
      var existing, lookupErr := repo.GetByIdempotencyKey(key, lookup);
      if lookupErr.NoError? {
        return existing, true, Fine;
      }
      if !lookupErr.NotFound? {
        return None, false, LookupFailed;
      }
      replayed := false;
      n, err := Create(input.(idempotencyKey := Some(key)), id, now, insert, publish);
    }

    /** All rows or none; publishing starts only after the commit, and its errors do not undo it. */
    method CreateBatch(items: seq<CreateInput>, batch: Uuid, gs: seq<Generated>, now: int, insert: Fault,
                       faults: seq<Fault>)
      returns (r: BatchResult)
      requires |gs| == |items| == |faults|
      modifies this`hist, repo, publisher`entries
      ensures r.InvalidItem? <==> exists k :: 0 <= k < |items| && !Valid(items[k])
      ensures r.InvalidItem? ==>
                && r.index < |items| && !Valid(items[r.index]) && (forall k :: 0 <= k < r.index ==> Valid(items[k]))
                && Shared() == old(Shared())
      ensures var ns := BatchRows(items, gs, batch, now);
              var fits := Insertable(old(repo.rows), old(repo.batches), batch, ns);
              var inserted := old(Shared()).(rows := AddRows(old(repo.rows), ns),
                  batches := old(repo.batches)[batch := |ns|]);
              && (r.BatchNotInserted? ==> (insert.Reported() || !fits)
                                          && Shared() == if fits && insert.Applied() then inserted else old(Shared()))
              && (r.Created? ==>
                 fits && insert.NoFault? && r == Created(batch, ns) && Shared() == PublishAll(inserted, ns, faults))
      // the rows, field by field
      ensures r.InvalidItem? <==>
              exists k :: 0 <= k < |items|
                          && !(items[k].textOk && items[k].channel in ["email", "sms", "push"]
                               && items[k].priority in ["", "high", "normal", "low"])
      ensures repo.batches == old(repo.batches) ==> repo.rows == old(repo.rows)
      ensures repo.batches != old(repo.batches) ==>
                && batch !in old(repo.batches) && repo.batches == old(repo.batches)[batch := |items|]
                && ItemsAdded(old(repo.rows), repo.rows, items, gs, batch, now)
      ensures r.Created? ==>
                && repo.batches != old(repo.batches) && r.batch == batch && |r.ns| == |items|
                && forall k :: 0 <= k < |items| ==> repo.rows[gs[k].id] == r.ns[k]
    {
      hide AllFit, PublishStored, Valid, AddRows, BatchRow, Publish, ItemsAdded;
      ItemsRead(items);
      var ns := [];
      for k := 0 to |items|
        invariant ns == BatchRows(items, gs, batch, now)[..k]
        invariant forall j :: 0 <= j < k ==> Valid(items[j])
        invariant Shared() == old(Shared())
      {
        var n := ItemRow(items[k], gs[k], batch, now);
        if n.None? {
          return InvalidItem(k);
        }
        ns := ns + [n.value];
      }
      assert ns == BatchRows(items, gs, batch, now);
      if Insertable(repo.rows, repo.batches, batch, ns) {
        BatchStored(repo.rows, repo.batches, items, gs, batch, now);
      }
      var err := repo.InsertBatch(batch, ns, insert);
      if !err.NoError? {
        return BatchNotInserted;
      }
      ghost var inserted := Shared();
      for k := 0 to |ns|
        invariant Shared() == PublishAll(inserted, ns[..k], faults[..k])
        invariant repo.rows == inserted.rows && repo.batches == inserted.batches
      {
        assert ns[..k + 1][..k] == ns[..k] && faults[..k + 1][..k] == faults[..k];
        var _ := PublishOne(ns[k], faults[k]);
      }
      assert ns[..|ns|] == ns && faults[..|ns|] == faults;
      return Created(batch, ns);
    }

    static lemma ItemsRead(items: seq<CreateInput>)
      ensures forall k :: 0 <= k < |items| ==>
                (Valid(items[k]) <==> items[k].textOk && items[k].channel in ["email", "sms", "push"]
                                      && items[k].priority in ["", "high", "normal", "low"])
    {
    }

    /** One item's row, or None if it does not validate. */
    static method ItemRow(input: CreateInput, g: Generated, batch: Uuid, now: int) returns (n: Option<Notification>)
      ensures n == if Valid(input) then Some(BatchRow(input, g, batch, now)) else None
    {
      var priority := if input.priority == "" then PRIORITY_NORMAL else input.priority;
      var correlationId := if input.correlationId == 0 then g.correlationId else input.correlationId;
      if !(input.textOk && ValidChannel(input.channel) && ValidPriority(priority)) {
        return None;
      }
      return Some(Notification(g.id, input.recipient, input.channel, input.content, priority, Pending, correlationId,
                               Some(batch), None, now));
    }
  }

  // ---------------------------------------------------------------- as protocol steps

  /** A created row is one the protocol's Insert step admits. */
  lemma CreateIsRun(w: World, input: CreateInput, id: Uuid, now: int, publish: Fault)
    requires Inv(w) && Valid(input) && input.batchId.None? && Fits(w.rows, w.batches, RowOf(input, id, now))
    ensures var row := RowOf(input, id, now);
            Taken(w, [Insert(row)] + [PublishRow(id, publish)])
            == Some(PublishStored(w.(rows := w.rows[id := row]), row, publish))
  {
    hide PublishStored, Inv, Taken, Next, KeyFree, ValidChannel, ValidPriority;
    var row := RowOf(input, id, now);
    NotHanded(w, id);
    InsertStep(w, row);
    TakeOne(w, Insert(row), [PublishRow(id, publish)]);
    var w1 := w.(rows := w.rows[id := row]);
    PublishRowStep(w1, id, publish);
    TakeLast(w1, PublishRow(id, publish));
  }

  lemma InsertStep(w: World, n: Notification)
    requires FreshRow(w, n) && n.batchId.None?
    ensures Enabled(w, Insert(n)) && Next(w, Insert(n)) == w.(rows := w.rows[n.id := n])
  {
  }

  lemma PublishRowStep(w: World, id: Uuid, fault: Fault)
    requires id in w.rows && Handed(id) !in w.hist
    ensures Enabled(w, PublishRow(id, fault)) && Next(w, PublishRow(id, fault)) == PublishStored(w, w.rows[id], fault)
  {
  }

  /** Only stored rows have been handed to the broker. */
  lemma NotHanded(w: World, id: Uuid)
    requires Inv(w) && id !in w.rows
    ensures Handed(id) !in w.hist
  {
    forall k | 0 <= k < |w.hist| ensures w.hist[k] != Handed(id) {
      assert EventOk(w.rows, w.hist[k]);
    }
  }

  function PublishSteps(ns: seq<Notification>, faults: seq<Fault>): seq<Step>
    requires |faults| == |ns|
  {
    seq(|ns|, k requires 0 <= k < |ns| => PublishRow(ns[k].id, faults[k]))
  }

  lemma StoredTables(w: World, n: Notification, fault: Fault)
    ensures var w' := PublishStored(w, n, fault);
            w'.rows == w.rows && forall id :: id != n.id && Handed(id) !in w.hist ==> Handed(id) !in w'.hist
  {
    hide FirstMessage, Arrivals, Route;
  }

  lemma {:induction false} PublishAllIsRun(w: World, ns: seq<Notification>, faults: seq<Fault>)
    requires |faults| == |ns| && (forall j, k :: 0 <= j < k < |ns| ==> ns[j].id != ns[k].id)
    requires forall k :: 0 <= k < |ns| ==>
             ns[k].id in w.rows && w.rows[ns[k].id] == ns[k] && Handed(ns[k].id) !in w.hist
    ensures Taken(w, PublishSteps(ns, faults)) == Some(PublishAll(w, ns, faults))
    ensures PublishAll(w, ns, faults).rows == w.rows
    ensures forall id :: Handed(id) !in w.hist && (forall k :: 0 <= k < |ns| ==> ns[k].id != id) ==>
              Handed(id) !in PublishAll(w, ns, faults).hist
    decreases |ns|
  {
    hide PublishStored, Next, Enabled;
    if ns != [] {
      var last := |ns| - 1;
      var init := ns[..last];
      assert forall k :: 0 <= k < last ==> init[k] == ns[k];
      PublishAllIsRun(w, init, faults[..last]);
      var w1 := PublishAll(w, init, faults[..last]);
      StoredTables(w1, ns[last], faults[last]);
      PublishRowStep(w1, ns[last].id, faults[last]);
      var s := PublishRow(ns[last].id, faults[last]);
      TakeLast(w1, s);
      TakeConcat(w, PublishSteps(init, faults[..last]), [s]);
      assert PublishSteps(ns, faults) == PublishSteps(init, faults[..last]) + [s];
    }
  }

  /** The ids handed to the broker, in order. */
  function HandedIds(hist: seq<Event>): seq<Uuid> {
    if hist == [] then []
    else
      var last := hist[|hist| - 1];
      HandedIds(hist[..|hist| - 1]) + if last.Handed? then [last.id] else []
  }

  lemma {:induction false} HandedConcat(a: seq<Event>, b: seq<Event>)
    ensures HandedIds(a + b) == HandedIds(a) + HandedIds(b)
  {
    if b == [] {
      assert a + b == a;
    } else {
      assert (a + b)[..|a + b| - 1] == a + b[..|b| - 1];
      HandedConcat(a, b[..|b| - 1]);
    }
  }

  lemma OneHanded(w: World, n: Notification, fault: Fault)
    ensures HandedIds(PublishStored(w, n, fault).hist) == HandedIds(w.hist) + [n.id]
  {
    hide FirstMessage, Arrivals, Route, RoutingKey;
    var routed := fault.Applied() && Route(Notifications, RoutingKey(n.channel, n.priority)).Some?;
    var first, born := [Handed(n.id)], if routed then [Born(n.id)] else [];
    var rest := RouteEvents(Notifications, FirstMessage(n).key, fault);
    assert PublishStored(w, n, fault).hist == w.hist + first + born + rest;
    HandedConcat(w.hist + first + born, rest);
    HandedConcat(w.hist + first, born);
    HandedConcat(w.hist, first);
    assert first[..0] == [] && HandedIds(first) == [n.id];
    assert born != [] ==> born[..0] == [] && HandedIds(born) == [];
    assert rest != [] ==> rest[..0] == [] && HandedIds(rest) == [];
  }

  /** The copy a row is delivered from: in its lane's queue, first attempt, with what the row holds. */
  predicate CopyOf(e: Entry, n: Notification) {
    && e.place == Main(Lane(n.channel, n.priority)) && e.handling.Ready? && AttemptOf(e.msg) == 0
    && e.msg.headers.correlationId == Text(UuidText(n.correlationId))
    && e.msg.body.Encoded? && e.msg.body.msg == MessageFrom(n)
  }

  lemma OneArrives(w: World, n: Notification, fault: Fault)
    requires ValidLane(Lane(n.channel, n.priority))
    ensures var entries := PublishStored(w, n, fault).entries;
            if fault.Applied() then |entries| == |w.entries| + 1 && entries[..|w.entries|] == w.entries
                                    && CopyOf(entries[|w.entries|], n)
            else entries == w.entries
  {
    hide RoutingKey, Route, UuidText;
    LaneRoutes(Lane(n.channel, n.priority), 1);
  }

  /** The rows are handed to the broker in the order of the batch, whatever errors are reported; without lost
      publishes the queues gain one copy of each, in that order. */
  lemma {:induction false} PublishAllInOrder(w: World, ns: seq<Notification>, faults: seq<Fault>)
    requires |faults| == |ns|
    requires forall k :: 0 <= k < |ns| ==> ValidLane(Lane(ns[k].channel, ns[k].priority))
    ensures HandedIds(PublishAll(w, ns, faults).hist)
            == HandedIds(w.hist) + seq(|ns|, k requires 0 <= k < |ns| => ns[k].id)
    ensures (forall k :: 0 <= k < |ns| ==> faults[k].Applied()) ==>
              var entries := PublishAll(w, ns, faults).entries;
              && |entries| == |w.entries| + |ns| && entries[..|w.entries|] == w.entries
              && forall k :: 0 <= k < |ns| ==> CopyOf(entries[|w.entries| + k], ns[k])
    decreases |ns|
  {
    hide PublishStored, HandedIds, CopyOf, ValidLane;
    if ns != [] {
      var last := |ns| - 1;
      var init := ns[..last];
      PublishAllInOrder(w, init, faults[..last]);
      var w1 := PublishAll(w, init, faults[..last]);
      OneHanded(w1, ns[last], faults[last]);
      OneArrives(w1, ns[last], faults[last]);
      assert seq(|ns|, k requires 0 <= k < |ns| => ns[k].id)
             == seq(last, k requires 0 <= k < last => init[k].id) + [ns[last].id];
    }
  }

  lemma {:induction false} AddedRow(rows: map<Uuid, Notification>, ns: seq<Notification>, k: nat)
    requires k < |ns| && forall i, j :: 0 <= i < j < |ns| ==> ns[i].id != ns[j].id
    ensures ns[k].id in AddRows(rows, ns) && AddRows(rows, ns)[ns[k].id] == ns[k]
  {
    if k < |ns| - 1 {
      AddedRow(rows, ns[..|ns| - 1], k);
    }
  }

  /** A validated batch that the tables admit is a batch the protocol's InsertBatch step admits. */
  lemma BatchIsFresh(w: World, items: seq<CreateInput>, gs: seq<Generated>, batch: Uuid, now: int)
    requires |gs| == |items| && forall k :: 0 <= k < |items| ==> Valid(items[k])
    ensures var ns := BatchRows(items, gs, batch, now);
            Insertable(w.rows, w.batches, batch, ns) <==> FreshBatch(w, batch, ns)
  {
    hide ValidChannel, ValidPriority;
    var ns := BatchRows(items, gs, batch, now);
    PlainRowsFit(w.rows, w.batches[batch := |ns|], batch, ns);
    forall k | 0 <= k < |ns| && ns[k].id !in w.rows ensures FreshRow(w, ns[k]) {
      assert Valid(items[k]);
    }
  }

  /** What CreateBatch leaves after a commit is what the protocol's batch insert followed by one publish per row
      leaves. */
  lemma CreateBatchIsRun(w: World, batch: Uuid, ns: seq<Notification>, faults: seq<Fault>)
    requires Inv(w) && FreshBatch(w, batch, ns) && |faults| == |ns|
    ensures Taken(w, [InsertBatch(batch, ns)] + PublishSteps(ns, faults))
            == Some(PublishAll(w.(rows := AddRows(w.rows, ns), batches := w.batches[batch := |ns|]), ns, faults))
  {
    hide Inv, PublishAll, Taken, PublishSteps, FreshRow;
    var w1 := w.(rows := AddRows(w.rows, ns), batches := w.batches[batch := |ns|]);
    TakeOne(w, InsertBatch(batch, ns), PublishSteps(ns, faults));
    forall k | 0 <= k < |ns| ensures ns[k].id in w1.rows && w1.rows[ns[k].id] == ns[k] && Handed(ns[k].id) !in w.hist {
      AddedRow(w.rows, ns, k);
      FreshIsNew(w, ns[k]);
      NotHanded(w, ns[k].id);
    }
    PublishAllIsRun(w1, ns, faults);
  }

  lemma FreshIsNew(w: World, n: Notification)
    requires FreshRow(w, n)
    ensures n.id !in w.rows
  {
  }

  /** In every reachable state the four counts of a batch summary add up to its total. */
  lemma SummaryAddsUp(ttls: RetryTTLs, ws: seq<World>, steps: seq<Step>, k: nat, batch: Uuid)
    requires IsRun(ttls, ws, steps) && k < |ws| && batch in ws[k].batches
    ensures var s := Summary(ws[k].rows, ws[k].batches[batch], batch);
            s.pending + s.delivered + s.failed + s.cancelled == s.total
  {
    hide IsRun, WithStatus, BatchesCounted;
    BatchConservation(ttls, ws, steps, k);
  }
}
