/** Concurrent idempotent creates: lookup, insert and publish of any number of requests, interleaved in any order. */
module Idempotency {
  import opened Domain
  import opened Stores
  import opened Service

  datatype Answer =
    | Replayed(n: Notification)
    | CreatedRow(n: Notification)
    | Refused(err: CreateError)
    | Lost                        // the server died: no answer at all

  datatype Phase = Looking | Missed | Stored | Answered(answer: Answer)

  /** One call of CreateWithIdempotency under way; `id` and `now` are what it would create its row with. */
  datatype Request = Request(key: string, input: CreateInput, id: Uuid, now: int, phase: Phase) {
    function Row(): Notification { RowOf(input.(idempotencyKey := Some(key)), id, now) }
  }

  /** The tables, the ids handed to the broker by keyed requests, and the requests. */
  datatype Api = Api(rows: map<Uuid, Notification>, batches: map<Uuid, nat>, handed: seq<Uuid>, requests: seq<Request>)

  datatype Step =
    | Arrive(key: string, input: CreateInput, id: Uuid, now: int)
    | Lookup(r: nat, fault: Fault)
    | InsertRow(r: nat, fault: Fault)
    | Hand(r: nat, fault: Fault)
    | Die(r: nat)
    | Plain(n: Notification)                  // a row created without a key, by anyone
    | SetStatus(id: Uuid, status: Status)     // deliveries, failures and cancellations

  ghost function RowWithKey(rows: map<Uuid, Notification>, key: string): (n: Notification)
    requires !KeyFree(rows, Some(key))
    ensures n in rows.Values && n.idempotencyKey == Some(key)
  {
    var id :| id in rows && rows[id].idempotencyKey == Some(key);
    rows[id]
  }

  function SetPhase(a: Api, r: nat, phase: Phase): Api
    requires r < |a.requests|
  {
    a.(requests := a.requests[r := a.requests[r].(phase := phase)])
  }

  predicate InPhase(a: Api, r: nat, phase: Phase) { r < |a.requests| && a.requests[r].phase == phase }

  predicate Enabled(a: Api, s: Step) {
    match s
    case Arrive(_, _, _, _) => true
    case Lookup(r, _) => InPhase(a, r, Looking)
    case InsertRow(r, _) => InPhase(a, r, Missed)
    case Hand(r, _) => InPhase(a, r, Stored)
    case Die(r) => r < |a.requests| && !a.requests[r].phase.Answered?
    case Plain(n) => n.idempotencyKey.None? && Fits(a.rows, a.batches, n)
    case SetStatus(id, _) => id in a.rows
  }

  ghost function Next(a: Api, s: Step): Api
    requires Enabled(a, s)
  {
    match s
    case Arrive(key, input, id, now) => a.(requests := a.requests + [Request(key, input, id, now, Looking)])
    case Lookup(r, fault) =>
      var key := a.requests[r].key;
      SetPhase(a, r, if fault.Reported() then Answered(Refused(LookupFailed))
                     else if KeyFree(a.rows, Some(key)) then Missed
                     else Answered(Replayed(RowWithKey(a.rows, key))))
    case InsertRow(r, fault) =>
      var q := a.requests[r];
      if !Valid(q.input) then SetPhase(a, r, Answered(Refused(InvalidInput)))
      else
        var fits := Fits(a.rows, a.batches, q.Row());
        var a' := if fits && fault.Applied() then a.(rows := a.rows[q.id := q.Row()]) else a;
        SetPhase(a', r, if fits && !fault.Reported() then Stored else Answered(Refused(InsertFailed)))
    case Hand(r, fault) =>
      var q := a.requests[r];
      SetPhase(a.(handed := a.handed + [q.id]), r,
               Answered(if fault.Reported() then Refused(PublishFailed) else CreatedRow(q.Row())))
    case Die(r) => SetPhase(a, r, Answered(Lost))
    case Plain(n) => a.(rows := a.rows[n.id := n])
    case SetStatus(id, status) => a.(rows := a.rows[id := a.rows[id].(status := status)])
  }

  ghost predicate IsRun(batches: map<Uuid, nat>, apis: seq<Api>, steps: seq<Step>) {
    && |apis| == |steps| + 1
    && apis[0] == Api(map[], batches, [], [])
    && forall k :: 0 <= k < |steps| ==> Enabled(apis[k], steps[k]) && apis[k + 1] == Next(apis[k], steps[k])
  }

  // ---------------------------------------------------------------- the invariant

  ghost predicate Keyed(rows: map<Uuid, Notification>, id: Uuid, key: string) {
    id in rows && rows[id].idempotencyKey == Some(key)
  }

  ghost predicate OneRowPerKey(rows: map<Uuid, Notification>) {
    forall key, i, j :: Keyed(rows, i, key) && Keyed(rows, j, key) ==> i == j
  }

  /** n is the stored row of that key, but for its status. */
  ghost predicate IsRowOf(rows: map<Uuid, Notification>, n: Notification, key: string) {
    Keyed(rows, n.id, key) && rows[n.id] == n.(status := rows[n.id].status)
  }

  ghost predicate RequestOk(a: Api, q: Request) {
    && (q.phase.Stored? ==> IsRowOf(a.rows, q.Row(), q.key) && q.id !in a.handed)
    && (q.phase.Answered? && q.phase.answer.Replayed? ==> IsRowOf(a.rows, q.phase.answer.n, q.key))
    && (q.phase.Answered? && q.phase.answer.CreatedRow? ==>
       IsRowOf(a.rows, q.phase.answer.n, q.key) && q.phase.answer.n.id in a.handed)
  }

  ghost predicate Inv(a: Api) {
    && (forall id :: id in a.rows ==> a.rows[id].id == id)
    && OneRowPerKey(a.rows)
    && (forall k :: 0 <= k < |a.handed| ==> a.handed[k] in a.rows)
    && (forall j, k :: 0 <= j < k < |a.handed| ==> a.handed[j] != a.handed[k])
    && (forall r :: 0 <= r < |a.requests| ==> RequestOk(a, a.requests[r]))
    && forall q, r :: 0 <= q < r < |a.requests| && a.requests[q].phase.Stored? && a.requests[r].phase.Stored? ==>
         a.requests[q].id != a.requests[r].id
  }

  /** Rows stay, with everything but their status. */
  ghost predicate Grows(rows: map<Uuid, Notification>, rows': map<Uuid, Notification>) {
    forall id :: id in rows ==> id in rows' && rows'[id] == rows[id].(status := rows'[id].status)
  }

  lemma RowsGrow(a: Api, s: Step)
    requires Enabled(a, s)
    ensures Grows(a.rows, Next(a, s).rows)
  {
  }

  /** A row under a free key, or under none, keeps the index unique. */
  lemma KeyStaysUnique(rows: map<Uuid, Notification>, n: Notification)
    requires OneRowPerKey(rows) && n.id !in rows && KeyFree(rows, n.idempotencyKey)
    ensures OneRowPerKey(rows[n.id := n])
  {
    var rows' := rows[n.id := n];
    forall key, i, j | Keyed(rows', i, key) && Keyed(rows', j, key) ensures i == j {
      if i != n.id && j != n.id {
        assert Keyed(rows, i, key) && Keyed(rows, j, key);
      }
    }
  }

  lemma SameKeys(rows: map<Uuid, Notification>, rows': map<Uuid, Notification>)
    requires OneRowPerKey(rows) && Grows(rows, rows') && rows'.Keys == rows.Keys
    ensures OneRowPerKey(rows')
  {
    forall key, i, j | Keyed(rows', i, key) && Keyed(rows', j, key) ensures i == j {
      assert Keyed(rows, i, key) && Keyed(rows, j, key);
    }
  }

  /** What a request has been told stays true while rows only grow and handed ids only accrue. */
  lemma RequestStays(a: Api, a': Api, q: Request)
    requires RequestOk(a, q) && Grows(a.rows, a'.rows) && a.handed <= a'.handed
    requires q.phase.Stored? ==> q.id !in a'.handed
    ensures RequestOk(a', q)
  {
  }

  lemma StepRows(a: Api, s: Step)
    requires Inv(a) && Enabled(a, s)
    ensures OneRowPerKey(Next(a, s).rows)
    ensures forall id :: id in Next(a, s).rows ==> Next(a, s).rows[id].id == id
  {
    hide OneRowPerKey, RequestOk, Keyed, KeyFree, Valid;
    match s
    case InsertRow(r, fault) =>
      var q := a.requests[r];
      if Fits(a.rows, a.batches, q.Row()) {
        KeyStaysUnique(a.rows, q.Row());
      }
    case Plain(n) => KeyStaysUnique(a.rows, n);
    case SetStatus(id, status) => SameKeys(a.rows, Next(a, s).rows);
    case _ =>
  }

  /** The request a step belongs to comes out right. */
  lemma OwnRequest(a: Api, s: Step, r: nat)
    requires Inv(a) && Enabled(a, s) && r < |a.requests| && Next(a, s).requests[r] != a.requests[r]
    ensures RequestOk(Next(a, s), Next(a, s).requests[r])
  {
    hide OneRowPerKey, Valid;
    assert RequestOk(a, a.requests[r]);
    match s
    case Lookup(_, fault) =>
      var key := a.requests[r].key;
      if !KeyFree(a.rows, Some(key)) {
        var n := RowWithKey(a.rows, key);
        assert IsRowOf(a.rows, n, key);
      }
    case InsertRow(_, fault) =>
      if Fits(a.rows, a.batches, a.requests[r].Row()) && !fault.Reported() && Valid(a.requests[r].input) {
        assert a.requests[r].id !in a.handed;
      }
    case Hand(_, _) =>
      var handed := a.handed + [a.requests[r].id];
      assert handed[|a.handed|] == a.requests[r].id;
    case _ =>
  }

  /** A request that just stored its row is alone with that id; one that hands its id over was. */
  lemma StoredApart(a: Api, s: Step, q: nat, r: nat)
    requires Inv(a) && Enabled(a, s) && q < |Next(a, s).requests| && r < |Next(a, s).requests| && q != r
    requires Next(a, s).requests[q].phase.Stored? && Next(a, s).requests[r].phase.Stored?
    ensures Next(a, s).requests[q].id != Next(a, s).requests[r].id
  {
    hide Inv, Valid, KeyFree;
    StoredHaveRows(a);
  }

  lemma StoredHaveRows(a: Api)
    requires Inv(a)
    ensures forall q :: 0 <= q < |a.requests| && a.requests[q].phase.Stored? ==> a.requests[q].id in a.rows
    ensures forall q, r :: 0 <= q < |a.requests| && 0 <= r < |a.requests| && q != r ==>
              !a.requests[q].phase.Stored? || !a.requests[r].phase.Stored? || a.requests[q].id != a.requests[r].id
  {
    hide OneRowPerKey;
    forall q | 0 <= q < |a.requests| && a.requests[q].phase.Stored? ensures a.requests[q].id in a.rows {
      assert RequestOk(a, a.requests[q]);
    }
  }

  lemma StepKeeps(a: Api, s: Step)
    requires Inv(a) && Enabled(a, s)
    ensures Inv(Next(a, s))
  {
    hide OneRowPerKey, Next, RequestOk;
    var a' := Next(a, s);
    StepRows(a, s);
    RowsGrow(a, s);
    StepHanded(a, s);
    StepShape(a, s);
    forall r | 0 <= r < |a'.requests| ensures RequestOk(a', a'.requests[r]) {
      if r >= |a.requests| {
        NewcomerOk(a', a'.requests[r]);
      } else if a'.requests[r] != a.requests[r] {
        OwnRequest(a, s, r);
      } else {
        StillApart(a, s, r);
        RequestStays(a, a', a.requests[r]);
      }
    }
    forall q, r | 0 <= q < r < |a'.requests| && a'.requests[q].phase.Stored? && a'.requests[r].phase.Stored?
      ensures a'.requests[q].id != a'.requests[r].id
    {
      StoredApart(a, s, q, r);
    }
  }

  lemma NewcomerOk(a: Api, q: Request)
    requires q.phase.Looking?
    ensures RequestOk(a, q)
  {
  }

  lemma StepShape(a: Api, s: Step)
    requires Enabled(a, s)
    ensures |a.requests| <= |Next(a, s).requests|
    ensures forall r :: |a.requests| <= r < |Next(a, s).requests| ==> Next(a, s).requests[r].phase.Looking?
  {
  }

  lemma StepHanded(a: Api, s: Step)
    requires Inv(a) && Enabled(a, s)
    ensures var handed := Next(a, s).handed;
            && a.handed <= handed
            && (forall k :: 0 <= k < |handed| ==> handed[k] in Next(a, s).rows)
            && forall j, k :: 0 <= j < k < |handed| ==> handed[j] != handed[k]
  {
    hide OneRowPerKey, Valid, KeyFree;
    if s.Hand? {
      assert RequestOk(a, a.requests[s.r]);
    }
  }

  /** Another request's hand-over does not touch this one's stored row. */
  lemma StillApart(a: Api, s: Step, r: nat)
    requires Inv(a) && Enabled(a, s) && r < |a.requests| && Next(a, s).requests[r] == a.requests[r]
    ensures a.requests[r].phase.Stored? ==> a.requests[r].id !in Next(a, s).handed
  {
    hide OneRowPerKey, Valid, KeyFree;
    assert RequestOk(a, a.requests[r]);
  }

  lemma {:induction false} RunKeeps(batches: map<Uuid, nat>, apis: seq<Api>, steps: seq<Step>, k: nat)
    requires IsRun(batches, apis, steps) && k < |apis|
    ensures Inv(apis[k])
  {
    hide Next, Enabled, Inv;
    if k == 0 {
      EmptyInv(batches);
    } else {
      RunKeeps(batches, apis, steps, k - 1);
      StepKeeps(apis[k - 1], steps[k - 1]);
    }
  }

  lemma EmptyInv(batches: map<Uuid, nat>)
    ensures Inv(Api(map[], batches, [], []))
  {
  }

  // ---------------------------------------------------------------- what every interleaving keeps

  /** The caller was given a row. */
  predicate Served(q: Request) { q.phase.Answered? && (q.phase.answer.Replayed? || q.phase.answer.CreatedRow?) }

  /** However requests interleave, a key has at most one row, its row is handed to the broker at most once, every caller
      served under that key was given that one row, and being told `created` means it has been handed over. */
  lemma OneRowOneCall(batches: map<Uuid, nat>, apis: seq<Api>, steps: seq<Step>, k: nat, key: string)
    requires IsRun(batches, apis, steps) && k < |apis|
    ensures var a := apis[k];
            && (forall i, j :: Keyed(a.rows, i, key) && Keyed(a.rows, j, key) ==> i == j)
            && (forall i, j :: 0 <= i < j < |a.handed| ==>
                  !Keyed(a.rows, a.handed[i], key) || !Keyed(a.rows, a.handed[j], key))
            && (forall r :: 0 <= r < |a.requests| && a.requests[r].key == key && Served(a.requests[r]) ==>
                  IsRowOf(a.rows, a.requests[r].phase.answer.n, key))
            && (forall r ::
                  0 <= r < |a.requests| && a.requests[r].phase.Answered? && a.requests[r].phase.answer.CreatedRow? ==>
                  a.requests[r].phase.answer.n.id in a.handed)
  {
    hide IsRun, Keyed, IsRowOf;
    RunKeeps(batches, apis, steps, k);
    var a := apis[k];
    forall r | 0 <= r < |a.requests| ensures RequestOk(a, a.requests[r]) {}
  }

  /** A racer that found the key free, but comes second, is refused: it neither stores nor publishes. */
  lemma LoserRefused(a: Api, r: nat, fault: Fault)
    requires Enabled(a, InsertRow(r, fault)) && !KeyFree(a.rows, Some(a.requests[r].key))
    ensures var a' := Next(a, InsertRow(r, fault));
            && a'.rows == a.rows && a'.handed == a.handed
            && a'.requests[r].phase.Answered? && a'.requests[r].phase.answer.Refused?
  {
  }

  lemma AnswerStays(a: Api, s: Step, r: nat)
    requires Enabled(a, s) && r < |a.requests| && a.requests[r].phase.Answered?
    ensures r < |Next(a, s).requests| && Next(a, s).requests[r] == a.requests[r]
  {
  }

  /** An answer is final: a refused request does nothing afterwards. */
  lemma {:induction false} AnswerFinal(batches: map<Uuid, nat>, apis: seq<Api>, steps: seq<Step>, j: nat, k: nat,
                                       r: nat)
    requires IsRun(batches, apis, steps) && j <= k < |apis| && r < |apis[j].requests|
    requires apis[j].requests[r].phase.Answered?
    ensures r < |apis[k].requests| && apis[k].requests[r] == apis[j].requests[r]
    decreases k
  {
    hide Next, Enabled;
    if j < k {
      AnswerFinal(batches, apis, steps, j, k - 1, r);
      AnswerStays(apis[k - 1], steps[k - 1], r);
    }
  }

  /** A replayed answer does not mean that the row will ever be published: its creator may have died before its
      publish. */
  lemma ReplayedUnpublished(batches: map<Uuid, nat>, key: string, input: CreateInput, id: Uuid, other: Uuid, now: int)
    returns (apis: seq<Api>, steps: seq<Step>)
    requires Valid(input) && (input.batchId.Some? ==> input.batchId.value in batches)
    ensures IsRun(batches, apis, steps)
    ensures var end := apis[|steps|];
            && end.handed == [] && |end.requests| == 2 && end.requests[0].phase == Answered(Lost)
            && end.requests[1].phase == Answered(Replayed(end.requests[0].Row()))
  {
    hide Valid;
    var q0, q1 := Request(key, input, id, now, Looking), Request(key, input, other, now, Looking);
    var a0 := Api(map[], batches, [], []);
    var a1 := a0.(requests := [q0]);
    var a2 := a0.(requests := [q0.(phase := Missed)]);
    var a3 := CreatorStored(a2, q0);
    var a4 := a3.(requests := [q0.(phase := Stored), q1]);
    var a5 := SecondReplayed(a4, q0, q1);
    var a6 := a5.(requests := [q0.(phase := Answered(Lost)), a5.requests[1]]);
    apis := [a0, a1, a2, a3, a4, a5, a6];
    steps := [Arrive(key, input, id, now), Lookup(0, NoFault), InsertRow(0, NoFault), Arrive(key, input, other, now),
              Lookup(1, NoFault), Die(0)];
    assert Next(a0, steps[0]) == a1 && Next(a1, steps[1]) == a2;
    hide Fits, KeyFree;
    assert Next(a3, steps[3]) == a4;
    assert Next(a5, steps[5]).requests == a6.requests;
  }

  lemma CreatorStored(a: Api, q: Request) returns (a': Api)
    requires a.rows == map[] && a.requests == [q.(phase := Missed)] && Valid(q.input)
    requires q.input.batchId.Some? ==> q.input.batchId.value in a.batches
    ensures Enabled(a, InsertRow(0, NoFault)) && a' == Next(a, InsertRow(0, NoFault))
    ensures a' == a.(rows := map[q.id := q.Row()], requests := [q.(phase := Stored)])
  {
    hide Valid;
    a' := Next(a, InsertRow(0, NoFault));
    assert a'.rows == map[q.id := q.Row()];
  }

  lemma SecondReplayed(a: Api, q: Request, r: Request) returns (a': Api)
    requires a.rows == map[q.id := q.Row()] && a.requests == [q.(phase := Stored), r] && r.phase.Looking?
    requires r.key == q.key
    ensures Enabled(a, Lookup(1, NoFault)) && a' == Next(a, Lookup(1, NoFault))
    ensures a' == a.(requests := [q.(phase := Stored), r.(phase := Answered(Replayed(q.Row())))])
  {
    assert a.rows[q.id].idempotencyKey == Some(r.key);
    assert RowWithKey(a.rows, r.key) == q.Row();
    a' := Next(a, Lookup(1, NoFault));
  }

  /** ... or its insert may have been reported failed although it was committed; a retry then finds the row. */
  lemma ReplayedAfterLostCommit(batches: map<Uuid, nat>, key: string, input: CreateInput, id: Uuid, other: Uuid,
                                now: int)
    returns (apis: seq<Api>, steps: seq<Step>)
    requires Valid(input) && (input.batchId.Some? ==> input.batchId.value in batches)
    ensures IsRun(batches, apis, steps)
    ensures var end := apis[|steps|];
            && end.handed == [] && |end.requests| == 2 && end.requests[0].phase == Answered(Refused(InsertFailed))
            && end.requests[1].phase == Answered(Replayed(end.requests[0].Row()))
  {
    hide Valid;
    var q0, q1 := Request(key, input, id, now, Looking), Request(key, input, other, now, Looking);
    var refused := q0.(phase := Answered(Refused(InsertFailed)));
    var a0 := Api(map[], batches, [], []);
    var a1, a2 := a0.(requests := [q0]), a0.(requests := [q0.(phase := Missed)]);
    var a3 := a0.(rows := map[id := q0.Row()], requests := [refused]);
    var a4 := a3.(requests := [refused, q1]);
    var a5 := a3.(requests := [refused, q1.(phase := Answered(Replayed(q0.Row())))]);
    apis := [a0, a1, a2, a3, a4, a5];
    steps := [Arrive(key, input, id, now), Lookup(0, NoFault), InsertRow(0, After), Arrive(key, input, other, now),
              Lookup(1, NoFault)];
    assert Next(a0, steps[0]) == a1 && Next(a1, steps[1]) == a2;
    LostCommit(a2, q0);
    hide Fits;
    assert Next(a3, steps[3]) == a4;
    assert a4.rows[id].idempotencyKey == Some(key);
    assert RowWithKey(a4.rows, key) == q0.Row();
    assert Next(a4, steps[4]).requests == a5.requests;
  }

  lemma LostCommit(a: Api, q: Request)
    requires a.rows == map[] && a.requests == [q.(phase := Missed)] && Valid(q.input)
    requires q.input.batchId.Some? ==> q.input.batchId.value in a.batches
    ensures Enabled(a, InsertRow(0, After))
    ensures Next(a, InsertRow(0, After))
            == a.(rows := map[q.id := q.Row()], requests := [q.(phase := Answered(Refused(InsertFailed)))])
  {
    hide Valid;
    assert Next(a, InsertRow(0, After)).rows == map[q.id := q.Row()];
  }

  // ---------------------------------------------------------------- when a row has been handed over

  /** This request made its publish call, and was told how it went. */
  predicate HandedBy(q: Request, id: Uuid) {
    q.id == id && q.phase.Answered? && (q.phase.answer.CreatedRow? || q.phase.answer == Refused(PublishFailed))
  }

  ghost predicate HandedExact(a: Api, id: Uuid) {
    id in a.handed <==> exists r: nat :: r < |a.requests| && HandedBy(a.requests[r], id)
  }

  lemma StepHandedExact(a: Api, s: Step, id: Uuid)
    requires Enabled(a, s) && HandedExact(a, id)
    ensures HandedExact(Next(a, s), id)
  {
    hide Fits, KeyFree, Valid;
    var a' := Next(a, s);
    if r: nat :| r < |a.requests| && HandedBy(a.requests[r], id) {
      AnswerStays(a, s, r);
      assert HandedBy(a'.requests[r], id);
    }
    if s.Hand? && a.requests[s.r].id == id {
      assert HandedBy(a'.requests[s.r], id);
      assert a'.handed[|a.handed|] == id;
    }
    forall r: nat | r < |a'.requests| && HandedBy(a'.requests[r], id) ensures id in a'.handed {
      if r < |a.requests| && a'.requests[r] == a.requests[r] {
        assert HandedBy(a.requests[r], id);
      }
    }
  }

  /** In every interleaving, a row has been handed to the broker iff some request with its id was told `created` or that
      its publish failed; this decides what `replayed` means to a caller. */
  lemma {:induction false} HandedExactly(batches: map<Uuid, nat>, apis: seq<Api>, steps: seq<Step>, k: nat, id: Uuid)
    requires IsRun(batches, apis, steps) && k < |apis|
    ensures id in apis[k].handed <==> exists r: nat :: r < |apis[k].requests| && HandedBy(apis[k].requests[r], id)
  {
    hide Next, Enabled;
    if k > 0 {
      HandedExactly(batches, apis, steps, k - 1, id);
      StepHandedExact(apis[k - 1], steps[k - 1], id);
    }
  }

  /** A caller served with a row under a key: that row has been handed over iff the request that stored it was told
      so, or told that its publish failed; and no other request with that key ever hands anything over. */
  lemma ServedMeansHanded(batches: map<Uuid, nat>, apis: seq<Api>, steps: seq<Step>, k: nat, r: nat)
    requires IsRun(batches, apis, steps) && k < |apis| && r < |apis[k].requests| && Served(apis[k].requests[r])
    ensures var a, q := apis[k], apis[k].requests[r];
            var n := q.phase.answer.n;
            && (n.id in a.handed <==> exists p: nat :: p < |a.requests| && HandedBy(a.requests[p], n.id))
            && forall id :: Keyed(a.rows, id, q.key) && id in a.handed ==> id == n.id
  {
    hide IsRun, Keyed, IsRowOf;
    HandedExactly(batches, apis, steps, k, apis[k].requests[r].phase.answer.n.id);
    OneRowOneCall(batches, apis, steps, k, apis[k].requests[r].key);
    ServedRow(apis[k].rows, apis[k].requests[r].phase.answer.n, apis[k].requests[r].key);
  }

  lemma ServedRow(rows: map<Uuid, Notification>, n: Notification, key: string)
    requires IsRowOf(rows, n, key)
    ensures Keyed(rows, n.id, key)
  {
  }

  // ---------------------------------------------------------------- a request left alone

  /** The steps of one request in a row, until it is answered. */
  ghost function Alone(a: Api, r: nat, lookup: Fault, insert: Fault, publish: Fault): Api
    requires InPhase(a, r, Looking)
  {
    var a1 := Next(a, Lookup(r, lookup));
    if !InPhase(a1, r, Missed) then a1
    else
      var a2 := Next(a1, InsertRow(r, insert));
      if !InPhase(a2, r, Stored) then a2 else Next(a2, Hand(r, publish))
  }

  /** ... are CreateWithIdempotency: a stored key is answered with its row and changes nothing; a free one is stored and
      handed over, unless validation, insert or publish stops it. */
  lemma AloneIsCreate(a: Api, r: nat, lookup: Fault, insert: Fault, publish: Fault)
    requires InPhase(a, r, Looking)
    ensures var a', q := Alone(a, r, lookup, insert, publish), a.requests[r];
            var free, row := KeyFree(a.rows, Some(q.key)), q.Row();
            var stored := !lookup.Reported() && free && Valid(q.input) && Fits(a.rows, a.batches, row)
                && insert.Applied();
            && a'.rows == (if stored then a.rows[q.id := row] else a.rows)
            && a'.handed == (if stored && insert.NoFault? then a.handed + [q.id] else a.handed)
            && a'.requests[r].phase.Answered?
            && (a'.requests[r].phase.answer.Replayed? <==> !lookup.Reported() && !free)
            && (a'.requests[r].phase.answer == CreatedRow(row) <==> stored && insert.NoFault? && publish.NoFault?)
  {
    hide Fits, Valid, KeyFree;
  }
}
