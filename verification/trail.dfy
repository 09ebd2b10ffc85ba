/** Redelivery-free runs with a working recorder: which provider calls the trail records, and when it is a complete
    one. */
module Trails {
  import opened Domain
  import opened Topology
  import opened World
  import opened Handle
  import opened Protocol
  import opened Placement
  import opened Cycles
  import opened Lives
  import opened Audit

  /** A provider call, with the answers that all calls of its handling got. */
  datatype Call = Call(send: Event, env: Env)

  /** The status update or onward publish after the call reported no error: the handling went on to its record. */
  predicate Told(c: Call) {
    && c.send.Sent?
    && if c.send.outcome.Accepted? then !c.env.delivered.Reported()
       else !c.env.ctxDone && if c.send.attempt <= 2 then !c.env.retry.Reported() else !c.env.dlq.Reported()
  }

  /** A lost confirm: the message went on to its next attempt through a retry publish that reported an error. */
  predicate Unsure(c: Call) {
    c.send.Sent? && !c.send.outcome.Accepted? && !c.env.ctxDone && c.send.attempt <= 2 && c.env.retry.After?
  }

  /** The call a step makes for id, if any. */
  function CallOf(w: World, s: Step, id: Uuid): seq<Call> {
    if s.Deliver? && s.i < |w.entries| && w.entries[s.i].Has(id) then
      var d, m := DeliveryOf(w.entries[s.i].msg), w.entries[s.i].msg.body.msg;
      if CallsProvider(w, d, m, s.env) then [Call(SendEvent(w, d, m, s.env), s.env)] else []
    else []
  }

  /** The calls made for id in the first k steps of a run. */
  function Calls(ws: seq<World>, steps: seq<Step>, k: nat, id: Uuid): seq<Call>
    requires k <= |steps| <= |ws|
  {
    if k == 0 then [] else Calls(ws, steps, k - 1, id) + CallOf(ws[k - 1], steps[k - 1], id)
  }

  /** The rows of the told calls. */
  function Rows(calls: seq<Call>): seq<Attempt> {
    if calls == [] then []
    else
      var last := calls[|calls| - 1];
      Rows(calls[..|calls| - 1]) + if Told(last) then [Entered(last.send)] else []
  }

  ghost predicate SameSends(calls: seq<Call>, sends: seq<Event>) {
    |calls| == |sends| && forall j :: 0 <= j < |calls| ==> calls[j].send == sends[j]
  }

  /** What the calls made so far mean for ledger and queues. A call that neither was told nor went on unsurely ends the
      life of its notification: the copy is gone, or it is a dead letter that the ledger keeps from being sent again. */
  ghost predicate Story(w: World, id: Uuid, calls: seq<Call>) {
    var v, n := ViewOf(w, id), |calls|;
    && SameSends(calls, v.sends)
    && LogOf(w.log, id) == Rows(calls)
    && (forall j :: 0 <= j < n - 1 ==> Told(calls[j]) || Unsure(calls[j]))
    && (n > 0 && !Told(calls[n - 1]) && !Unsure(calls[n - 1]) ==>
          (Live(w.entries, id) == 0 && v.handed == 1) || (n % 4 == 0 && id in w.processed))
    && (n % 4 != 0 ==> id in w.processed)
  }

  // ---------------------------------------------------------------- one delivery

  lemma RowsAppend(calls: seq<Call>, c: Call)
    ensures Rows(calls + [c]) == Rows(calls) + if Told(c) then [Entered(c.send)] else []
  {
    assert (calls + [c])[..|calls|] == calls;
  }

  lemma AdditionIsRows(w: World, d: Delivery, m: NotificationMessage, env: Env)
    ensures var c := Call(SendEvent(w, d, m, env), env);
            Addition(w, d, m, env) == if CallsProvider(w, d, m, env) && Told(c) then [Entered(c.send)] else []
  {
  }

  /** What one delivery does to the ledger, as the story needs it. */
  lemma DeliverLedger(w: World, i: nat, env: Env, m: NotificationMessage)
    requires Inv(w) && Enabled(w, Deliver(i, env)) && w.entries[i].msg.body == Encoded(m)
    ensures var w', d := Next(w, Deliver(i, env)), DeliveryOf(w.entries[i].msg);
            && (forall id :: id != m.id ==> (id in w'.processed <==> id in w.processed))
            && (CallsProvider(w, d, m, env) ==>
                  (m.id in w'.processed <==>
                     (m.id in w.processed || d.attempt == 0)
                     && !(!env.send.Accepted? && !env.ctxDone && d.attempt > 2 && !env.dlq.Reported()
                        && env.unmark.Applied())))
            && (!CallsProvider(w, d, m, env) && m.id in w.processed ==> m.id in w'.processed)
  {
    hide Handled, Inv;
    DeliverTables(w, i, env);
  }

  lemma StoryOther(w: World, w': World, id: Uuid, calls: seq<Call>)
    requires Story(w, id, calls) && LogOf(w'.log, id) == LogOf(w.log, id) && Live(w'.entries, id) <= Live(w.entries, id)
    requires ViewOf(w', id).sends == ViewOf(w, id).sends && ViewOf(w', id).handed == ViewOf(w, id).handed
    requires id in w.processed ==> id in w'.processed
    ensures Story(w', id, calls)
  {
    hide ViewOf, Live, Told, Unsure, Rows, LogOf;
  }

  /** While a copy is live and about to be sent, the last call was told, or went on unsurely. */
  lemma LastWentOn(w: World, i: nat, env: Env, m: NotificationMessage, calls: seq<Call>)
    requires Calm(w) && Enabled(w, Deliver(i, env)) && w.entries[i].msg.body == Encoded(m) && Story(w, m.id, calls)
    requires CallsProvider(w, DeliveryOf(w.entries[i].msg), m, env)
    ensures calls != [] ==> Told(calls[|calls| - 1]) || Unsure(calls[|calls| - 1])
    ensures var n, a := |calls|, AttemptOf(w.entries[i].msg);
            0 <= a <= 3 && n % 4 == a && (a > 0 ==> m.id in w.processed)
    ensures Live(w.entries, m.id) == 1 && ViewOf(w, m.id).handed == 1
  {
    hide ViewOf, Inv, Live, Chain, Told, Unsure, Rows, LogOf;
    DeliveredFits(w, i);
    assert Cyclic(w, m.id) && Spot(w, w.entries[i], ViewOf(w, m.id));
    LiveCopy(w.entries, i, m.id);
  }

  lemma StoryOwn(w: World, w': World, i: nat, env: Env, m: NotificationMessage, calls: seq<Call>)
    requires Calm(w) && Enabled(w, Deliver(i, env)) && w.entries[i].msg.body == Encoded(m) && Story(w, m.id, calls)
    requires CallsProvider(w, DeliveryOf(w.entries[i].msg), m, env)
    requires var d, v, v' := DeliveryOf(w.entries[i].msg), ViewOf(w, m.id), ViewOf(w', m.id);
             && v'.handed == v.handed && v'.sends == v.sends + [SendEvent(w, d, m, env)]
             && LogOf(w'.log, m.id) == LogOf(w.log, m.id) + Addition(w, d, m, env)
             && Live(w'.entries, m.id) + 1 == Live(w.entries, m.id) + |Successors(w, d, m, env)|
             && (m.id in w'.processed <==>
                   (m.id in w.processed || d.attempt == 0)
                   && !(!env.send.Accepted? && !env.ctxDone && d.attempt > 2 && !env.dlq.Reported()
                      && env.unmark.Applied()))
    ensures Story(w', m.id, calls + [Call(SendEvent(w, DeliveryOf(w.entries[i].msg), m, env), env)])
  {
    hide ViewOf, Inv, Live, Calm, Rows, LogOf, Addition, Story, CallsProvider, Successors, SendEvent, Told, Unsure;
    var d := DeliveryOf(w.entries[i].msg);
    var c := Call(SendEvent(w, d, m, env), env);
    LastWentOn(w, i, env, m, calls);
    AdditionIsRows(w, d, m, env);
    EndsOrGoesOn(w, d, m, env);
    StoryExtends(w, w', m.id, calls, c);
  }

  /** A call that is neither told nor unsure leaves no successor, or a dead letter whose ledger entry stays. */
  lemma EndsOrGoesOn(w: World, d: Delivery, m: NotificationMessage, env: Env)
    requires 0 <= d.attempt <= 3 && CallsProvider(w, d, m, env)
    ensures var c := Call(SendEvent(w, d, m, env), env);
            !Told(c) && !Unsure(c) ==>
              Successors(w, d, m, env) == []
                  || (d.attempt == 3 && (env.send.Accepted? || env.ctxDone || env.dlq.Reported()))
  {
    hide RetryOf, DlqOf;
  }

  lemma StoryExtends(w: World, w': World, id: Uuid, calls: seq<Call>, c: Call)
    requires Story(w, id, calls) && ViewOf(w', id).sends == ViewOf(w, id).sends + [c.send]
    requires LogOf(w'.log, id) == LogOf(w.log, id) + if Told(c) then [Entered(c.send)] else []
    requires calls != [] ==> Told(calls[|calls| - 1]) || Unsure(calls[|calls| - 1])
    requires !Told(c) && !Unsure(c) ==>
               (Live(w'.entries, id) == 0 && ViewOf(w', id).handed == 1)
                   || ((|calls| + 1) % 4 == 0 && id in w'.processed)
    requires (|calls| + 1) % 4 != 0 ==> id in w'.processed
    ensures Story(w', id, calls + [c])
  {
    hide ViewOf, Live, Rows, LogOf, Told, Unsure;
    RowsAppend(calls, c);
    var all := calls + [c];
    forall j | 0 <= j < |all| - 1 ensures Told(all[j]) || Unsure(all[j]) {
      assert all[j] == calls[j];
    }
  }

  lemma DeliverStory(w: World, i: nat, env: Env, id: Uuid, calls: seq<Call>)
    requires Calm(w) && Enabled(w, Deliver(i, env)) && env.record.Applied() && Story(w, id, calls)
    ensures Story(Next(w, Deliver(i, env)), id, calls + CallOf(w, Deliver(i, env), id))
  {
    hide ViewOf, Inv, Handled, Live, Cyclic, Story, Successors, CallsProvider, Addition, SendEvent;
    DeliveredFits(w, i);
    var w', d, m := Next(w, Deliver(i, env)), DeliveryOf(w.entries[i].msg), w.entries[i].msg.body.msg;
    DeliverView(w, i, env, id);
    DeliveryLog(w, i, env);
    DeliverLedger(w, i, env, m);
    SuccessorsBounded(w, d, m, env);
    LiveSwap(w.entries, i, Successors(w, d, m, env), id);
    AdditionIs(w, d, m, env, id);
    assert calls + [] == calls;
    if m.id == id && CallsProvider(w, d, m, env) {
      StoryOwn(w, w', i, env, m, calls);
    } else {
      NoCallNoRow(w, d, m, env);
      StoryOther(w, w', id, calls);
    }
  }

  lemma NoCallNoRow(w: World, d: Delivery, m: NotificationMessage, env: Env)
    ensures !CallsProvider(w, d, m, env) ==> Addition(w, d, m, env) == [] && Successors(w, d, m, env) == []
  {
  }

  // ---------------------------------------------------------------- every step

  lemma PublishRowStory(w: World, row: Uuid, fault: Fault, id: Uuid, calls: seq<Call>)
    requires Calm(w) && Enabled(w, PublishRow(row, fault)) && Story(w, id, calls)
    ensures Story(Next(w, PublishRow(row, fault)), id, calls)
  {
    hide ViewOf, Inv, PublishStored, Live, Chain, Spot, FirstMessage, Rows, LogOf, Told, Unsure;
    var w', n := Next(w, PublishRow(row, fault)), w.rows[row];
    assert Cyclic(w, id);
    PublishRowView(w, row, fault, id);
    PublishRowTables(w, row, fault);
    var first := Entry(Routing.Main(Keys.Lane(n.channel, n.priority)), FirstMessage(n), w.now, Ready);
    LiveAppend(w.entries, if fault.Applied() then [first] else [], id);
    if row == id {
      NotYetHanded(w, id);
    } else {
      StoryOther(w, w', id, calls);
    }
  }

  lemma PublishRowTables(w: World, row: Uuid, fault: Fault)
    requires Enabled(w, PublishRow(row, fault))
    ensures TablesOf(Next(w, PublishRow(row, fault))) == TablesOf(w)
  {
    hide FirstMessage, Arrivals, RouteEvents;
  }

  lemma ExpireStory(w: World, i: nat, id: Uuid, calls: seq<Call>)
    requires Calm(w) && Enabled(w, Expire(i)) && Story(w, id, calls)
    ensures Story(Next(w, Expire(i)), id, calls)
  {
    hide ViewOf, Live, Expired, Story;
    assert Placed(w.rows, w.entries[i]);
    ExpireKeeps(w, i);
    ExpireTables(w, i);
    SameView(w, Next(w, Expire(i)), id);
    var e := w.entries[i];
    var lane := LaneOf(e.msg.body.msg);
    LiveSwap(w.entries, i, [Entry(Routing.Main(lane), e.msg.(key := Routing.LaneKey(lane)), w.now, Ready)], id);
    StoryOther(w, Next(w, Expire(i)), id, calls);
  }

  lemma ReplayStory(w: World, i: nat, fault: Fault, id: Uuid, calls: seq<Call>)
    requires Calm(w) && Enabled(w, Replay(i, fault)) && Story(w, id, calls)
    ensures Story(Next(w, Replay(i, fault)), id, calls)
  {
    hide ViewOf, Live, Inv, ReplayMessage, Story, Republished;
    DeadEncoded(w, i);
    ReplayView(w, i, fault, id);
    ReplayTables(w, i, fault);
    var m := w.entries[i].msg.body.msg;
    var back := Entry(Routing.Main(LaneOf(m)), ReplayMessage(w.entries[i].msg, m.channel), w.now, Ready);
    LiveSwap(w.entries, i, if fault.Applied() then [back] else [], id);
    StoryOther(w, Next(w, Replay(i, fault)), id, calls);
  }

  lemma ReplayTables(w: World, i: nat, fault: Fault)
    requires Enabled(w, Replay(i, fault))
    ensures TablesOf(Next(w, Replay(i, fault))) == TablesOf(w)
  {
    hide ReplayMessage, Arrivals, RouteEvents;
  }

  lemma CancelStory(w: World, row: Uuid, id: Uuid, calls: seq<Call>)
    requires Story(w, id, calls)
    ensures Story(CancelIfPending(w, row), id, calls)
  {
    hide ViewOf, Live, Story;
    if CancelIfPending(w, row) != w {
      EventView(w, CancelIfPending(w, row), CancelledRow(row), id);
      StoryOther(w, CancelIfPending(w, row), id, calls);
    }
  }

  lemma StepStory(w: World, s: Step, id: Uuid, calls: seq<Call>)
    requires Calm(w) && Enabled(w, s) && Uninterrupted(s) && (s.Deliver? ==> s.env.record.Applied())
    requires Story(w, id, calls)
    ensures Story(Next(w, s), id, calls + CallOf(w, s, id))
  {
    hide ViewOf, Live, Inv, Cyclic, Story, PublishStored, Handled, Expired, Republished, CancelIfPending, Drop;
    if s.Deliver? {
      DeliverStory(w, s.i, s.env, id, calls);
    } else {
      assert calls + CallOf(w, s, id) == calls;
      match s
      case PublishRow(row, fault) => PublishRowStory(w, row, fault, id, calls);
      case Expire(i) => ExpireStory(w, i, id, calls);
      case Cancel(row) => CancelStory(w, row, id, calls);
      case Replay(i, fault) => ReplayStory(w, i, fault, id, calls);
      case Insert(_) => SameView(w, Next(w, s), id); StoryOther(w, Next(w, s), id, calls);
      case InsertBatch(_, _) => SameView(w, Next(w, s), id); StoryOther(w, Next(w, s), id, calls);
      case Tick(_) => SameView(w, Next(w, s), id); StoryOther(w, Next(w, s), id, calls);
      case _ =>
    }
  }

  /** Every insert into delivery_attempts takes effect; everything else may fail. */
  ghost predicate RecordedRun(ttls: RetryTTLs, ws: seq<World>, steps: seq<Step>) {
    CalmRun(ttls, ws, steps) && forall k :: 0 <= k < |steps| && steps[k].Deliver? ==> steps[k].env.record.Applied()
  }

  lemma {:induction false} RunStory(ttls: RetryTTLs, ws: seq<World>, steps: seq<Step>, k: nat, id: Uuid)
    requires RecordedRun(ttls, ws, steps) && k <= |steps|
    ensures Story(ws[k], id, Calls(ws, steps, k, id))
  {
    hide Next, Enabled, Calm, Uninterrupted, Story, CallOf;
    if k == 0 {
      EmptyStory(ttls, id);
    } else {
      RunStory(ttls, ws, steps, k - 1, id);
      RunCalm(ttls, ws, steps, k - 1);
      StepStory(ws[k - 1], steps[k - 1], id, Calls(ws, steps, k - 1, id));
    }
  }

  lemma EmptyStory(ttls: RetryTTLs, id: Uuid)
    ensures Story(Init(ttls), id, [])
  {
  }

  // ---------------------------------------------------------------- what the rows say

  /** The calls that were told, in order. */
  function ToldCalls(calls: seq<Call>): seq<Call> {
    if calls == [] then []
    else
      var last := calls[|calls| - 1];
      ToldCalls(calls[..|calls| - 1]) + if Told(last) then [last] else []
  }

  lemma {:induction false} RowsSay(ttls: RetryTTLs, calls: seq<Call>, sends: seq<Event>)
    requires SameSends(calls, sends) && Chain(ttls, sends)
    ensures |Rows(calls)| == |ToldCalls(calls)|
    ensures forall j :: 0 <= j < |Rows(calls)| ==> SaysOf(Rows(calls)[j], ToldCalls(calls)[j].send)
  {
    hide Chain, SaysOf, Told;
    if calls != [] {
      var n := |calls| - 1;
      ChainPrefix(ttls, sends, n);
      RowsSay(ttls, calls[..n], sends[..n]);
      ChainNumber(ttls, sends, n);
      EnteredSays(calls[n].send);
    }
  }

  lemma EnteredSays(send: Event)
    requires send.Sent? && send.attempt <= 3
    ensures SaysOf(Entered(send), send)
  {
  }

  lemma ChainPrefix(ttls: RetryTTLs, sends: seq<Event>, n: nat)
    requires Chain(ttls, sends) && n <= |sends|
    ensures Chain(ttls, sends[..n])
  {
    forall j | 0 <= j < n ensures ChainAt(ttls, sends[..n], j) {
      assert ChainAt(ttls, sends, j);
    }
  }

  /** In every redelivery-free run with a working recorder, row j of the trail belongs to the j-th told call, and
      records of it: its number; `success` iff the provider accepted it; below number 3, `circuit_open` iff the circuit
      was open and `retrying` iff it failed otherwise; `dlq` iff it was number 3 and failed. */
  lemma {:induction false} TrailSays(ttls: RetryTTLs, ws: seq<World>, steps: seq<Step>, k: nat, id: Uuid, j: nat)
    requires RecordedRun(ttls, ws, steps) && k <= |steps| && j < |LogOf(ws[k].log, id)|
    ensures |LogOf(ws[k].log, id)| == |ToldCalls(Calls(ws, steps, k, id))|
    ensures var a, send := LogOf(ws[k].log, id)[j], ToldCalls(Calls(ws, steps, k, id))[j].send;
            && send.Sent? && a.id == id && a.number == send.attempt
            && (a.status.Success? <==> send.outcome.Accepted?)
            && (a.status.CircuitOpened? <==> send.attempt < 3 && send.outcome.CircuitOpen?)
            && (a.status.Retrying? <==> send.attempt < 3 && (send.outcome.DeliveryFailed? || send.outcome.OtherError?))
            && (a.status.DeadLettered? <==> send.attempt == 3 && !send.outcome.Accepted?)
  {
    hide Next, Enabled, Inv, Live, SendsOf, Spot, Told, Unsure, Chain, Calls, Rows, ToldCalls;
    RunStory(ttls, ws, steps, k, id);
    RunIsCalm(ttls, ws, steps, k);
    assert Cyclic(ws[k], id);
    RowsSay(ws[k].ttls, Calls(ws, steps, k, id), SendsOf(ws[k].hist, id));
    ToldNumber(ws[k].ttls, Calls(ws, steps, k, id), SendsOf(ws[k].hist, id), j);
  }

  lemma {:induction false} ToldNumber(ttls: RetryTTLs, calls: seq<Call>, sends: seq<Event>, j: nat)
    requires SameSends(calls, sends) && Chain(ttls, sends) && j < |ToldCalls(calls)|
    ensures ToldCalls(calls)[j].send.Sent? && ToldCalls(calls)[j].send.attempt <= 3
  {
    hide Chain, Told;
    var n := |calls| - 1;
    if j < |ToldCalls(calls[..n])| {
      ChainPrefix(ttls, sends, n);
      ToldNumber(ttls, calls[..n], sends[..n], j);
    } else {
      ChainNumber(ttls, sends, n);
    }
  }

  // ---------------------------------------------------------------- when the trail is whole

  lemma {:induction false} RowsOfPrefix(calls: seq<Call>, k: nat)
    requires k <= |calls|
    ensures |Rows(calls)| <= |calls|
    ensures Rows(calls[..k]) <= Rows(calls)
    decreases |calls|
  {
    hide Told;
    if k == |calls| {
      assert calls[..k] == calls;
    }
    if calls != [] {
      var init := calls[..|calls| - 1];
      RowsOfPrefix(init, if k < |calls| then k else |init|);
      if k < |calls| {
        assert init[..k] == calls[..k];
      }
    }
  }

  lemma {:induction false} RowsTold(calls: seq<Call>)
    requires forall j :: 0 <= j < |calls| ==> Told(calls[j])
    ensures |Rows(calls)| == |calls|
    ensures forall j :: 0 <= j < |calls| ==> calls[j].send.Sent? && Rows(calls)[j] == Entered(calls[j].send)
  {
    if calls != [] {
      RowsTold(calls[..|calls| - 1]);
    }
  }

  lemma {:induction false} RowsUntold(calls: seq<Call>, t: nat)
    requires t <= |calls| && forall j :: t <= j < |calls| ==> !Told(calls[j])
    ensures Rows(calls) == Rows(calls[..t])
    decreases |calls|
  {
    if t == |calls| {
      assert calls[..t] == calls;
    } else {
      var init := calls[..|calls| - 1];
      RowsUntold(init, t);
      assert init[..t] == calls[..t];
    }
  }

  /** No untold call before a told one. */
  ghost predicate ToldFirst(calls: seq<Call>) {
    forall i, j :: 0 <= i < j < |calls| && Told(calls[j]) ==> Told(calls[i])
  }

  /** The least index from `i` on at which a call is told, if any. */
  function NextTold(calls: seq<Call>, i: nat): (t: nat)
    requires i <= |calls|
    ensures i <= t <= |calls| && (t < |calls| ==> Told(calls[t])) && forall j :: i <= j < t ==> !Told(calls[j])
    decreases |calls| - i
  {
    if i == |calls| || Told(calls[i]) then i else NextTold(calls, i + 1)
  }

  function NextUntold(calls: seq<Call>, i: nat): (t: nat)
    requires i <= |calls|
    ensures i <= t <= |calls| && (t < |calls| ==> !Told(calls[t])) && forall j :: i <= j < t ==> Told(calls[j])
    decreases |calls| - i
  {
    if i == |calls| || !Told(calls[i]) then i else NextUntold(calls, i + 1)
  }

  lemma {:induction false} ToldFirstIsTrail(ttls: RetryTTLs, calls: seq<Call>, sends: seq<Event>)
    requires SameSends(calls, sends) && Chain(ttls, sends) && ToldFirst(calls)
    ensures IsTrail(Rows(calls))
  {
    hide Told, Chain, IsTrail;
    var t := NextUntold(calls, 0);
    RowsUntold(calls, t);
    RowsTold(calls[..t]);
    TrailLanguage(ttls, sends, Rows(calls));
  }

  /** Only attempts 0 to 2 can go on unsurely, so fewer than four calls in a row are untold. */
  lemma {:induction false} GapTooShort(ttls: RetryTTLs, calls: seq<Call>, sends: seq<Event>, u: nat, t: nat)
    requires SameSends(calls, sends) && Chain(ttls, sends) && u < t < |calls|
    requires forall j :: u <= j < t ==> Unsure(calls[j])
    ensures u % 4 != t % 4
  {
    hide Chain;
    var p := u + (3 - u % 4);
    assert p % 4 == 3;
    if p < t {
      ChainNumber(ttls, sends, p);
    }
  }

  /** A told call after an untold one is recorded under a number too high for its place. */
  lemma {:induction false} RowAfterGap(ttls: RetryTTLs, calls: seq<Call>, sends: seq<Event>, u: nat, t: nat)
    requires SameSends(calls, sends) && Chain(ttls, sends) && u < t < |calls| && Told(calls[t])
    requires forall j :: 0 <= j < u ==> Told(calls[j])
    requires forall j :: u <= j < t ==> !Told(calls[j]) && Unsure(calls[j])
    ensures u < |Rows(calls)| && Rows(calls)[u].number == t % 4 != u % 4
  {
    hide Told, Unsure, Chain;
    ChainNumber(ttls, sends, t);
    var gap := calls[..t];
    RowsTold(calls[..u]);
    RowsUntold(gap, u);
    assert gap[..u] == calls[..u];
    assert calls[..t + 1] == gap + [calls[t]];
    RowsAppend(gap, calls[t]);
    RowsOfPrefix(calls, t + 1);
    GapTooShort(ttls, calls, sends, u, t);
  }

  lemma {:induction false} GapShows(ttls: RetryTTLs, calls: seq<Call>, sends: seq<Event>)
    requires SameSends(calls, sends) && Chain(ttls, sends) && !ToldFirst(calls)
    requires forall j :: 0 <= j < |calls| - 1 ==> Told(calls[j]) || Unsure(calls[j])
    ensures !IsTrail(Rows(calls))
  {
    hide Told, Unsure, Chain, Rows;
    var i, j :| 0 <= i < j < |calls| && Told(calls[j]) && !Told(calls[i]);
    var u := NextUntold(calls, 0);
    var t := NextTold(calls, u);
    assert u <= i && t <= j;
    RowAfterGap(ttls, calls, sends, u, t);
  }

  lemma ChainNumber(ttls: RetryTTLs, sends: seq<Event>, k: nat)
    requires Chain(ttls, sends) && k < |sends|
    ensures sends[k].Sent? && sends[k].attempt == k % 4
  {
    assert ChainAt(ttls, sends, k);
  }

  /** The rows retell all calls but at most the last. */
  ghost predicate Whole(log: seq<Attempt>, sends: seq<Event>) {
    Retells(log, sends) || (sends != [] && Retells(log, sends[..|sends| - 1]))
  }

  lemma {:induction false} WholeExactly(ttls: RetryTTLs, calls: seq<Call>, sends: seq<Event>)
    requires SameSends(calls, sends) && Chain(ttls, sends)
    requires forall j :: 0 <= j < |calls| - 1 ==> Told(calls[j]) || Unsure(calls[j])
    ensures Whole(Rows(calls), sends) <==> forall j :: 0 <= j < |calls| - 1 ==> Told(calls[j])
  {
    hide Told, Unsure, Chain, Rows;
    var n, u := |calls|, NextUntold(calls, 0);
    RowsTold(calls[..u]);
    if u >= n - 1 {
      RowsUntold(calls, u);
      AlmostAll(calls, sends, u);
    } else {
      MissingRow(calls, u);
      var t := NextTold(calls, u);
      if t < n {
        RowAfterGap(ttls, calls, sends, u, t);
        ChainNumber(ttls, sends, u);
      } else {
        RowsUntold(calls, u);
      }
    }
  }

  lemma {:induction false} AlmostAll(calls: seq<Call>, sends: seq<Event>, u: nat)
    requires SameSends(calls, sends) && |calls| - 1 <= u <= |calls| && Rows(calls) == Rows(calls[..u])
    requires |Rows(calls[..u])| == u
    requires forall j :: 0 <= j < u ==> calls[j].send.Sent? && Rows(calls[..u])[j] == Entered(calls[j].send)
    ensures Whole(Rows(calls), sends)
  {
    hide Rows;
    if u < |calls| {
      assert Retells(Rows(calls), sends[..u]);
    }
  }

  /** With an untold call there are fewer rows than calls. */
  lemma {:induction false} MissingRow(calls: seq<Call>, u: nat)
    requires u < |calls| && !Told(calls[u])
    ensures |Rows(calls)| < |calls|
    decreases |calls|
  {
    var init := calls[..|calls| - 1];
    if u < |init| {
      MissingRow(init, u);
    } else {
      RowsOfPrefix(init, 0);
    }
  }

  /** In every redelivery-free run with a working recorder the trail holds exactly the rows of the told calls, in
      order. */
  lemma {:induction false} TrailIsToldCalls(ttls: RetryTTLs, ws: seq<World>, steps: seq<Step>, k: nat, id: Uuid)
    requires RecordedRun(ttls, ws, steps) && k <= |steps|
    ensures SameSends(Calls(ws, steps, k, id), SendsOf(ws[k].hist, id))
    ensures LogOf(ws[k].log, id) == Rows(Calls(ws, steps, k, id))
  {
    hide Next, Enabled, Told, Unsure, Calls;
    RunStory(ttls, ws, steps, k, id);
  }

  /** A call that was not told and yet followed by another was a lost confirm of a retry publish. */
  lemma {:induction false} UntoldWentOnUnsurely(ttls: RetryTTLs, ws: seq<World>, steps: seq<Step>, k: nat, id: Uuid,
                                                j: nat)
    requires RecordedRun(ttls, ws, steps) && k <= |steps| && j + 1 < |Calls(ws, steps, k, id)|
    ensures Told(Calls(ws, steps, k, id)[j]) || Unsure(Calls(ws, steps, k, id)[j])
  {
    hide Next, Enabled, Told, Unsure, Calls;
    RunStory(ttls, ws, steps, k, id);
  }

  /** The trail is in the language of trails iff no untold call comes before a told one. */
  lemma {:induction false} TrailInLanguage(ttls: RetryTTLs, ws: seq<World>, steps: seq<Step>, k: nat, id: Uuid)
    requires RecordedRun(ttls, ws, steps) && k <= |steps|
    ensures IsTrail(LogOf(ws[k].log, id)) <==> ToldFirst(Calls(ws, steps, k, id))
  {
    hide Next, Enabled, Inv, Live, SendsOf, Spot, Told, Unsure, Chain, IsTrail, Calls, ToldFirst;
    RunStory(ttls, ws, steps, k, id);
    RunIsCalm(ttls, ws, steps, k);
    assert Cyclic(ws[k], id);
    var calls, sends := Calls(ws, steps, k, id), SendsOf(ws[k].hist, id);
    if ToldFirst(calls) {
      ToldFirstIsTrail(ws[k].ttls, calls, sends);
    } else {
      GapShows(ws[k].ttls, calls, sends);
    }
  }

  /** The trail retells all calls but at most the last iff no call before the last is untold. */
  lemma {:induction false} TrailComplete(ttls: RetryTTLs, ws: seq<World>, steps: seq<Step>, k: nat, id: Uuid)
    requires RecordedRun(ttls, ws, steps) && k <= |steps|
    ensures var calls := Calls(ws, steps, k, id);
            Whole(LogOf(ws[k].log, id), SendsOf(ws[k].hist, id)) <==>
                forall j :: 0 <= j < |calls| - 1 ==> Told(calls[j])
  {
    hide Next, Enabled, Inv, Live, SendsOf, Spot, Told, Unsure, Chain, Whole, Calls;
    RunStory(ttls, ws, steps, k, id);
    RunIsCalm(ttls, ws, steps, k);
    assert Cyclic(ws[k], id);
    WholeExactly(ws[k].ttls, Calls(ws, steps, k, id), SendsOf(ws[k].hist, id));
  }

  lemma RunIsCalm(ttls: RetryTTLs, ws: seq<World>, steps: seq<Step>, k: nat)
    requires CalmRun(ttls, ws, steps) && k < |ws|
    ensures Calm(ws[k])
  {
    RunCalm(ttls, ws, steps, k);
  }
}
