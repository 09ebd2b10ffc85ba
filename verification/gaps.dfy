/** What the delivery protocol does not guarantee, and exactly when: lost first copies, repeated sends, deliveries of
    cancelled notifications, replays that overtake the ledger delete. */
module Gaps {
  import opened Domain
  import opened Keys
  import opened Topology
  import opened Routing
  import opened World
  import opened Handle
  import opened Protocol
  import opened Placement
  import opened CrashSafety
  import opened Cycles
  import opened Lives
  import opened Audit

  const GOOD := Choice(NoFault, Accepted, false)

  /** Every call succeeds and the provider gives this answer. */
  function Answering(outcome: Outcome): Env {
    Env(NoFault, outcome, false, NoFault, NoFault, NoFault, NoFault, NoFault, NoFault)
  }

  predicate Storable(n: Notification) { n.status.Pending? && n.batchId.None? && ValidLane(Lane(n.channel, n.priority)) }

  // ---------------------------------------------------------------- single steps

  function AtPc(w: World, i: nat, h: Handling): World
    requires i < |w.entries|
  {
    w.(entries := w.entries[i := w.entries[i].(handling := h)])
  }

  lemma PickStep(w: World, i: nat)
    requires Head(w, i) && w.entries[i].place.Main?
    ensures Enabled(w, Pick(i)) && Next(w, Pick(i)) == AtPc(w, i, Running(Enter))
  {
  }

  lemma EnterStep(w: World, i: nat, m: NotificationMessage)
    requires i < |w.entries| && w.entries[i].handling == Running(Enter) && w.entries[i].msg.body == Encoded(m)
    requires AttemptOf(w.entries[i].msg) == 0 ==> m.id !in w.processed
    ensures Enabled(w, Perform(i, GOOD))
    ensures Next(w, Perform(i, GOOD))
            == if AttemptOf(w.entries[i].msg) == 0
               then AtPc(w, i, Running(AtSend)).(processed := w.processed + {m.id}, hist := w.hist + [Marked(m.id)])
               else AtPc(w, i, Running(AtSend))
  {
  }

  lemma SendStep(w: World, i: nat, m: NotificationMessage)
    requires i < |w.entries| && w.entries[i].handling == Running(AtSend) && w.entries[i].msg.body == Encoded(m)
    ensures Enabled(w, Perform(i, GOOD))
    ensures Next(w, Perform(i, GOOD))
            == AtPc(w, i, Running(AtDelivered)).(
               hist := w.hist + [Sent(ToNotification(m), AttemptOf(w.entries[i].msg), Accepted, w.now)])
  {
  }

  lemma CrashStep(w: World, i: nat)
    requires i < |w.entries| && w.entries[i].handling.Running? && w.entries[i].handling.attached
    ensures Enabled(w, Crash(i)) && Next(w, Crash(i)) == AtPc(w, i, Ready)
  {
  }

  /** Status, ledger and trail at the end of an exhausted handling. */
  lemma BookStep(w: World, i: nat, m: NotificationMessage)
    requires i < |w.entries| && w.entries[i].handling.Running? && w.entries[i].handling.attached
    requires w.entries[i].msg.body == Encoded(m)
    requires w.entries[i].handling.pc in {AtFailed, AtUnmark, AtLogDlq}
    ensures Enabled(w, Perform(i, GOOD))
    ensures var w', pc := Next(w, Perform(i, GOOD)), w.entries[i].handling.pc;
            && w'.entries == w.entries[i := w.entries[i].(handling := w'.entries[i].handling)]
            && w'.entries[i].handling
               == Running(if pc.AtFailed? then AtUnmark else if pc.AtUnmark? then AtLogDlq else Done(Moved))
            && (w'.hist == w.hist || w'.hist == w.hist + [Unmarked(m.id)])
  {
  }

  // ---------------------------------------------------------------- lost first copies

  /** The API's row and its message, in an otherwise empty system. */
  function Published(ttls: RetryTTLs, n: Notification): World {
    World(ttls, 0, map[n.id := n], map[], {},
          [Entry(Main(Lane(n.channel, n.priority)), FirstMessage(n), 0, Ready)], [], [Handed(n.id), Born(n.id)])
  }

  lemma InsertedThenPublished(ttls: RetryTTLs, n: Notification)
    requires Storable(n)
    ensures Enabled(Init(ttls), Insert(n)) && Enabled(Next(Init(ttls), Insert(n)), PublishRow(n.id, NoFault))
    ensures Next(Next(Init(ttls), Insert(n)), PublishRow(n.id, NoFault)) == Published(ttls, n)
    ensures Inv(Init(ttls))
  {
    hide FirstMessage;
    LaneRoutes(Lane(n.channel, n.priority), 1);
    FirstKey(n);
  }

  lemma PublishedFirst(ttls: RetryTTLs, n: Notification, rest: seq<Step>)
    requires Storable(n)
    ensures Taken(Init(ttls), [Insert(n)] + ([PublishRow(n.id, NoFault)] + rest)) == Taken(Published(ttls, n), rest)
  {
    hide FirstMessage, Next, Enabled;
    var w0 := Init(ttls);
    InsertedThenPublished(ttls, n);
    TakeOne(w0, Insert(n), [PublishRow(n.id, NoFault)] + rest);
    TakeOne(Next(w0, Insert(n)), PublishRow(n.id, NoFault), rest);
  }

  lemma FirstKey(n: Notification)
    ensures FirstMessage(n).key == RoutingKey(n.channel, n.priority)
    ensures AttemptOf(FirstMessage(n)) == 0 && FirstMessage(n).body == Encoded(MessageFrom(n))
  {
  }

  /** A worker that dies right after its ledger insert: the redelivered copy is taken for a duplicate and acked, so the
      notification is never sent, no copy of it is left, and its row stays pending. */
  lemma CrashAfterMarkLoses(ttls: RetryTTLs, n: Notification, outcome: Outcome)
    requires Storable(n)
    ensures var id := n.id;
            var steps := [Insert(n)] + ([PublishRow(id, NoFault)] + ([Pick(0)] + ([Perform(0, GOOD)]
                         + ([Crash(0)] + [Deliver(0, Answering(outcome))]))));
            var end := Taken(Init(ttls), steps);
            && end.Some? && end.value.entries == [] && end.value.rows == map[id := n]
            && (forall ev :: ev in end.value.hist ==> !ev.Sent?)
  {
    hide FirstMessage, Next, Enabled, Taken;
    var id, m, deliver := n.id, MessageFrom(n), Deliver(0, Answering(outcome));
    FirstKey(n);
    var w0 := Published(ttls, n);
    PublishedFirst(ttls, n, [Pick(0)] + ([Perform(0, GOOD)] + ([Crash(0)] + [deliver])));
    PickStep(w0, 0);
    TakeOne(w0, Pick(0), [Perform(0, GOOD)] + ([Crash(0)] + [deliver]));
    var w1 := AtPc(w0, 0, Running(Enter));
    EnterStep(w1, 0, m);
    TakeOne(w1, Perform(0, GOOD), [Crash(0)] + [deliver]);
    var w2 := AtPc(w1, 0, Running(AtSend)).(processed := {id}, hist := w1.hist + [Marked(id)]);
    assert w1.processed + {id} == {id};
    CrashStep(w2, 0);
    TakeOne(w2, Crash(0), [deliver]);
    var w3 := w2.(entries := w0.entries);
    assert AtPc(w2, 0, Ready).entries == w0.entries;
    DuplicateStep(w3, m, Answering(outcome));
    TakeLast(w3, deliver);
  }

  lemma DuplicateStep(w: World, m: NotificationMessage, env: Env)
    requires |w.entries| == 1 && w.entries[0].place.Main? && w.entries[0].handling.Ready?
    requires w.entries[0].msg.body == Encoded(m)
    requires AttemptOf(w.entries[0].msg) == 0 && m.id in w.processed && env.mark.NoFault?
    ensures Enabled(w, Deliver(0, env))
    ensures Next(w, Deliver(0, env)) == w.(entries := [], hist := w.hist + [Left(m.id, Duplicate)])
  {
    assert HandleSpec(w, DeliveryOf(w.entries[0].msg), env) == (w, Duplicate);
  }

  /** The provider has accepted the notification, or a copy of it exists. */
  ghost predicate Known(w: World, id: Uuid) { AcceptedBy(w, id) || exists k: nat :: Copy(w.entries, k, id) }

  /** A queued copy: a handler that has lost its delivery holds none. */
  predicate Copy(entries: seq<Entry>, k: nat, id: Uuid) { k < |entries| && entries[k].Has(id) && Queued(entries[k]) }

  ghost predicate OtherCopy(w: World, i: nat, id: Uuid) { exists k: nat :: k != i && Copy(w.entries, k, id) }

  lemma {:induction false} AcceptedSend(hist: seq<Event>, id: Uuid)
    ensures (exists k :: 0 <= k < |hist| && Acceptance(hist[k], id))
            <==> exists k :: 0 <= k < |SendsOf(hist, id)| && Acceptance(SendsOf(hist, id)[k], id)
  {
    if hist != [] {
      var init, last := hist[..|hist| - 1], hist[|hist| - 1];
      AcceptedSend(init, id);
      var before, sends := SendsOf(init, id), SendsOf(hist, id);
      assert sends == before + if SendTo(last, id) then [last] else [];
      if Acceptance(last, id) {
        assert Acceptance(sends[|sends| - 1], id);
      }
      if k :| 0 <= k < |init| && Acceptance(init[k], id) {
        assert Acceptance(hist[k], id);
        var j :| 0 <= j < |before| && Acceptance(before[j], id);
        assert Acceptance(sends[j], id);
      }
      if k :| 0 <= k < |sends| && Acceptance(sends[k], id) {
        if k < |before| {
          assert Acceptance(before[k], id);
          var j :| 0 <= j < |init| && Acceptance(init[j], id);
          assert Acceptance(hist[j], id);
        } else {
          assert Acceptance(hist[|hist| - 1], id);
        }
      }
    }
  }

  /** A delivery leaves its notification unknown to provider and broker iff there is no other copy, nothing was accepted
      before, and it is skipped, or fails with its context cancelled or its onward publish lost. */
  lemma LostExactly(w: World, i: nat, m: NotificationMessage, env: Env)
    requires Inv(w) && Enabled(w, Deliver(i, env)) && w.entries[i].msg.body == Encoded(m)
    ensures var id, a := m.id, AttemptOf(w.entries[i].msg);
            var called := a != 0 || (!env.mark.Reported() && id !in w.processed);
            Known(Next(w, Deliver(i, env)), id) <==>
              || AcceptedBy(w, id) || OtherCopy(w, i, id)
              || (called
                 && (env.send.Accepted? || (!env.ctxDone && if a <= 2 then env.retry.Applied() else env.dlq.Applied())))
  {
    hide Inv, Handled, SendsOf, RetryOf, DlqOf;
    DeliveredFits(w, i);
    var w', d, id := Next(w, Deliver(i, env)), DeliveryOf(w.entries[i].msg), m.id;
    DeliverView(w, i, env, id);
    SuccessorsBounded(w, d, m, env);
    AcceptedMore(w, w', id, if CallsProvider(w, d, m, env) then [SendEvent(w, d, m, env)] else []);
    CopiesLeft(w.entries, i, Successors(w, d, m, env), id);
  }

  lemma AcceptedMore(w: World, w': World, id: Uuid, more: seq<Event>)
    requires SendsOf(w'.hist, id) == SendsOf(w.hist, id) + more && |more| <= 1
    ensures AcceptedBy(w', id) <==> AcceptedBy(w, id) || (more != [] && Acceptance(more[0], id))
  {
    hide SendsOf;
    AcceptedSend(w.hist, id);
    AcceptedSend(w'.hist, id);
    var sends, sends' := SendsOf(w.hist, id), SendsOf(w'.hist, id);
    if k :| 0 <= k < |sends| && Acceptance(sends[k], id) {
      assert Acceptance(sends'[k], id);
    }
    if more != [] && Acceptance(more[0], id) {
      assert Acceptance(sends'[|sends|], id);
    }
  }

  lemma CopiesLeft(entries: seq<Entry>, i: nat, more: seq<Entry>, id: Uuid)
    requires i < |entries| && entries[i].Has(id) && forall e :: e in more ==> e.Has(id) && e.handling.Ready?
    ensures var left := Remove(entries, i) + more;
            (exists k: nat :: Copy(left, k, id)) <==> more != [] || exists k: nat :: k != i && Copy(entries, k, id)
  {
    var left := Remove(entries, i) + more;
    if more != [] {
      assert left[|entries| - 1] == more[0];
      assert Copy(left, |entries| - 1, id);
    }
    if k: nat :| k != i && Copy(entries, k, id) {
      assert left[if k < i then k else k - 1] == entries[k];
      assert Copy(left, if k < i then k else k - 1, id);
    }
    if k: nat :| Copy(left, k, id) && more == [] {
      assert left[k] == entries[if k < i then k else k + 1];
      assert Copy(entries, if k < i then k else k + 1, id);
    }
  }

  // ---------------------------------------------------------------- reaching attempt a

  /** One copy of m, waiting in its main queue as attempt a, in an otherwise empty broker. */
  ghost predicate Solo(w: World, m: NotificationMessage, a: int) {
    && Inv(w) && |w.entries| == 1 && w.entries[0].place.Main? && w.entries[0].handling.Ready?
    && w.entries[0].msg.body == Encoded(m) && AttemptOf(w.entries[0].msg) == a
    && (m.id in w.processed <==> a > 0)
  }

  /** The provider refuses, and the retry publish takes effect. */
  function Refusing(retry: Fault): Env {
    Env(NoFault, DeliveryFailed, false, NoFault, retry, NoFault, NoFault, NoFault, NoFault)
  }

  function Refused(m: NotificationMessage, a: int, at: nat): Event { Sent(ToNotification(m), a, DeliveryFailed, at) }

  /** A refused attempt below 3, and the expiry that brings its successor back. */
  lemma RefusedOnce(w: World, m: NotificationMessage, a: nat, retry: Fault) returns (steps: seq<Step>, w': World)
    requires Solo(w, m, a) && a <= 2 && retry.Applied()
    ensures Taken(w, steps) == Some(w') && Solo(w', m, a + 1)
    ensures SendsOf(w'.hist, m.id) == SendsOf(w.hist, m.id) + [Refused(m, a, w.now)]
    ensures w'.log == w.log + if retry.NoFault? && m.id in w.rows then [Attempt(m.id, a, Retrying)] else []
    ensures m.id in w'.rows
  {
    hide Next, Enabled, Taken, Inv, SendsOf, Solo;
    var deliver := Deliver(0, Refusing(retry));
    var held := RefusedDelivery(w, m, a, retry);
    var tick, due := WaitFor(held);
    StepKeeps(held, tick);
    w' := ExpiryBack(due, m, a + 1);
    steps := [deliver] + ([tick] + [Expire(0)]);
    TakeOne(w, deliver, [tick] + [Expire(0)]);
    TakeOne(held, tick, [Expire(0)]);
    TakeLast(due, Expire(0));
  }

  ghost predicate Held(w: World, m: NotificationMessage, level: int) {
    && Inv(w) && |w.entries| == 1 && w.entries[0].place.Hold? && w.entries[0].handling.Ready?
    && w.entries[0].msg.body == Encoded(m) && AttemptOf(w.entries[0].msg) == level && m.id in w.processed
       && m.id in w.rows
  }

  lemma RefusedDelivery(w: World, m: NotificationMessage, a: nat, retry: Fault) returns (w': World)
    requires Solo(w, m, a) && a <= 2 && retry.Applied()
    ensures Enabled(w, Deliver(0, Refusing(retry))) && w' == Next(w, Deliver(0, Refusing(retry))) && Held(w', m, a + 1)
    ensures SendsOf(w'.hist, m.id) == SendsOf(w.hist, m.id) + [Refused(m, a, w.now)]
    ensures w'.log == w.log + if retry.NoFault? && m.id in w.rows then [Attempt(m.id, a, Retrying)] else []
  {
    hide Inv, SendsOf, Handled, RetryOf;
    var env := Refusing(retry);
    w' := Next(w, Deliver(0, env));
    DeliveredFits(w, 0);
    StepKeeps(w, Deliver(0, env));
    DeliverView(w, 0, env, m.id);
    DeliverTables(w, 0, env);
    RetryCarries(DeliveryOf(w.entries[0].msg), m);
    assert DeliveryFits(w.rows, DeliveryOf(w.entries[0].msg), Enter);
  }

  lemma RetryCarries(d: Delivery, m: NotificationMessage)
    requires d.body == Encoded(m) && 0 <= d.attempt <= 3
    ensures RetryOf(d, m).body == d.body && AttemptOf(RetryOf(d, m)) == d.attempt + 1
  {
    hide RetryKey, ResolvePriority;
  }

  lemma WaitFor(w: World) returns (tick: Step, w': World)
    requires |w.entries| == 1 && w.entries[0].place.Hold? && w.entries[0].handling.Ready?
    ensures Enabled(w, tick) && w' == Next(w, tick) && w' == w.(now := w'.now) && Enabled(w', Expire(0))
  {
    var due := w.entries[0].at + TtlOf(w, w.entries[0].place);
    tick := Tick(if due > w.now then due - w.now else 0);
    w' := Next(w, tick);
  }

  lemma ExpiryBack(w: World, m: NotificationMessage, a: nat) returns (w': World)
    requires Held(w, m, a) && Enabled(w, Expire(0)) && a > 0
    ensures w' == Next(w, Expire(0)) && Solo(w', m, a) && w'.hist == w.hist && w'.log == w.log && m.id in w'.rows
  {
    hide Inv, Expired;
    w' := Next(w, Expire(0));
    StepKeeps(w, Expire(0));
    ExpireKeeps(w, 0);
    ExpireTables(w, 0);
  }

  /** For every notification and every attempt number up to 3, a run from the empty system that leaves one copy
      there. */
  lemma {:induction false} ReachAttempt(ttls: RetryTTLs, n: Notification, a: nat) returns (steps: seq<Step>, w: World)
    requires Storable(n) && a <= 3
    ensures Taken(Init(ttls), steps) == Some(w) && Solo(w, MessageFrom(n), a)
    ensures |SendsOf(w.hist, n.id)| == a
  {
    hide Taken, Inv, SendsOf, Solo;
    if a == 0 {
      steps := [Insert(n)] + ([PublishRow(n.id, NoFault)] + []);
      w := Published(ttls, n);
      PublishedFirst(ttls, n, []);
      TakeNone(w);
      PublishedSolo(ttls, n);
    } else {
      var before, w1 := ReachAttempt(ttls, n, a - 1);
      var more;
      more, w := RefusedOnce(w1, MessageFrom(n), a - 1, NoFault);
      steps := before + more;
      TakeConcat(Init(ttls), before, more);
    }
  }

  lemma TakeNone(w: World)
    ensures Taken(w, []) == Some(w)
  {
  }

  lemma PublishedSolo(ttls: RetryTTLs, n: Notification)
    requires Storable(n)
    ensures Solo(Published(ttls, n), MessageFrom(n), 0) && SendsOf(Published(ttls, n).hist, n.id) == []
  {
    hide FirstMessage, Next, Enabled;
    FirstKey(n);
    var w0 := Init(ttls);
    InsertedThenPublished(ttls, n);
    StepKeeps(w0, Insert(n));
    StepKeeps(Next(w0, Insert(n)), PublishRow(n.id, NoFault));
    SendsAppend([Handed(n.id)], Born(n.id), n.id);
    SendsAppend([], Handed(n.id), n.id);
    assert [] + [Handed(n.id)] == [Handed(n.id)] && [Handed(n.id)] + [Born(n.id)] == [Handed(n.id), Born(n.id)];
  }

  // ---------------------------------------------------------------- repeated sends

  /** Attempts above 0 are not looked up in the ledger: a worker that dies after its provider call makes the provider
      accept the same attempt twice. */
  lemma CrashRepeats(w: World, i: nat, m: NotificationMessage)
    requires Inv(w) && Head(w, i) && w.entries[i].place.Main? && AttemptOf(w.entries[i].msg) >= 1
    requires w.entries[i].msg.body == Encoded(m)
    ensures var steps := [Pick(i)]
            + ([Perform(i, GOOD)] + ([Perform(i, GOOD)] + ([Crash(i)] + [Deliver(i, Answering(Accepted))])));
            var sent := Sent(ToNotification(m), AttemptOf(w.entries[i].msg), Accepted, w.now);
            Taken(w, steps).Some? && SendsOf(Taken(w, steps).value.hist, m.id) == SendsOf(w.hist, m.id) + [sent, sent]
  {
    hide Inv, SendsOf, Next, Enabled, Taken;
    var deliver, p := Deliver(i, Answering(Accepted)), Perform(i, GOOD);
    var sent := Sent(ToNotification(m), AttemptOf(w.entries[i].msg), Accepted, w.now);
    PickStep(w, i);
    TakeOne(w, Pick(i), [p] + ([p] + ([Crash(i)] + [deliver])));
    var w1 := AtPc(w, i, Running(Enter));
    EnterStep(w1, i, m);
    TakeOne(w1, p, [p] + ([Crash(i)] + [deliver]));
    var w2 := AtPc(w1, i, Running(AtSend));
    SendStep(w2, i, m);
    TakeOne(w2, p, [Crash(i)] + [deliver]);
    var w3 := AtPc(w2, i, Running(AtDelivered)).(hist := w.hist + [sent]);
    CrashStep(w3, i);
    TakeOne(w3, Crash(i), [deliver]);
    var w4 := w.(hist := w.hist + [sent]);
    assert AtPc(w3, i, Ready).entries == w.entries;
    assert AtPc(w3, i, Ready) == w4;
    SendsAppend(w.hist, sent, m.id);
    SendAgain(w4, w, i, m, sent);
    TakeLast(w4, deliver);
    assert [sent] + [sent] == [sent, sent];
  }

  lemma SendAgain(w': World, w: World, i: nat, m: NotificationMessage, sent: Event)
    requires Inv(w) && Head(w, i) && w.entries[i].place.Main? && AttemptOf(w.entries[i].msg) >= 1
    requires w.entries[i].msg.body == Encoded(m)
    requires sent == Sent(ToNotification(m), AttemptOf(w.entries[i].msg), Accepted, w.now)
    requires w' == w.(hist := w.hist + [sent])
    ensures Enabled(w', Deliver(i, Answering(Accepted)))
    ensures SendsOf(Next(w', Deliver(i, Answering(Accepted))).hist, m.id) == SendsOf(w'.hist, m.id) + [sent]
    ensures SendTo(sent, m.id)
  {
    hide Inv, SendsOf, Handled;
    KnownSend(w, i, sent);
    DeliverView(w', i, Answering(Accepted), m.id);
  }

  /** A send of the stored row keeps the placement invariant. */
  lemma KnownSend(w: World, i: nat, sent: Event)
    requires Inv(w) && i < |w.entries| && w.entries[i].place.Main?
    requires sent == SendEvent(w, DeliveryOf(w.entries[i].msg), w.entries[i].msg.body.msg, Answering(Accepted))
    ensures Inv(w.(hist := w.hist + [sent])) && SendTo(sent, w.entries[i].msg.body.msg.id)
  {
    assert Placed(w.rows, w.entries[i]);
  }

  /** For every notification and each attempt above 0, such a run from the empty system: the provider accepts the
      attempt twice. */
  lemma CrashAfterSendRepeats(ttls: RetryTTLs, n: Notification, a: nat) returns (steps: seq<Step>, w: World)
    requires Storable(n) && 1 <= a <= 3
    ensures Taken(Init(ttls), steps) == Some(w)
    ensures var sends := SendsOf(w.hist, n.id);
            && |sends| == a + 2 && sends[a] == sends[a + 1]
            && sends[a].Sent? && sends[a].attempt == a && sends[a].outcome.Accepted?
  {
    hide Taken, Inv, SendsOf, Head;
    var before, w1 := ReachAttempt(ttls, n, a);
    var m := MessageFrom(n);
    SoloHead(w1, m, a);
    CrashRepeats(w1, 0, m);
    var more := [Pick(0)]
        + ([Perform(0, GOOD)] + ([Perform(0, GOOD)] + ([Crash(0)] + [Deliver(0, Answering(Accepted))])));
    steps, w := before + more, Taken(w1, more).value;
    TakeConcat(Init(ttls), before, more);
  }

  lemma SoloHead(w: World, m: NotificationMessage, a: int)
    requires Solo(w, m, a)
    ensures Head(w, 0)
  {
  }

  /** A delivery calls the provider, whether or not it has accepted the notification before, iff its attempt is
      above 0 or the ledger takes its id as new. */
  lemma RepeatsExactly(w: World, i: nat, m: NotificationMessage, env: Env)
    requires Inv(w) && Enabled(w, Deliver(i, env)) && w.entries[i].msg.body == Encoded(m)
    ensures var sends, sends' := SendsOf(w.hist, m.id), SendsOf(Next(w, Deliver(i, env)).hist, m.id);
            && sends <= sends' && |sends'| <= |sends| + 1
            && (sends' != sends <==> AttemptOf(w.entries[i].msg) >= 1 || (!env.mark.Reported() && m.id !in w.processed))
  {
    hide Inv, SendsOf, Handled;
    DeliveredFits(w, i);
    DeliverView(w, i, env, m.id);
  }

  // ---------------------------------------------------------------- a lost confirm

  /** A retry publish whose confirm is lost: the attempt is made and repeated at the next level, but not recorded,
      so the trail starts with number 1. */
  lemma LostConfirmUnrecorded(ttls: RetryTTLs, n: Notification) returns (steps: seq<Step>, w: World)
    requires Storable(n)
    ensures Taken(Init(ttls), steps) == Some(w)
    ensures LogOf(w.log, n.id) == [Attempt(n.id, 1, Success)] && |SendsOf(w.hist, n.id)| == 2
    ensures !IsTrail(LogOf(w.log, n.id))
  {
    hide Taken, Inv, SendsOf, Solo, FirstMessage;
    var m, deliver := MessageFrom(n), Deliver(0, Answering(Accepted));
    PublishedSolo(ttls, n);
    var more, w1 := RefusedOnce(Published(ttls, n), m, 0, After);
    PublishedFirst(ttls, n, more + [deliver]);
    TakeConcat(Published(ttls, n), more, [deliver]);
    SoloAccepted(w1, m, 1);
    TakeLast(w1, deliver);
    steps, w := [Insert(n)] + ([PublishRow(n.id, NoFault)] + (more + [deliver])), Next(w1, deliver);
    LogAppend([], Attempt(n.id, 1, Success), n.id);
    assert [] + [Attempt(n.id, 1, Success)] == [Attempt(n.id, 1, Success)];
  }

  lemma SoloAccepted(w: World, m: NotificationMessage, a: nat)
    requires Solo(w, m, a) && a >= 1 && m.id in w.rows
    ensures var deliver := Deliver(0, Answering(Accepted));
            && Enabled(w, deliver) && Next(w, deliver).log == w.log + [Attempt(m.id, a, Success)]
            && |SendsOf(Next(w, deliver).hist, m.id)| == |SendsOf(w.hist, m.id)| + 1
  {
    hide Inv, SendsOf, Handled;
    DeliveredFits(w, 0);
    DeliverView(w, 0, Answering(Accepted), m.id);
    AcceptedRecord(w, m);
  }

  lemma AcceptedRecord(w: World, m: NotificationMessage)
    requires Inv(w) && Enabled(w, Deliver(0, Answering(Accepted))) && w.entries[0].msg.body == Encoded(m)
    requires AttemptOf(w.entries[0].msg) >= 1 && m.id in w.rows
    ensures Next(w, Deliver(0, Answering(Accepted))).log
            == w.log + [Attempt(m.id, AttemptOf(w.entries[0].msg), Success)]
  {
    hide Inv, Handled, Head;
    DeliverTables(w, 0, Answering(Accepted));
  }

  // ---------------------------------------------------------------- cancelled is not final

  /** Cancelling a notification whose copy is queued does not stop it: the worker sends it and marks it delivered. */
  lemma CancelledIsSent(ttls: RetryTTLs, n: Notification)
    requires Storable(n)
    ensures var id := n.id;
            var steps := [Insert(n)] + ([PublishRow(id, NoFault)] + ([Cancel(id)] + [Deliver(0, Answering(Accepted))]));
            var end := Taken(Init(ttls), steps);
            && end.Some? && end.value.rows == map[id := n.(status := Delivered)]
            && Sent(ToNotification(MessageFrom(n)), 0, Accepted, 0) in end.value.hist
            && CancelledRow(id) in end.value.hist
  {
    hide FirstMessage, Next, Enabled, Taken;
    FirstKey(n);
    var id := n.id;
    var w0, deliver := Published(ttls, n), Deliver(0, Answering(Accepted));
    PublishedFirst(ttls, n, [Cancel(id)] + [deliver]);
    CancelStep(w0, id);
    TakeOne(w0, Cancel(id), [deliver]);
    var w1 := w0.(rows := map[id := n.(status := Status.Cancelled)], hist := w0.hist + [CancelledRow(id)]);
    assert SetRow(w0.rows, id, Status.Cancelled) == w1.rows;
    AcceptStep(w1, n);
    TakeLast(w1, deliver);
    assert w1.hist[|w0.hist|] == CancelledRow(id);
  }

  lemma CancelStep(w: World, id: Uuid)
    requires id in w.rows && w.rows[id].status.Pending?
    ensures Enabled(w, Cancel(id))
    ensures Next(w, Cancel(id)) == w.(rows := SetRow(w.rows, id, Status.Cancelled), hist := w.hist + [CancelledRow(id)])
  {
  }

  lemma AcceptStep(w: World, n: Notification)
    requires |w.entries| == 1 && w.entries[0].place.Main? && w.entries[0].handling.Ready?
    requires w.entries[0].msg.body == Encoded(MessageFrom(n)) && AttemptOf(w.entries[0].msg) == 0
    requires w.processed == {} && w.rows == map[n.id := n.(status := Status.Cancelled)]
    ensures var deliver := Deliver(0, Answering(Accepted));
            && Enabled(w, deliver) && Next(w, deliver).rows == map[n.id := n.(status := Status.Delivered)]
            && Sent(ToNotification(MessageFrom(n)), 0, Accepted, w.now) in Next(w, deliver).hist
            && w.hist <= Next(w, deliver).hist
  {
    var marked := w.(processed := {n.id}, hist := w.hist + [Marked(n.id)]);
    assert Mark(w, n.id, NoFault).processed == marked.processed;
    var sent := Sent(ToNotification(MessageFrom(n)), 0, Accepted, w.now);
    var w1 := HandleSpec(w, DeliveryOf(w.entries[0].msg), Answering(Accepted)).0;
    assert w1.hist == marked.hist + [sent];
    assert w1.hist[|w.hist| + 1] == sent;
  }

  /** What a delivery does to a cancelled row: it stays cancelled iff the provider was not called, or its answer's
      status update does not happen. */
  lemma CancelledExactly(w: World, i: nat, m: NotificationMessage, env: Env)
    requires Inv(w) && Enabled(w, Deliver(i, env)) && w.entries[i].msg.body == Encoded(m)
    requires m.id in w.rows && w.rows[m.id].status.Cancelled?
    ensures var id, a, rows := m.id, AttemptOf(w.entries[i].msg), Next(w, Deliver(i, env)).rows;
            var called := a != 0 || (!env.mark.Reported() && id !in w.processed);
            id in rows && rows[id].status.Cancelled? <==>
              || !called
              || (if env.send.Accepted? then env.delivered == Before
                  else env.ctxDone || a <= 2 || env.dlq.Reported() || env.failed == Before)
  {
    hide Inv, Handled;
    DeliveredFits(w, i);
    DeliverTables(w, i, env);
  }

  // ---------------------------------------------------------------- a replay that overtakes the ledger delete

  /** The dead-letter publish comes before the ledger delete. Replayed in between, a copy is still taken for a
      duplicate: nothing is sent, and nothing is left anywhere. */
  lemma ReplayOvertakes(w: World, e: Entry, m: NotificationMessage, outcome: Outcome)
    requires Inv(w) && w.entries == [e] && e.handling == Running(AtDlq) && e.msg.body == Encoded(m)
    requires m.id in w.processed
    ensures var steps := [Perform(0, GOOD)] + ([Replay(1, NoFault)] + ([Deliver(1, Answering(outcome))]
                         + ([Perform(0, GOOD)] + ([Perform(0, GOOD)] + ([Perform(0, GOOD)] + [Settle(0)])))));
            var end := Taken(w, steps);
            && end.Some? && end.value.entries == [] && SendsOf(end.value.hist, m.id) == SendsOf(w.hist, m.id)
  {
    hide Inv, SendsOf, Next, Enabled, Taken;
    var deliver, p := Deliver(1, Answering(outcome)), Perform(0, GOOD);
    var book := [p] + ([p] + ([p] + [Settle(0)]));
    DlqStep(w, e, m);
    TakeOne(w, p, [Replay(1, NoFault)] + ([deliver] + book));
    var w1 := Next(w, p);
    ReplayStep(w1, m);
    TakeOne(w1, Replay(1, NoFault), [deliver] + book);
    var w2 := Next(w1, Replay(1, NoFault));
    SkipStep(w2, m, Answering(outcome));
    TakeOne(w2, deliver, book);
    SweepUp(Next(w2, deliver), m);
  }

  /** For every notification, such a run from the empty system: four refused calls, a replay, and then no call, no
      copy. */
  lemma ReplayOvertakesDelete(ttls: RetryTTLs, n: Notification, outcome: Outcome) returns (steps: seq<Step>, w: World)
    requires Storable(n)
    ensures Taken(Init(ttls), steps) == Some(w) && w.entries == [] && |SendsOf(w.hist, n.id)| == 4
    ensures exists k :: 0 <= k < |steps| && steps[k] == Replay(1, NoFault)
  {
    hide Taken, Inv, SendsOf, Next, Enabled;
    var before, w0 := ReachAttempt(ttls, n, 3);
    var m, p := MessageFrom(n), Perform(0, GOOD);
    var w3 := ExhaustedLast(w0, m);
    var refuse := Perform(0, REFUSED);
    ReplayOvertakes(w3, w3.entries[0], m, outcome);
    var rest := [p] + ([Replay(1, NoFault)] + ([Deliver(1, Answering(outcome))] + ([p] + ([p] + ([p] + [Settle(0)])))));
    var more := [Pick(0)] + ([p] + ([refuse] + rest));
    steps, w := before + more, Taken(w3, rest).value;
    TakeConcat(Init(ttls), before, more);
    TakeOne(w0, Pick(0), [p] + ([refuse] + rest));
    TakeOne(Next(w0, Pick(0)), p, [refuse] + rest);
    TakeOne(Next(Next(w0, Pick(0)), p), refuse, rest);
    assert more[4] == Replay(1, NoFault);
    assert steps[|before| + 4] == Replay(1, NoFault);
  }

  const REFUSED := Choice(NoFault, DeliveryFailed, false)

  /** The worker picks up the last attempt and is refused. */
  lemma ExhaustedLast(w: World, m: NotificationMessage) returns (w3: World)
    requires Solo(w, m, 3)
    ensures Enabled(w, Pick(0))
    ensures var w1 := Next(w, Pick(0));
            && Enabled(w1, Perform(0, GOOD))
            && var w2 := Next(w1, Perform(0, GOOD));
               Enabled(w2, Perform(0, REFUSED)) && w3 == Next(w2, Perform(0, REFUSED))
    ensures Inv(w3) && |w3.entries| == 1 && w3.entries[0].handling == Running(AtDlq)
    ensures w3.entries[0].msg.body == Encoded(m)
    ensures m.id in w3.processed && |SendsOf(w3.hist, m.id)| == |SendsOf(w.hist, m.id)| + 1
  {
    hide Inv, SendsOf, Next, Enabled;
    SoloHead(w, m, 3);
    PickStep(w, 0);
    StepKeeps(w, Pick(0));
    var w1 := Next(w, Pick(0));
    EnterStep(w1, 0, m);
    StepKeeps(w1, Perform(0, GOOD));
    var w2 := Next(w1, Perform(0, GOOD));
    RefuseStep(w2, 0, m);
    StepKeeps(w2, Perform(0, REFUSED));
    w3 := Next(w2, Perform(0, REFUSED));
    SendsAppend(w2.hist, Refused(m, 3, w2.now), m.id);
  }

  lemma RefuseStep(w: World, i: nat, m: NotificationMessage)
    requires i < |w.entries| && w.entries[i].handling == Running(AtSend) && w.entries[i].msg.body == Encoded(m)
    requires AttemptOf(w.entries[i].msg) == 3
    ensures Enabled(w, Perform(i, REFUSED))
    ensures Next(w, Perform(i, REFUSED)) == AtPc(w, i, Running(AtDlq)).(hist := w.hist + [Refused(m, 3, w.now)])
  {
  }

  /** The exhausted handling's own copy, still out, and something behind it. */
  ghost predicate Exhausting(w: World, m: NotificationMessage) {
    && Inv(w) && |w.entries| >= 1 && m.id in w.processed
    && w.entries[0].handling == Running(AtFailed) && w.entries[0].msg.body == Encoded(m)
  }

  lemma DlqStep(w: World, e: Entry, m: NotificationMessage)
    requires Inv(w) && w.entries == [e] && e.handling == Running(AtDlq) && e.msg.body == Encoded(m)
    requires m.id in w.processed
    ensures Enabled(w, Perform(0, GOOD))
    ensures var w' := Next(w, Perform(0, GOOD));
            && Exhausting(w', m) && |w'.entries| == 2 && w'.entries[1].place.Dead? && w'.entries[1].handling.Ready?
            && w'.entries[1].msg.body == Encoded(m) && w'.hist == w.hist
  {
    hide Inv, DlqOf;
    RunningFits(w, e);
    PerformKeeps(w, 0, GOOD);
    DlqKeeps(w, DeliveryOf(e.msg), NoFault);
    DeadBody(DeliveryOf(e.msg));
  }

  lemma ReplayStep(w: World, m: NotificationMessage)
    requires Exhausting(w, m) && |w.entries| == 2 && w.entries[1].place.Dead? && w.entries[1].handling.Ready?
    requires w.entries[1].msg.body == Encoded(m)
    ensures Enabled(w, Replay(1, NoFault))
    ensures var w' := Next(w, Replay(1, NoFault));
            && Exhausting(w', m) && |w'.entries| == 2 && w'.entries[1].place.Main? && w'.entries[1].handling.Ready?
            && w'.entries[1].msg.body == Encoded(m) && AttemptOf(w'.entries[1].msg) == 0
            && SendsOf(w'.hist, m.id) == SendsOf(w.hist, m.id)
  {
    hide Inv, SendsOf, ReplayMessage, Republished;
    MainOrDead(w);
    ReplayView(w, 1, NoFault, m.id);
    StepKeeps(w, Replay(1, NoFault));
    ReplayLedger(w, 1);
  }

  /** A copy out with a handler is in a main queue. */
  lemma MainOrDead(w: World)
    requires Inv(w) && |w.entries| >= 1 && w.entries[0].handling.Running?
    ensures w.entries[0].place.Main?
  {
    assert Placed(w.rows, w.entries[0]);
  }

  lemma SkipStep(w: World, m: NotificationMessage, env: Env)
    requires Exhausting(w, m) && |w.entries| == 2 && w.entries[1].place.Main? && w.entries[1].handling.Ready?
    requires w.entries[1].msg.body == Encoded(m) && AttemptOf(w.entries[1].msg) == 0
    ensures Enabled(w, Deliver(1, env))
    ensures var w' := Next(w, Deliver(1, env));
            w'.entries == [w.entries[0]] && SendsOf(w'.hist, m.id) == SendsOf(w.hist, m.id)
  {
    hide Inv, SendsOf, Handled;
    DeliverView(w, 1, env, m.id);
  }

  lemma RunningFits(w: World, e: Entry)
    requires Inv(w) && w.entries == [e] && e.handling.Running?
    ensures e.place.Main? && e.msg.body.Encoded? && DeliveryFits(w.rows, DeliveryOf(e.msg), e.handling.pc)
  {
    assert Placed(w.rows, w.entries[0]);
  }

  lemma DeadBody(d: Delivery)
    requires d.body.Encoded?
    ensures DlqOf(d, d.body.msg).body == d.body
  {
  }

  lemma ReplayLedger(w: World, i: nat)
    requires Enabled(w, Replay(i, NoFault))
    ensures Next(w, Replay(i, NoFault)).processed == w.processed
  {
    hide ReplayMessage, Arrivals, RouteEvents;
  }

  /** The rest of the exhausted handling: status, ledger, trail, ack. */
  lemma SweepUp(w: World, m: NotificationMessage)
    requires |w.entries| == 1 && w.entries[0].handling == Running(AtFailed) && w.entries[0].msg.body == Encoded(m)
    ensures var end := Taken(w, [Perform(0, GOOD)] + ([Perform(0, GOOD)] + ([Perform(0, GOOD)] + [Settle(0)])));
            && end.Some? && end.value.entries == [] && SendsOf(end.value.hist, m.id) == SendsOf(w.hist, m.id)
  {
    hide SendsOf, Next, Enabled, Taken;
    var p := Perform(0, GOOD);
    BookStep(w, 0, m);
    UnmarkedSends(w, Next(w, p), m.id);
    TakeOne(w, p, [p] + ([p] + [Settle(0)]));
    var w1 := Next(w, p);
    BookStep(w1, 0, m);
    UnmarkedSends(w1, Next(w1, p), m.id);
    TakeOne(w1, p, [p] + [Settle(0)]);
    var w2 := Next(w1, p);
    BookStep(w2, 0, m);
    UnmarkedSends(w2, Next(w2, p), m.id);
    TakeOne(w2, p, [Settle(0)]);
    SettleStep(Next(w2, p));
    TakeLast(Next(w2, p), Settle(0));
  }

  lemma UnmarkedSends(w: World, w': World, id: Uuid)
    requires w'.hist == w.hist || w'.hist == w.hist + [Unmarked(id)]
    ensures SendsOf(w'.hist, id) == SendsOf(w.hist, id)
  {
    if w'.hist != w.hist {
      SendsAppend(w.hist, Unmarked(id), id);
    }
  }

  lemma SettleStep(w: World)
    requires |w.entries| == 1 && w.entries[0].handling == Running(Done(Moved))
    ensures Enabled(w, Settle(0)) && Next(w, Settle(0)).entries == [] && Next(w, Settle(0)).hist == w.hist
  {
  }
}
