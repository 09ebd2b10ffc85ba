/** Retry spacing in every run: a provider call numbered k >= 1 comes at least the TTL of level k after an earlier call
    numbered k - 1 for the same notification, whatever crashes, fails, is redelivered or replayed. */
module Spacing {
  import opened Domain
  import opened Topology
  import opened Routing
  import opened World
  import opened Handle
  import opened Protocol
  import opened Placement
  import opened Cycles
  import opened Lives

  predicate CallBy(ev: Event, id: Uuid, attempt: int, due: int) {
    ev.Sent? && ev.to.id == id && ev.attempt == attempt && ev.at <= due
  }

  /** The provider was called for id, with this attempt number, at that time or before. */
  ghost predicate Called(hist: seq<Event>, id: Uuid, attempt: int, due: int) {
    exists i :: 0 <= i < |hist| && CallBy(hist[i], id, attempt, due)
  }

  /** A copy that carries attempt a >= 1 owes its number to a call numbered a - 1, long enough ago. */
  ghost predicate EntrySpaced(w: World, e: Entry) {
    e.msg.body.Encoded? ==>
      var id, a := e.msg.body.msg.id, AttemptOf(e.msg);
      match e.place
      case Main(_) =>
        && (a >= 1 ==> Called(w.hist, id, a - 1, w.now - Ttl(w.ttls, a)))
        && (e.handling.Running? && e.handling.pc.AtRetry? ==> Called(w.hist, id, a, w.now))
      case Hold(_, level) => Called(w.hist, id, level - 1, e.at)
      case Dead(_) => true
  }

  ghost predicate SendSpaced(ttls: RetryTTLs, hist: seq<Event>, j: nat)
    requires j < |hist|
  {
    hist[j].Sent? && hist[j].attempt >= 1 ==>
      Called(hist[..j], hist[j].to.id, hist[j].attempt - 1, hist[j].at - Ttl(ttls, hist[j].attempt))
  }

  ghost predicate Spaced(w: World) {
    && Inv(w)
    && (forall e :: e in w.entries ==> EntrySpaced(w, e))
    && forall j: nat :: j < |w.hist| ==> SendSpaced(w.ttls, w.hist, j)
  }

  /** Time has passed and history grown. */
  ghost predicate Later(w: World, w': World) { w.hist <= w'.hist && w'.now >= w.now && w'.ttls == w.ttls }

  lemma CalledStays(hist: seq<Event>, hist': seq<Event>, id: Uuid, attempt: int, due: int, due': int)
    requires hist <= hist' && due <= due' && Called(hist, id, attempt, due)
    ensures Called(hist', id, attempt, due')
  {
    var i :| 0 <= i < |hist| && CallBy(hist[i], id, attempt, due);
    assert CallBy(hist'[i], id, attempt, due');
  }

  lemma EntryStays(w: World, w': World, e: Entry)
    requires Later(w, w') && EntrySpaced(w, e)
    ensures EntrySpaced(w', e)
  {
    hide Called;
    if e.msg.body.Encoded? {
      var id, a := e.msg.body.msg.id, AttemptOf(e.msg);
      match e.place
      case Main(_) =>
        if a >= 1 {
          CalledStays(w.hist, w'.hist, id, a - 1, w.now - Ttl(w.ttls, a), w'.now - Ttl(w'.ttls, a));
        }
        if e.handling.Running? && e.handling.pc.AtRetry? {
          CalledStays(w.hist, w'.hist, id, a, w.now, w'.now);
        }
      case Hold(_, level) => CalledStays(w.hist, w'.hist, id, level - 1, e.at, e.at);
      case Dead(_) =>
    }
  }

  /** Only new copies and new calls need an argument. */
  lemma StaySpaced(w: World, w': World)
    requires Spaced(w) && Inv(w') && Later(w, w')
    requires forall e :: e in w'.entries ==> e in w.entries || EntrySpaced(w', e)
    requires forall j: nat :: |w.hist| <= j < |w'.hist| ==> SendSpaced(w'.ttls, w'.hist, j)
    ensures Spaced(w')
  {
    hide Inv, EntrySpaced, Called;
    forall e | e in w'.entries ensures EntrySpaced(w', e) {
      if e in w.entries {
        EntryStays(w, w', e);
      }
    }
    forall j: nat | j < |w'.hist| ensures SendSpaced(w'.ttls, w'.hist, j) {
      if j < |w.hist| {
        assert SendSpaced(w.ttls, w.hist, j);
        assert w'.hist[..j] == w.hist[..j];
      }
    }
  }

  // ---------------------------------------------------------------- one effect

  /** An effect changes neither clock nor TTLs, and only the send makes a call: the one its delivery is numbered for. */
  lemma EffectCalls(w: World, d: Delivery, pc: Pc, c: Choice)
    ensures var w' := Effect(w, d, pc, c).0;
            && w'.now == w.now && w'.ttls == w.ttls && w.hist <= w'.hist
            && forall k :: |w.hist| <= k < |w'.hist| && w'.hist[k].Sent? ==>
                 && d.body.Encoded? && pc.AtSend? && k == |w.hist|
                 && w'.hist[k] == Sent(ToNotification(d.body.msg), d.attempt, c.outcome, w.now)
  {
    hide PoisonOf, RetryOf, DlqOf, Route;
  }

  /** The copy an effect publishes: at the next retry level, or dead. */
  lemma EffectCopies(w: World, d: Delivery, pc: Pc, c: Choice)
    requires Inv(w) && DeliveryFits(w.rows, d, pc)
    ensures var w' := Effect(w, d, pc, c).0;
            && w.entries <= w'.entries
            && forall k :: |w.entries| <= k < |w'.entries| ==>
                 var e := w'.entries[k];
                 e.place.Dead? || (pc.AtRetry? && e.place.Hold? && e.place.level == d.attempt + 1 && e.at == w.now
                                   && e.msg.body == d.body)
  {
    hide Inv, RetryOf, DlqOf, PoisonOf, Route;
    if pc.AtRetry? {
      RetryIs(w, d, pc, c);
      RetryKeeps(w, d, c.fault);
      RetryBody(d);
    } else if pc.AtDlq? {
      DlqIs(w, d, pc, c);
      DlqKeeps(w, d, c.fault);
    }
  }

  lemma RetryBody(d: Delivery)
    requires d.body.Encoded?
    ensures RetryOf(d, d.body.msg).body == d.body
  {
  }

  /** After a send the handler may go on to the retry publish; before it, it cannot have got there. */
  lemma RetryAfterSend(w: World, d: Delivery, pc: Pc, c: Choice)
    requires d.body.Encoded?
    ensures Effect(w, d, pc, c).1.AtRetry? ==> pc.AtSend?
    ensures pc.AtSend? ==>
              Effect(w, d, pc, c).0.hist == w.hist + [Sent(ToNotification(d.body.msg), d.attempt, c.outcome, w.now)]
  {
    hide PoisonOf, RetryOf, DlqOf, Publish;
  }

  lemma PerformSpaced(w: World, i: nat, c: Choice)
    requires Spaced(w) && Enabled(w, Perform(i, c))
    ensures Spaced(Next(w, Perform(i, c)))
  {
    hide Inv, Effect, Called, EntrySpaced, SendSpaced;
    var e, w' := w.entries[i], Next(w, Perform(i, c));
    PerformKeeps(w, i, c);
    EffectCalls(w, DeliveryOf(e.msg), e.handling.pc, c);
    forall x | x in w'.entries ensures x in w.entries || EntrySpaced(w', x) {
      var k: nat :| k < |w'.entries| && w'.entries[k] == x;
      PerformedEntry(w, i, c, k);
    }
    forall j: nat | |w.hist| <= j < |w'.hist| ensures SendSpaced(w'.ttls, w'.hist, j) {
      PerformedCall(w, i, c, j);
    }
    StaySpaced(w, w');
  }

  lemma PerformedEntry(w: World, i: nat, c: Choice, k: nat)
    requires Spaced(w) && Enabled(w, Perform(i, c)) && k < |Next(w, Perform(i, c)).entries|
    ensures var w' := Next(w, Perform(i, c)); w'.entries[k] in w.entries || EntrySpaced(w', w'.entries[k])
  {
    hide Inv, Effect, Called, EntrySpaced, SendSpaced;
    var e, w' := w.entries[i], Next(w, Perform(i, c));
    var d, pc := DeliveryOf(e.msg), e.handling.pc;
    RunningFits(w, i);
    EffectCalls(w, d, pc, c);
    EffectCopies(w, d, pc, c);
    assert EntrySpaced(w, e);
    if k == i {
      RetryAfterSend(w, d, pc, c);
      OwnSpaced(w, w', e, Effect(w, d, pc, c).1, c);
    } else if k >= |w.entries| {
      CopySpaced(w, w', e, w'.entries[k]);
    }
  }

  lemma PerformedCall(w: World, i: nat, c: Choice, j: nat)
    requires Spaced(w) && Enabled(w, Perform(i, c)) && |w.hist| <= j < |Next(w, Perform(i, c)).hist|
    ensures SendSpaced(Next(w, Perform(i, c)).ttls, Next(w, Perform(i, c)).hist, j)
  {
    hide Inv, Effect, Called, EntrySpaced;
    var e, w' := w.entries[i], Next(w, Perform(i, c));
    RunningFits(w, i);
    EffectCalls(w, DeliveryOf(e.msg), e.handling.pc, c);
    assert EntrySpaced(w, e);
    if w'.hist[j].Sent? {
      assert w'.hist[..j] == w.hist;
      CallSpaced(w, e, w'.hist[j]);
    }
  }

  lemma RunningFits(w: World, i: nat)
    requires Inv(w) && i < |w.entries| && w.entries[i].handling.Running?
    ensures w.entries[i].msg.body.Encoded? && w.entries[i].place.Main?
    ensures DeliveryFits(w.rows, DeliveryOf(w.entries[i].msg), w.entries[i].handling.pc)
  {
    assert Placed(w.rows, w.entries[i]);
  }

  lemma CallSpaced(w: World, e: Entry, ev: Event)
    requires EntrySpaced(w, e) && e.place.Main? && e.msg.body.Encoded? && ev.Sent? && ev.at == w.now
    requires ev.to.id == e.msg.body.msg.id && ev.attempt == AttemptOf(e.msg)
    ensures ev.attempt >= 1 ==> Called(w.hist, ev.to.id, ev.attempt - 1, ev.at - Ttl(w.ttls, ev.attempt))
  {
  }

  /** The delivery's own entry, with its handler one effect on. */
  lemma OwnSpaced(w: World, w': World, e: Entry, pc: Pc, c: Choice)
    requires Later(w, w') && EntrySpaced(w, e) && e.place.Main? && e.handling.Running? && e.msg.body.Encoded?
    requires pc.AtRetry? ==>
               w'.now == w.now
               && w'.hist == w.hist + [Sent(ToNotification(e.msg.body.msg), AttemptOf(e.msg), c.outcome, w.now)]
    ensures EntrySpaced(w', e.(handling := Running(pc, e.handling.attached)))
  {
    EntryStays(w, w', e);
    if pc.AtRetry? {
      assert CallBy(w'.hist[|w.hist|], e.msg.body.msg.id, AttemptOf(e.msg), w'.now);
    }
  }

  /** The copy its handler published. */
  lemma CopySpaced(w: World, w': World, e: Entry, x: Entry)
    requires Later(w, w') && EntrySpaced(w, e) && e.place.Main? && e.handling.Running? && e.msg.body.Encoded?
    requires x.place.Dead? || (e.handling.pc.AtRetry? && x.place.Hold? && x.place.level == AttemptOf(e.msg) + 1
                               && x.at == w.now && x.msg.body == e.msg.body)
    ensures EntrySpaced(w', x)
  {
    hide Called;
    if !x.place.Dead? {
      CalledStays(w.hist, w'.hist, e.msg.body.msg.id, AttemptOf(e.msg), w.now, w.now);
    }
  }

  // ---------------------------------------------------------------- every step

  /** Handlers come and go without an effect. */
  lemma HandlingSpaced(w: World, w': World)
    requires Spaced(w) && Inv(w') && w'.hist == w.hist && w'.now == w.now && w'.ttls == w.ttls
    requires forall x :: x in w'.entries ==>
               exists e :: e in w.entries && x == e.(handling := x.handling)
                           && (x.handling.Running? && x.handling.pc.AtRetry? ==>
                                 e.handling.Running? && e.handling.pc.AtRetry?)
    ensures Spaced(w')
  {
    hide Inv, Called;
    forall x | x in w'.entries ensures EntrySpaced(w', x) {
      var e :| e in w.entries && x == e.(handling := x.handling)
               && (x.handling.Running? && x.handling.pc.AtRetry? ==> e.handling.Running? && e.handling.pc.AtRetry?);
      assert EntrySpaced(w, e);
    }
    StaySpaced(w, w');
  }

  lemma PickSpaced(w: World, i: nat, h: Handling)
    requires Spaced(w) && i < |w.entries| && Inv(SetHandling(w, i, h)) && (h.Running? ==> h.pc.Enter?)
    ensures Spaced(SetHandling(w, i, h))
  {
    hide Inv, EntrySpaced;
    var w' := SetHandling(w, i, h);
    forall x | x in w'.entries
      ensures exists e :: e in w.entries && x == e.(handling := x.handling)
                          && (x.handling.Running? && x.handling.pc.AtRetry? ==>
                             e.handling.Running? && e.handling.pc.AtRetry?)
    {
      var k :| 0 <= k < |w'.entries| && w'.entries[k] == x;
      assert w.entries[k] in w.entries;
    }
    HandlingSpaced(w, w');
  }

  lemma DetachedSpaced(w: World, i: nat)
    requires Spaced(w) && Enabled(w, Redeliver(i))
    ensures Spaced(Next(w, Redeliver(i)))
  {
    hide Inv, EntrySpaced;
    DetachedKeeps(w, i);
    var w' := Detached(w, i);
    forall x | x in w'.entries
      ensures exists e :: e in w.entries && x == e.(handling := x.handling)
                          && (x.handling.Running? && x.handling.pc.AtRetry? ==>
                             e.handling.Running? && e.handling.pc.AtRetry?)
    {
      var k :| 0 <= k < |w'.entries| && w'.entries[k] == x;
      assert w.entries[if k < |w.entries| then k else i] in w.entries;
    }
    HandlingSpaced(w, w');
  }

  /** A step that makes no call, and adds at most one copy, which is spaced. */
  lemma QuietSpaced(w: World, w': World, kept: seq<Entry>, more: seq<Entry>)
    requires Spaced(w) && Inv(w') && Later(w, w') && w'.entries == kept + more
    requires forall e :: e in kept ==> e in w.entries
    requires forall e :: e in more ==> EntrySpaced(w', e)
    requires forall j :: |w.hist| <= j < |w'.hist| ==> !w'.hist[j].Sent?
    ensures Spaced(w')
  {
    hide Inv, EntrySpaced, Called;
    StaySpaced(w, w');
  }

  lemma SettleSpaced(w: World, i: nat)
    requires Spaced(w) && Enabled(w, Settle(i))
    ensures Spaced(Next(w, Settle(i)))
  {
    hide Inv, EntrySpaced;
    StepKeeps(w, Settle(i));
    QuietSpaced(w, Next(w, Settle(i)), Remove(w.entries, i), []);
  }

  lemma CrashSpaced(w: World, i: nat)
    requires Spaced(w) && Enabled(w, Crash(i))
    ensures Spaced(Next(w, Crash(i)))
  {
    hide Inv, EntrySpaced;
    StepKeeps(w, Crash(i));
    if w.entries[i].handling.attached {
      PickSpaced(w, i, Ready);
    } else {
      QuietSpaced(w, Next(w, Crash(i)), Remove(w.entries, i), []);
    }
  }

  lemma ExpireSpaced(w: World, i: nat)
    requires Spaced(w) && Enabled(w, Expire(i))
    ensures Spaced(Next(w, Expire(i)))
  {
    hide Expired, Inv, EntrySpaced, SendSpaced;
    var e, w' := w.entries[i], Next(w, Expire(i));
    StepKeeps(w, Expire(i));
    HeldFits(w, i);
    ExpireKeeps(w, i);
    ExpireClock(w, i);
    assert EntrySpaced(w, e);
    var lane := LaneOf(e.msg.body.msg);
    var back := Entry(Main(lane), e.msg.(key := LaneKey(lane)), w.now, Ready);
    BackSpaced(w, w', e, back);
    QuietSpaced(w, w', Remove(w.entries, i), [back]);
  }

  lemma HeldFits(w: World, i: nat)
    requires Inv(w) && i < |w.entries| && w.entries[i].place.Hold?
    ensures w.entries[i].msg.body.Encoded? && AttemptOf(w.entries[i].msg) == w.entries[i].place.level
  {
    assert Placed(w.rows, w.entries[i]);
  }

  /** A copy that has waited out its level. */
  lemma BackSpaced(w: World, w': World, e: Entry, back: Entry)
    requires EntrySpaced(w, e) && e.place.Hold? && w'.hist == w.hist && w'.now == w.now && w'.ttls == w.ttls
    requires AttemptOf(e.msg) == e.place.level && w.now >= e.at + TtlOf(w, e.place)
    requires back.place.Main? && back.handling.Ready? && AttemptOf(back.msg) == e.place.level
    requires back.msg.body == e.msg.body
    ensures EntrySpaced(w', back)
  {
    hide Called;
    if e.msg.body.Encoded? {
      var level := e.place.level;
      CalledStays(w.hist, w'.hist, e.msg.body.msg.id, level - 1, e.at, w'.now - Ttl(w'.ttls, level));
    }
  }

  lemma ExpireClock(w: World, i: nat)
    requires Enabled(w, Expire(i))
    ensures Next(w, Expire(i)).now == w.now && Next(w, Expire(i)).ttls == w.ttls
  {
    hide ArgsOf, Arrivals, RouteEvents;
  }

  /** A copy of attempt 0 owes nothing. */
  lemma FirstSpaced(w: World, e: Entry)
    requires e.place.Main? && AttemptOf(e.msg) == 0 && e.handling.Ready?
    ensures EntrySpaced(w, e)
  {
  }

  lemma PublishRowSpaced(w: World, row: Uuid, fault: Fault)
    requires Spaced(w) && Enabled(w, PublishRow(row, fault))
    ensures Spaced(Next(w, PublishRow(row, fault)))
  {
    hide Inv, EntrySpaced, Called, PublishStored;
    var w', n := Next(w, PublishRow(row, fault)), w.rows[row];
    PublishRowKeeps(w, row, fault);
    var first := Entry(Main(Keys.Lane(n.channel, n.priority)), FirstMessage(n), w.now, Ready);
    FirstSpaced(w', first);
    QuietSpaced(w, w', w.entries, if fault.Applied() then [first] else []);
  }

  lemma RepublishSpaced(w: World, i: nat, fault: Fault)
    requires Spaced(w) && i < |w.entries| && w.entries[i].place.Dead?
    ensures Spaced(Republished(w, w.entries[i], fault))
  {
    hide Inv, EntrySpaced, Republished, ReplayMessage;
    DeadEncoded(w, i);
    var w', m := Republished(w, w.entries[i], fault), w.entries[i].msg.body.msg;
    RepublishKeeps(w, i, fault);
    var back := Entry(Main(LaneOf(m)), ReplayMessage(w.entries[i].msg, m.channel), w.now, Ready);
    FirstSpaced(w', back);
    QuietSpaced(w, w', w.entries, if fault.Applied() then [back] else []);
  }

  lemma ReplaySpaced(w: World, i: nat, fault: Fault)
    requires Spaced(w) && Enabled(w, Replay(i, fault))
    ensures Spaced(Next(w, Replay(i, fault)))
  {
    hide Spaced, Inv, Republished;
    RepublishSpaced(w, i, fault);
    RepublishAppends(w, i, fault);
    DropSpaced(Republished(w, w.entries[i], fault), i, ReplayExit(fault));
  }

  lemma DropSpaced(w: World, i: nat, exit: Exit)
    requires Spaced(w) && i < |w.entries|
    ensures Spaced(Drop(w, i, exit))
  {
    hide Inv, EntrySpaced;
    DropKeeps(w, i, exit);
    QuietSpaced(w, Drop(w, i, exit), Remove(w.entries, i), []);
  }

  lemma {:induction false} PerformFromSpaced(w: World, i: nat, env: Env)
    requires Spaced(w) && i < |w.entries| && w.entries[i].handling.Running? && w.entries[i].handling.attached
    ensures Spaced(PerformFrom(w, i, env))
    decreases Rank(w.entries[i].handling.pc)
  {
    hide Spaced, Effect, Drop;
    var pc := w.entries[i].handling.pc;
    if pc.Done? {
      DropSpaced(w, i, pc.exit);
    } else {
      var c := ChoiceAt(env, pc);
      EffectProgress(w, DeliveryOf(w.entries[i].msg), pc, c);
      EffectAppends(w, DeliveryOf(w.entries[i].msg), pc, c);
      PerformSpaced(w, i, c);
      PerformFromSpaced(Next(w, Perform(i, c)), i, env);
    }
  }

  lemma DeliverSpaced(w: World, i: nat, env: Env)
    requires Spaced(w) && Enabled(w, Deliver(i, env))
    ensures Spaced(Next(w, Deliver(i, env)))
  {
    hide EntrySpaced, PerformFrom, Handled;
    HandlingKeeps(w, i, Running(Enter));
    PickSpaced(w, i, Running(Enter));
    UninterruptedIsDeliver(w, i, env);
    PerformFromSpaced(Next(w, Pick(i)), i, env);
  }

  /** Steps that touch no queue. */
  lemma TablesSpaced(w: World, w': World)
    requires Spaced(w) && Inv(w') && Later(w, w') && w'.entries == w.entries
    requires forall j :: |w.hist| <= j < |w'.hist| ==> !w'.hist[j].Sent?
    ensures Spaced(w')
  {
    hide Inv, EntrySpaced;
    assert w.entries == w.entries + [];
    QuietSpaced(w, w', w.entries, []);
  }

  lemma StepSpaced(w: World, s: Step)
    requires Spaced(w) && Enabled(w, s)
    ensures Spaced(Next(w, s))
  {
    hide Inv, EntrySpaced, Called, SendSpaced, PublishStored, Handled, Expired, Republished, Performed, Drop, AddRows;
    StepKeeps(w, s);
    match s
    case Perform(i, c) => PerformSpaced(w, i, c);
    case Settle(i) => SettleSpaced(w, i);
    case Crash(i) => CrashSpaced(w, i);
    case Redeliver(i) => DetachedSpaced(w, i);
    case Pick(i) => PickSpaced(w, i, Running(Enter));
    case Deliver(i, env) => DeliverSpaced(w, i, env);
    case Expire(i) => ExpireSpaced(w, i);
    case PublishRow(row, fault) => PublishRowSpaced(w, row, fault);
    case Replay(i, fault) => ReplaySpaced(w, i, fault);
    case ReplayCrash(i) => RepublishSpaced(w, i, NoFault);
    case Insert(_) => TablesSpaced(w, Next(w, s));
    case InsertBatch(_, _) => TablesSpaced(w, Next(w, s));
    case Cancel(_) => TablesSpaced(w, Next(w, s));
    case Tick(_) => TablesSpaced(w, Next(w, s));
  }

  lemma {:induction false} RunSpaced(ttls: RetryTTLs, ws: seq<World>, steps: seq<Step>, k: nat)
    requires IsRun(ttls, ws, steps) && k < |ws|
    ensures Spaced(ws[k])
  {
    hide Next, Enabled, Inv;
    if k == 0 {
      EveryRunPlaced(ttls, ws, steps, 0);
    } else {
      RunSpaced(ttls, ws, steps, k - 1);
      StepSpaced(ws[k - 1], steps[k - 1]);
    }
  }

  lemma StepTtls(w: World, s: Step)
    requires Enabled(w, s)
    ensures Next(w, s).ttls == w.ttls
  {
    hide Effect, HandleSpec, Arrivals, RouteEvents, ReplayMessage, FirstMessage, ArgsOf;
    match s
    case Perform(i, c) => EffectCalls(w, DeliveryOf(w.entries[i].msg), w.entries[i].handling.pc, c);
    case Deliver(i, env) =>
      RunTtls(w, DeliveryOf(w.entries[i].msg), Enter, env);
      RunIsHandle(w, DeliveryOf(w.entries[i].msg), env);
    case _ =>
  }

  lemma {:induction false} RunTtls(w: World, d: Delivery, pc: Pc, env: Env)
    ensures RunFrom(w, d, pc, env).0.ttls == w.ttls
    decreases Rank(pc)
  {
    hide Effect;
    if !pc.Done? {
      var c := ChoiceAt(env, pc);
      EffectProgress(w, d, pc, c);
      EffectCalls(w, d, pc, c);
      RunTtls(Effect(w, d, pc, c).0, d, Effect(w, d, pc, c).1, env);
    }
  }

  lemma {:induction false} TtlsStay(ttls: RetryTTLs, ws: seq<World>, steps: seq<Step>, k: nat)
    requires IsRun(ttls, ws, steps) && k < |ws|
    ensures ws[k].ttls == ttls
  {
    hide Next, Enabled;
    if k > 0 {
      TtlsStay(ttls, ws, steps, k - 1);
      StepTtls(ws[k - 1], steps[k - 1]);
    }
  }

  /** In every run, each provider call numbered a >= 1 has an earlier call for the same notification, numbered a - 1, at
      least the TTL of level a before it. */
  lemma EveryRetrySpaced(ttls: RetryTTLs, ws: seq<World>, steps: seq<Step>, k: nat, j: nat) returns (i: nat)
    requires IsRun(ttls, ws, steps) && k < |ws| && j < |ws[k].hist|
    requires ws[k].hist[j].Sent? && ws[k].hist[j].attempt >= 1
    ensures var h := ws[k].hist;
            && i < j && h[i].Sent? && h[i].to.id == h[j].to.id && h[i].attempt == h[j].attempt - 1
            && h[i].at + Ttl(ttls, h[j].attempt) <= h[j].at
  {
    hide Next, Enabled, Inv, EntrySpaced;
    RunSpaced(ttls, ws, steps, k);
    TtlsStay(ttls, ws, steps, k);
    var h := ws[k].hist;
    assert SendSpaced(ttls, h, j);
    i :| 0 <= i < j && CallBy(h[..j][i], h[j].to.id, h[j].attempt - 1, h[j].at - Ttl(ttls, h[j].attempt));
  }

  /** ... and so one numbered 0, at least the TTLs of all levels in between before it. */
  lemma {:induction false} EveryRunSpacing(ttls: RetryTTLs, ws: seq<World>, steps: seq<Step>, k: nat, j: nat)
    returns (i: nat)
    requires IsRun(ttls, ws, steps) && k < |ws| && j < |ws[k].hist|
    requires ws[k].hist[j].Sent? && ws[k].hist[j].attempt >= 0
    ensures var h := ws[k].hist;
            && i <= j && h[i].Sent? && h[i].to.id == h[j].to.id && h[i].attempt == 0
            && h[i].at + HoldTime(ttls, h[j].attempt) <= h[j].at
    decreases j
  {
    hide IsRun;
    if ws[k].hist[j].attempt == 0 {
      i := j;
    } else {
      var before := EveryRetrySpaced(ttls, ws, steps, k, j);
      i := EveryRunSpacing(ttls, ws, steps, k, before);
    }
  }
}
