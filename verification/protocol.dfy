/** The delivery protocol as a step system: API calls, workers with crashes and redelivery, TTL expiry, cancel,
    replay. */
module Protocol {
  import opened Domain
  import opened Keys
  import opened Topology
  import opened Routing
  import opened World
  import opened Handle

  datatype Step =
    | Insert(n: Notification)
    | InsertBatch(batch: Uuid, ns: seq<Notification>)
    | PublishRow(id: Uuid, fault: Fault)
    // A worker, one effect at a time.
    | Pick(i: nat)
    | Perform(i: nat, c: Choice)
    | Settle(i: nat)
    | Crash(i: nat)         // the handler's process dies; the broker requeues what it had not settled
    | Redeliver(i: nat)     // the delivery's channel is lost: the broker requeues, and the handler runs on
    // A worker, uninterrupted.
    | Deliver(i: nat, env: Env)
    | Expire(i: nat)
    | Cancel(id: Uuid)
    | Replay(i: nat, fault: Fault)
    | ReplayCrash(i: nat)   // the replay's connection dies between its publish and its ack
    | Tick(ms: nat)

  function Remove<T>(s: seq<T>, i: nat): seq<T>
    requires i < |s|
  {
    s[..i] + s[i + 1..]
  }

  // ---------------------------------------------------------------- API

  predicate FreshRow(w: World, n: Notification) {
    n.id !in w.rows && n.status.Pending? && ValidLane(Lane(n.channel, n.priority))
  }

  predicate FreshBatch(w: World, batch: Uuid, ns: seq<Notification>) {
    && batch !in w.batches
    && (forall k :: 0 <= k < |ns| ==> FreshRow(w, ns[k]) && ns[k].batchId == Some(batch))
    && (forall j, k :: 0 <= j < k < |ns| ==> ns[j].id != ns[k].id)
  }

  function AddRows(rows: map<Uuid, Notification>, ns: seq<Notification>): (r: map<Uuid, Notification>)
    ensures forall id :: id in rows ==> id in r
    ensures forall id :: id in r ==> id in rows || exists k :: 0 <= k < |ns| && ns[k].id == id
  {
    if ns == [] then rows else AddRows(rows, ns[..|ns| - 1])[ns[|ns| - 1].id := ns[|ns| - 1]]
  }

  function PublishStored(w: World, n: Notification, fault: Fault): World {
    var routed := fault.Applied() && Route(Notifications, RoutingKey(n.channel, n.priority)).Some?;
    var handed := w.(hist := w.hist + [Handed(n.id)] + (if routed then [Born(n.id)] else []));
    Publish(handed, Notifications, FirstMessage(n), fault)
  }

  function CancelIfPending(w: World, id: Uuid): World {
    if id in w.rows && w.rows[id].status.Pending?
    then SetStatus(w.(hist := w.hist + [CancelledRow(id)]), id, Cancelled, NoFault)
    else w
  }

  // ---------------------------------------------------------------- broker

  /** Entry i is the next one its queue hands out. */
  predicate Head(w: World, i: nat) {
    && i < |w.entries| && w.entries[i].handling.Ready?
    && forall j :: 0 <= j < i && w.entries[j].place == w.entries[i].place ==> !w.entries[j].handling.Ready?
  }

  function SetHandling(w: World, i: nat, h: Handling): World
    requires i < |w.entries|
  {
    w.(entries := w.entries[i := w.entries[i].(handling := h)])
  }

  function LeftEvents(body: Body, exit: Exit): seq<Event> {
    if body.Encoded? && (exit.Completed? || exit.Duplicate? || exit.Discarded?) then [Left(body.msg.id, exit)] else []
  }

  /** Ack and nack without requeue both take the copy out: main and dead-letter queues have no dead-letter exchange. */
  function Drop(w: World, i: nat, exit: Exit): World
    requires i < |w.entries|
  {
    w.(entries := Remove(w.entries, i), hist := w.hist + LeftEvents(w.entries[i].msg.body, exit))
  }

  /** A handler whose channel was lost ends: there is nothing it could settle. */
  function HandlerGone(w: World, i: nat): World
    requires i < |w.entries|
  {
    w.(entries := Remove(w.entries, i))
  }

  /** The message goes back to its place in the queue; its handler runs on. */
  function Detached(w: World, i: nat): World
    requires i < |w.entries| && w.entries[i].handling.Running?
  {
    var e := w.entries[i];
    w.(entries := w.entries[i := e.(handling := Ready)] + [e.(handling := Running(e.handling.pc, false))])
  }

  function Performed(w: World, i: nat, c: Choice): World
    requires i < |w.entries| && w.entries[i].handling.Running?
  {
    var (w', pc) := Effect(w, DeliveryOf(w.entries[i].msg), w.entries[i].handling.pc, c);
    EffectAppends(w, DeliveryOf(w.entries[i].msg), w.entries[i].handling.pc, c);
    SetHandling(w', i, Running(pc, w.entries[i].handling.attached))
  }

  function Handled(w: World, i: nat, env: Env): World
    requires i < |w.entries|
  {
    var (w', exit) := HandleSpec(w, DeliveryOf(w.entries[i].msg), env);
    HandleAppends(w, DeliveryOf(w.entries[i].msg), env);
    Drop(w', i, exit)
  }

  function TtlOf(w: World, place: Place): int { if place.Hold? then TtlMs(w.ttls.Level(place.level)) else 0 }

  /** At the end of its TTL a message is dead-lettered as its queue's arguments say. */
  function Expired(w: World, i: nat): World
    requires i < |w.entries| && w.entries[i].place.Hold?
  {
    var e := w.entries[i];
    var args := ArgsOf(e.place, w.ttls);
    Publish(w.(entries := Remove(w.entries, i)), args.deadLetterExchange, e.msg.(key := args.deadLetterKey), NoFault)
  }

  function ReplayMessage(m: Message, channel: string): Message {
    var original := HeaderString(m.headers.originalRoutingKey);
    Message(if original == "" then channel + ".normal" else original,
            Headers(Int32(0), Text(HeaderString(m.headers.correlationId)), Absent, Absent), m.body)
  }

  function Republished(w: World, e: Entry, fault: Fault): World
    requires e.place.Dead?
  {
    var m := ReplayMessage(e.msg, e.place.channel);
    var back := fault.Applied() && e.msg.body.Encoded? && Route(Notifications, m.key).Some?;
    Publish(w.(hist := w.hist + (if back then [Replayed(e.msg.body.msg.id)] else [])), Notifications, m, fault)
  }

  function ReplayExit(fault: Fault): Exit { if fault.Reported() then AfterFailedPublish(fault) else Moved }

  lemma EffectAppends(w: World, d: Delivery, pc: Pc, c: Choice)
    ensures var w' := Effect(w, d, pc, c).0;
            && w.entries <= w'.entries && w.hist <= w'.hist
            && (forall k :: |w.entries| <= k < |w'.entries| ==> w'.entries[k].handling.Ready?)
            && (forall k :: |w.hist| <= k < |w'.hist| ==> !w'.hist[k].Left? && !w'.hist[k].CancelledRow?)
  {
    hide PoisonOf, RetryOf, DlqOf;
  }

  lemma RepublishAppends(w: World, i: nat, fault: Fault)
    requires i < |w.entries| && w.entries[i].place.Dead?
    ensures w.entries <= Republished(w, w.entries[i], fault).entries
  {
  }

  lemma HandleAppends(w: World, d: Delivery, env: Env)
    ensures var w' := HandleSpec(w, d, env).0;
            && w.entries <= w'.entries && w.hist <= w'.hist
            && forall k :: |w.hist| <= k < |w'.hist| ==> !w'.hist[k].Left? && !w'.hist[k].CancelledRow?
  {
    RunIsHandle(w, d, env);
    RunAppends(w, d, Enter, env);
  }

  lemma {:induction false} RunAppends(w: World, d: Delivery, pc: Pc, env: Env)
    ensures var w' := RunFrom(w, d, pc, env).0;
            && w.entries <= w'.entries && w.hist <= w'.hist
            && forall k :: |w.hist| <= k < |w'.hist| ==> !w'.hist[k].Left? && !w'.hist[k].CancelledRow?
    decreases Rank(pc)
  {
    hide Effect;
    if !pc.Done? {
      var c := ChoiceAt(env, pc);
      EffectProgress(w, d, pc, c);
      EffectAppends(w, d, pc, c);
      RunAppends(Effect(w, d, pc, c).0, d, Effect(w, d, pc, c).1, env);
    }
  }

  // ---------------------------------------------------------------- steps and runs

  predicate Enabled(w: World, s: Step) {
    match s
    case Insert(n) => FreshRow(w, n) && n.batchId.None?
    case InsertBatch(batch, ns) => FreshBatch(w, batch, ns)
    case PublishRow(id, _) => id in w.rows && Handed(id) !in w.hist
    case Pick(i) => Head(w, i) && w.entries[i].place.Main?
    case Perform(i, _) => i < |w.entries| && w.entries[i].handling.Running? && !w.entries[i].handling.pc.Done?
    case Settle(i) => i < |w.entries| && w.entries[i].handling.Running? && w.entries[i].handling.pc.Done?
    case Crash(i) => i < |w.entries| && w.entries[i].handling.Running?
    case Redeliver(i) => i < |w.entries| && w.entries[i].handling.Running? && w.entries[i].handling.attached
    case Deliver(i, _) => Head(w, i) && w.entries[i].place.Main?
    case Expire(i) => Head(w, i) && w.entries[i].place.Hold? && w.now >= w.entries[i].at + TtlOf(w, w.entries[i].place)
    case Cancel(_) => true
    case Replay(i, _) => Head(w, i) && w.entries[i].place.Dead?
    case ReplayCrash(i) => Head(w, i) && w.entries[i].place.Dead?
    case Tick(_) => true
  }

  function Next(w: World, s: Step): World
    requires Enabled(w, s)
  {
    match s
    case Insert(n) => w.(rows := w.rows[n.id := n])
    case InsertBatch(batch, ns) => w.(rows := AddRows(w.rows, ns), batches := w.batches[batch := |ns|])
    case PublishRow(id, fault) => PublishStored(w, w.rows[id], fault)
    case Pick(i) => SetHandling(w, i, Running(Enter))
    case Perform(i, c) => Performed(w, i, c)
    case Settle(i) =>
      if w.entries[i].handling.attached then Drop(w, i, w.entries[i].handling.pc.exit) else HandlerGone(w, i)
    case Crash(i) => if w.entries[i].handling.attached then SetHandling(w, i, Ready) else HandlerGone(w, i)
    case Redeliver(i) => Detached(w, i)
    case Deliver(i, env) => Handled(w, i, env)
    case Expire(i) => Expired(w, i)
    case Cancel(id) => CancelIfPending(w, id)
    case Replay(i, fault) =>
      var w' := Republished(w, w.entries[i], fault);
      Drop(w', i, ReplayExit(fault))
    case ReplayCrash(i) => Republished(w, w.entries[i], NoFault)
    case Tick(ms) => w.(now := w.now + ms)
  }

  /** ws is the sequence of states of the run that takes the given steps from the initial state. */
  ghost predicate IsRun(ttls: RetryTTLs, ws: seq<World>, steps: seq<Step>) {
    && |ws| == |steps| + 1
    && ws[0] == Init(ttls)
    && forall k :: 0 <= k < |steps| ==> Enabled(ws[k], steps[k]) && ws[k + 1] == Next(ws[k], steps[k])
  }

  /** The state after taking the steps in turn, if each is enabled when its turn comes. */
  function Taken(w: World, steps: seq<Step>): Option<World>
    decreases |steps|
  {
    if steps == [] then Some(w)
    else if Enabled(w, steps[0]) then Taken(Next(w, steps[0]), steps[1..])
    else None
  }

  lemma TakeOne(w: World, s: Step, rest: seq<Step>)
    requires Enabled(w, s)
    ensures Taken(w, [s] + rest) == Taken(Next(w, s), rest)
  {
    hide Enabled, Next;
    assert ([s] + rest)[1..] == rest;
  }

  lemma TakeLast(w: World, s: Step)
    requires Enabled(w, s)
    ensures Taken(w, [s]) == Some(Next(w, s))
  {
    hide Enabled, Next;
    assert [s][1..] == [];
  }

  lemma {:induction false} TakeConcat(w: World, s: seq<Step>, t: seq<Step>)
    requires Taken(w, s).Some?
    ensures Taken(w, s + t) == Taken(Taken(w, s).value, t)
    decreases |s|
  {
    hide Enabled, Next;
    if s == [] {
      assert s + t == t;
    } else {
      assert (s + t)[1..] == s[1..] + t;
      TakeConcat(Next(w, s[0]), s[1..], t);
    }
  }

  // ---------------------------------------------------------------- a worker left alone takes the atomic step

  function PerformFrom(w: World, i: nat, env: Env): World
    requires i < |w.entries| && w.entries[i].handling.Running? && w.entries[i].handling.attached
    decreases Rank(w.entries[i].handling.pc)
  {
    var pc := w.entries[i].handling.pc;
    if pc.Done? then Next(w, Settle(i))
    else
      EffectProgress(w, DeliveryOf(w.entries[i].msg), pc, ChoiceAt(env, pc));
      EffectAppends(w, DeliveryOf(w.entries[i].msg), pc, ChoiceAt(env, pc));
      PerformFrom(Next(w, Perform(i, ChoiceAt(env, pc))), i, env)
  }

  lemma UpdateThenAppend<T>(s: seq<T>, i: nat, x: T, t: seq<T>)
    requires i < |s|
    ensures (s + t)[i := x] == s[i := x] + t
  {
  }

  lemma PublishCommutes(w: World, i: nat, h: Handling, exchange: Exchange, m: Message, fault: Fault)
    requires i < |w.entries|
    ensures i < |Publish(w, exchange, m, fault).entries|
    ensures Publish(SetHandling(w, i, h), exchange, m, fault) == SetHandling(Publish(w, exchange, m, fault), i, h)
  {
    UpdateThenAppend(w.entries, i, w.entries[i].(handling := h), Arrivals(w.now, exchange, m, fault));
  }

  /** A publishing effect neither reads nor disturbs the delivery's own entry. */
  lemma PublishEffectCommutes(w: World, i: nat, h: Handling, d: Delivery, pc: Pc, c: Choice, exchange: Exchange,
                              m: Message)
    requires i < |w.entries|
    requires Effect(w, d, pc, c).0 == Publish(w, exchange, m, c.fault)
    requires Effect(SetHandling(w, i, h), d, pc, c)
             == (Publish(SetHandling(w, i, h), exchange, m, c.fault), Effect(w, d, pc, c).1)
    ensures var (w', pc') := Effect(w, d, pc, c);
            i < |w'.entries| && Effect(SetHandling(w, i, h), d, pc, c) == (SetHandling(w', i, h), pc')
  {
    hide Effect, Publish;
    PublishCommutes(w, i, h, exchange, m, c.fault);
  }

  lemma PoisonIs(w: World, d: Delivery, pc: Pc, c: Choice)
    requires d.body.Poison?
    ensures Effect(w, d, pc, c) == (if pc.Enter? then Publish(w, Dlq, PoisonOf(d), c.fault) else w, Done(Moved))
  {
    hide Publish, PoisonOf;
  }

  lemma RetryIs(w: World, d: Delivery, pc: Pc, c: Choice)
    requires d.body.Encoded? && pc.AtRetry?
    ensures Effect(w, d, pc, c) == (Publish(w, Retry, RetryOf(d, d.body.msg), c.fault),
                                    if c.fault.Reported() then Done(AfterFailedPublish(c.fault))
                                        else AtLogRetry(pc.cause))
  {
    hide Publish, RetryOf;
  }

  lemma DlqIs(w: World, d: Delivery, pc: Pc, c: Choice)
    requires d.body.Encoded? && pc.AtDlq?
    ensures Effect(w, d, pc, c) == (Publish(w, Dlq, DlqOf(d, d.body.msg), c.fault),
                                    if c.fault.Reported() then Done(AfterFailedPublish(c.fault)) else AtFailed)
  {
    hide Publish, DlqOf;
  }

  /** Effects neither read nor disturb the delivery's own entry. */
  lemma EffectCommutes(w: World, i: nat, h: Handling, d: Delivery, pc: Pc, c: Choice)
    requires i < |w.entries|
    ensures var (w', pc') := Effect(w, d, pc, c);
            i < |w'.entries| && Effect(SetHandling(w, i, h), d, pc, c) == (SetHandling(w', i, h), pc')
  {
    hide Effect, Publish, PoisonOf, RetryOf, DlqOf;
    var running := SetHandling(w, i, h);
    if d.body.Poison? {
      PoisonIs(w, d, pc, c);
      PoisonIs(running, d, pc, c);
      if pc.Enter? {
        PublishEffectCommutes(w, i, h, d, pc, c, Dlq, PoisonOf(d));
      }
    } else if pc.AtRetry? {
      RetryIs(w, d, pc, c);
      RetryIs(running, d, pc, c);
      PublishEffectCommutes(w, i, h, d, pc, c, Retry, RetryOf(d, d.body.msg));
    } else if pc.AtDlq? {
      DlqIs(w, d, pc, c);
      DlqIs(running, d, pc, c);
      PublishEffectCommutes(w, i, h, d, pc, c, Dlq, DlqOf(d, d.body.msg));
    } else {
      TableEffectCommutes(w, i, h, d, pc, c);
    }
  }

  /** ... effects that publish nothing leave the queues alone. */
  lemma TableEffectCommutes(w: World, i: nat, h: Handling, d: Delivery, pc: Pc, c: Choice)
    requires i < |w.entries| && d.body.Encoded? && !pc.AtRetry? && !pc.AtDlq?
    ensures var (w', pc') := Effect(w, d, pc, c);
            i < |w'.entries| && Effect(SetHandling(w, i, h), d, pc, c) == (SetHandling(w', i, h), pc')
  {
    hide Publish, RetryOf, DlqOf, PoisonOf;
  }

  lemma {:induction false} PerformFromIsRun(w: World, i: nat, pc: Pc, env: Env)
    requires i < |w.entries|
    ensures var (w', exit) := RunFrom(w, DeliveryOf(w.entries[i].msg), pc, env);
            i < |w'.entries| && PerformFrom(SetHandling(w, i, Running(pc)), i, env) == Drop(w', i, exit)
    decreases Rank(pc)
  {
    var d := DeliveryOf(w.entries[i].msg);
    var running := SetHandling(w, i, Running(pc));
    if pc.Done? {
      assert Remove(running.entries, i) == Remove(w.entries, i);
    } else {
      var c := ChoiceAt(env, pc);
      EffectProgress(w, d, pc, c);
      EffectAppends(w, d, pc, c);
      EffectCommutes(w, i, Running(pc), d, pc, c);
      var (w', pc') := Effect(w, d, pc, c);
      assert w'.entries[i] == w.entries[i];
      assert Next(running, Perform(i, c)) == SetHandling(w', i, Running(pc'));
      PerformFromIsRun(w', i, pc', env);
    }
  }

  /** Pick, then every effect in turn, then settle: that is Deliver. */
  lemma UninterruptedIsDeliver(w: World, i: nat, env: Env)
    requires Enabled(w, Deliver(i, env))
    ensures PerformFrom(Next(w, Pick(i)), i, env) == Next(w, Deliver(i, env))
  {
    PerformFromIsRun(w, i, Enter, env);
    RunIsHandle(w, DeliveryOf(w.entries[i].msg), env);
  }
}
