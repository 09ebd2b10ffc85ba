/** Publish-before-ack: what crashes and redelivery cannot lose. */
module CrashSafety {
  import opened Domain
  import opened Topology
  import opened Routing
  import opened World
  import opened Handle
  import opened Protocol
  import opened Placement

  /** A copy that has been through at least one confirmed retry publish. */
  predicate Escalated(e: Entry, id: Uuid) { e.Has(id) && AttemptOf(e.msg) >= 1 }

  /** The handler of this copy has already published its successor, or has lost the copy to the queue. */
  predicate Superseded(h: Handling) {
    h.Running? && (!h.attached || h.pc.AtLogRetry? || h.pc.AtFailed? || h.pc.AtUnmark? || h.pc.AtLogDlq?
                   || h.pc == Done(Moved) || h.pc == Done(MovedUnsure))
  }

  predicate Acceptance(ev: Event, id: Uuid) { ev.Sent? && ev.to.id == id && ev.outcome.Accepted? }

  ghost predicate AcceptedBy(w: World, id: Uuid) { exists k :: 0 <= k < |w.hist| && Acceptance(w.hist[k], id) }

  ghost predicate Carries(w: World, id: Uuid, k: nat) {
    k < |w.entries| && Escalated(w.entries[k], id) && !Superseded(w.entries[k].handling)
  }

  /** The provider has accepted the notification, or a copy that nobody has replaced yet is in some queue. */
  ghost predicate Safe(w: World, id: Uuid) { AcceptedBy(w, id) || exists k: nat :: Carries(w, id, k) }

  /** A handler that is past its send, or is about to give its copy up, has a reason to. */
  ghost predicate Justified(w: World, e: Entry) {
    e.handling.Running? && e.msg.body.Encoded? ==>
      var pc, id := e.handling.pc, e.msg.body.msg.id;
      && (pc.AtDelivered? || pc.AtLogSuccess? || pc == Done(Completed) ==> AcceptedBy(w, id))
      && (pc == Done(Discarded) && AttemptOf(e.msg) >= 1 ==> AcceptedBy(w, id))
      && (pc == Done(Duplicate) ==> AttemptOf(e.msg) == 0)
  }

  ghost predicate Sound(w: World) {
    && Inv(w)
    && (forall k :: 0 <= k < |w.entries| ==> Justified(w, w.entries[k]))
    && (forall k, id :: 0 <= k < |w.entries| && Escalated(w.entries[k], id) ==> Safe(w, id))
  }

  predicate Publishes(pc: Pc) { pc.AtRetry? || pc.AtDlq? }

  /** The steps considered: crashes anywhere, every database fault, and publishes whose confirmation is lost; but no
      publish that fails outright, no cancelled context and no replay (which resets the attempt count to 0). */
  predicate Lossless(w: World, s: Step) {
    match s
    case Perform(i, c) =>
      && !c.ctxDone
      && (i < |w.entries| && w.entries[i].handling.Running? && Publishes(w.entries[i].handling.pc) ==>
         c.fault.Applied())
    case Deliver(_, env) => !env.ctxDone && env.retry.Applied() && env.dlq.Applied()
    case Replay(_, _) => false
    case ReplayCrash(_) => false
    case _ => true
  }

  // ---------------------------------------------------------------- kinds of change

  lemma AcceptanceKept(w: World, w': World, id: Uuid)
    requires w.hist <= w'.hist && AcceptedBy(w, id)
    ensures AcceptedBy(w', id)
  {
    var k :| 0 <= k < |w.hist| && Acceptance(w.hist[k], id);
    assert w'.hist[k] == w.hist[k];
  }

  /** Entry i changes its handling (or nothing but the tables changes), and `more` is appended. */
  ghost predicate Advanced(w: World, w': World, i: nat, more: seq<Entry>) {
    && i < |w.entries| && w.hist <= w'.hist
    && |w'.entries| == |w.entries| + |more|
    && (forall k :: 0 <= k < |w.entries| && k != i ==> w'.entries[k] == w.entries[k])
    && w'.entries[i] == w.entries[i].(handling := w'.entries[i].handling)
    && (forall k :: 0 <= k < |more| ==> w'.entries[|w.entries| + k] == more[k])
  }

  lemma AdvancedSafe(w: World, w': World, i: nat, more: seq<Entry>, id: Uuid)
    requires Advanced(w, w', i, more) && Safe(w, id)
    requires w.entries[i].Has(id) ==>
               AcceptedBy(w', id) || !Superseded(w'.entries[i].handling) || Superseded(w.entries[i].handling)
               || exists k :: 0 <= k < |more| && Escalated(more[k], id) && more[k].handling.Ready?
    ensures Safe(w', id)
  {
    if AcceptedBy(w, id) {
      AcceptanceKept(w, w', id);
    } else {
      var k: nat :| Carries(w, id, k);
      if k != i || !Superseded(w'.entries[i].handling) {
        assert Carries(w', id, k);
      } else if !AcceptedBy(w', id) {
        var j :| 0 <= j < |more| && Escalated(more[j], id) && more[j].handling.Ready?;
        assert Carries(w', id, |w.entries| + j);
      }
    }
  }

  lemma AdvancedSound(w: World, w': World, i: nat, more: seq<Entry>)
    requires Sound(w) && Inv(w') && Advanced(w, w', i, more) && w.entries[i].msg.body.Encoded?
    requires Justified(w', w'.entries[i])
    requires forall k :: 0 <= k < |more| ==> more[k].handling.Ready?
    requires var id := w.entries[i].msg.body.msg.id;
             AcceptedBy(w', id) || !Superseded(w'.entries[i].handling) || Superseded(w.entries[i].handling)
             || exists k :: 0 <= k < |more| && Escalated(more[k], id)
    ensures Sound(w')
    ensures forall id :: Safe(w, id) ==> Safe(w', id)
  {
    forall id | Safe(w, id) ensures Safe(w', id) {
      AdvancedSafe(w, w', i, more, id);
    }
    forall k | 0 <= k < |w'.entries| ensures Justified(w', w'.entries[k]) {
      if k < |w.entries| && k != i {
        assert Justified(w, w.entries[k]);
        if w.entries[k].msg.body.Encoded? && AcceptedBy(w, w.entries[k].msg.body.msg.id) {
          AcceptanceKept(w, w', w.entries[k].msg.body.msg.id);
        }
      } else if k >= |w.entries| {
        assert w'.entries[k] == more[k - |w.entries|];
      }
    }
    forall k, id | 0 <= k < |w'.entries| && Escalated(w'.entries[k], id) ensures Safe(w', id) {
      if k < |w.entries| {
        assert Escalated(w.entries[k], id);
      } else {
        assert w'.entries[k] == more[k - |w.entries|];
        assert Carries(w', id, k);
      }
    }
  }

  // ---------------------------------------------------------------- one effect

  lemma EffectAdvances(w: World, i: nat, c: Choice)
    requires Enabled(w, Perform(i, c))
    ensures var more := Effect(w, DeliveryOf(w.entries[i].msg), w.entries[i].handling.pc, c).0.entries[|w.entries|..];
            Advanced(w, Next(w, Perform(i, c)), i, more)
    ensures var more := Effect(w, DeliveryOf(w.entries[i].msg), w.entries[i].handling.pc, c).0.entries[|w.entries|..];
            forall k :: 0 <= k < |more| ==> more[k].handling.Ready?
  {
    hide Effect;
    EffectAppends(w, DeliveryOf(w.entries[i].msg), w.entries[i].handling.pc, c);
  }

  /** A publish that the broker took leaves an escalated successor. */
  lemma SuccessorPublished(w: World, d: Delivery, pc: Pc, c: Choice)
    requires Inv(w) && DeliveryFits(w.rows, d, pc) && (pc.AtRetry? || pc.AtDlq?) && c.fault.Applied()
    ensures var w' := Effect(w, d, pc, c).0;
            |w'.entries| == |w.entries| + 1 && Escalated(w'.entries[|w.entries|], d.body.msg.id)
  {
    if pc.AtRetry? {
      RetryKeeps(w, d, c.fault);
      AttemptRoundTrip(d.attempt + 1);
      assert Effect(w, d, pc, c).0 == Publish(w, Retry, RetryOf(d, d.body.msg), c.fault);
    } else {
      DlqKeeps(w, d, c.fault);
      AttemptRoundTrip(d.attempt);
      assert Effect(w, d, pc, c).0 == Publish(w, Dlq, DlqOf(d, d.body.msg), c.fault);
    }
  }

  lemma SendAccepted(w: World, i: nat, c: Choice)
    requires Enabled(w, Perform(i, c)) && w.entries[i].msg.body.Encoded?
    requires w.entries[i].handling.pc.AtSend? && c.outcome.Accepted?
    ensures AcceptedBy(Next(w, Perform(i, c)), w.entries[i].msg.body.msg.id)
  {
    var w' := Next(w, Perform(i, c));
    assert Acceptance(w'.hist[|w.hist|], w.entries[i].msg.body.msg.id);
  }

  lemma PerformJustified(w: World, i: nat, c: Choice)
    requires Sound(w) && Enabled(w, Perform(i, c)) && Lossless(w, Perform(i, c))
    ensures var w' := Next(w, Perform(i, c)); i < |w'.entries| && Justified(w', w'.entries[i])
  {
    hide RetryOf, DlqOf, PoisonOf, Publish, Inv, Safe, AcceptedBy;
    var e, w' := w.entries[i], Next(w, Perform(i, c));
    EffectAppends(w, DeliveryOf(e.msg), e.handling.pc, c);
    EffectAdvances(w, i, c);
    assert w'.entries[i].handling == Running(Effect(w, DeliveryOf(e.msg), e.handling.pc, c).1, e.handling.attached);
    assert Justified(w, e);
    if e.msg.body.Encoded? {
      if AcceptedBy(w, e.msg.body.msg.id) {
        AcceptanceKept(w, w', e.msg.body.msg.id);
      }
      if e.handling.pc.AtSend? && c.outcome.Accepted? {
        SendAccepted(w, i, c);
      }
    }
  }

  lemma PerformSound(w: World, i: nat, c: Choice)
    requires Sound(w) && Enabled(w, Perform(i, c)) && Lossless(w, Perform(i, c))
    ensures Sound(Next(w, Perform(i, c)))
    ensures forall id :: Safe(w, id) ==> Safe(Next(w, Perform(i, c)), id)
  {
    hide RetryOf, DlqOf, PoisonOf, Publish, AcceptedBy, Safe, Placed, DeliveryFits;
    var e, w' := w.entries[i], Next(w, Perform(i, c));
    var d := DeliveryOf(e.msg);
    FitsDelivery(w, i);
    PerformKeeps(w, i, c);
    EffectAppends(w, d, e.handling.pc, c);
    EffectAdvances(w, i, c);
    PerformJustified(w, i, c);
    var more := Effect(w, d, e.handling.pc, c).0.entries[|w.entries|..];
    if e.handling.pc.AtRetry? || e.handling.pc.AtDlq? {
      SuccessorPublished(w, d, e.handling.pc, c);
      assert Escalated(more[0], e.msg.body.msg.id);
    }
    AdvancedSound(w, w', i, more);
  }

  lemma FitsDelivery(w: World, i: nat)
    requires Inv(w) && i < |w.entries| && w.entries[i].handling.Running?
    ensures w.entries[i].msg.body.Encoded?
    ensures DeliveryFits(w.rows, DeliveryOf(w.entries[i].msg), w.entries[i].handling.pc)
  {
    assert Placed(w.rows, w.entries[i]);
  }

  // ---------------------------------------------------------------- taking a copy out

  /** Entry i is taken out and `more` is appended: what is left must cover the copy taken. */
  lemma DropSound(w: World, w': World, i: nat, more: seq<Entry>)
    requires Sound(w) && Inv(w') && i < |w.entries| && w.hist <= w'.hist && w'.entries == Remove(w.entries, i) + more
    requires forall k :: 0 <= k < |more| ==> more[k].handling.Ready?
    requires forall id :: Escalated(w.entries[i], id) ==>
               AcceptedBy(w, id) || Superseded(w.entries[i].handling)
               || exists k :: 0 <= k < |more| && Escalated(more[k], id)
    ensures Sound(w')
    ensures forall id :: Safe(w, id) ==> Safe(w', id)
  {
    hide Inv;
    var at := k => if k < i then k else k + 1;
    assert forall k :: 0 <= k < |w.entries| - 1 ==> w'.entries[k] == w.entries[at(k)];
    assert forall k :: 0 <= k < |more| ==> w'.entries[|w.entries| - 1 + k] == more[k];
    forall id | Safe(w, id) ensures Safe(w', id) {
      if AcceptedBy(w, id) {
        AcceptanceKept(w, w', id);
      } else {
        var k: nat :| Carries(w, id, k);
        if k != i {
          assert Carries(w', id, if k < i then k else k - 1);
        } else {
          var j :| 0 <= j < |more| && Escalated(more[j], id);
          assert Carries(w', id, |w.entries| - 1 + j);
        }
      }
    }
    forall k | 0 <= k < |w'.entries| ensures Justified(w', w'.entries[k]) {
      if k < |w.entries| - 1 {
        var e := w.entries[at(k)];
        assert Justified(w, e);
        if e.msg.body.Encoded? && AcceptedBy(w, e.msg.body.msg.id) {
          AcceptanceKept(w, w', e.msg.body.msg.id);
        }
      }
    }
    forall k, id | 0 <= k < |w'.entries| && Escalated(w'.entries[k], id) ensures Safe(w', id) {
      if k < |w.entries| - 1 {
        assert Escalated(w.entries[at(k)], id);
      } else {
        assert Carries(w', id, k);
      }
    }
  }

  lemma SettleSound(w: World, i: nat)
    requires Sound(w) && Enabled(w, Settle(i))
    ensures Sound(Next(w, Settle(i)))
    ensures forall id :: Safe(w, id) ==> Safe(Next(w, Settle(i)), id)
  {
    hide Inv;
    if w.entries[i].handling.attached {
      var exit := w.entries[i].handling.pc.exit;
      DropKeeps(w, i, exit);
      assert Justified(w, w.entries[i]);
      assert Remove(w.entries, i) == Remove(w.entries, i) + [];
      DropSound(w, Drop(w, i, exit), i, []);
    } else {
      GoneSound(w, i);
    }
  }

  /** A detached handler holds no copy. */
  lemma GoneSound(w: World, i: nat)
    requires Sound(w) && i < |w.entries| && w.entries[i].handling.Running? && !w.entries[i].handling.attached
    ensures Sound(HandlerGone(w, i))
    ensures forall id :: Safe(w, id) ==> Safe(HandlerGone(w, i), id)
  {
    hide Inv;
    GoneKeeps(w, i);
    assert Remove(w.entries, i) == Remove(w.entries, i) + [];
    DropSound(w, HandlerGone(w, i), i, []);
  }

  lemma ExpireSound(w: World, i: nat)
    requires Sound(w) && Enabled(w, Expire(i))
    ensures Sound(Next(w, Expire(i)))
    ensures forall id :: Safe(w, id) ==> Safe(Next(w, Expire(i)), id)
  {
    hide Safe, AcceptedBy;
    ExpireKeeps(w, i);
    assert Placed(w.rows, w.entries[i]);
    var e := w.entries[i];
    var lane := LaneOf(e.msg.body.msg);
    var moved := Entry(Main(lane), e.msg.(key := LaneKey(lane)), w.now, Ready);
    assert forall id :: Escalated(e, id) ==> Escalated([moved][0], id);
    DropSound(w, Next(w, Expire(i)), i, [moved]);
  }

  // ---------------------------------------------------------------- every step

  lemma SetHandlingSound(w: World, i: nat, h: Handling)
    requires Sound(w) && i < |w.entries| && w.entries[i].msg.body.Encoded? && h in {Ready, Running(Enter)}
    requires h.Running? ==> w.entries[i].place.Main?
    ensures Sound(SetHandling(w, i, h))
    ensures forall id :: Safe(w, id) ==> Safe(SetHandling(w, i, h), id)
  {
    hide Safe, AcceptedBy;
    HandlingKeeps(w, i, h);
    AdvancedSound(w, SetHandling(w, i, h), i, []);
  }

  lemma CrashSound(w: World, i: nat)
    requires Sound(w) && Enabled(w, Crash(i))
    ensures Sound(Next(w, Crash(i)))
    ensures forall id :: Safe(w, id) ==> Safe(Next(w, Crash(i)), id)
  {
    hide Sound, Safe;
    SoundInv(w);
    EncodedEntry(w, i);
    if w.entries[i].handling.attached {
      SetHandlingSound(w, i, Ready);
    } else {
      GoneSound(w, i);
    }
  }

  lemma SoundInv(w: World)
    requires Sound(w)
    ensures Inv(w)
  {
  }

  /** The copy is back in its queue; its handler goes on with the reasons it had. */
  lemma DetachedSound(w: World, i: nat)
    requires Sound(w) && Enabled(w, Redeliver(i))
    ensures Sound(Next(w, Redeliver(i)))
    ensures forall id :: Safe(w, id) ==> Safe(Next(w, Redeliver(i)), id)
  {
    hide Inv;
    EncodedEntry(w, i);
    SetHandlingSound(w, i, Ready);
    DetachedKeeps(w, i);
    var w1, w' := SetHandling(w, i, Ready), Detached(w, i);
    assert Justified(w, w.entries[i]);
    assert forall k :: 0 <= k < |w1.entries| ==> w'.entries[k] == w1.entries[k];
    forall id | Safe(w1, id) ensures Safe(w', id) {
      if AcceptedBy(w1, id) {
        AcceptanceKept(w1, w', id);
      } else {
        var k: nat :| Carries(w1, id, k);
        assert Carries(w', id, k);
      }
    }
    forall id | Escalated(w'.entries[|w.entries|], id) ensures Safe(w1, id) {
      assert Escalated(w1.entries[i], id);
    }
    forall k | 0 <= k < |w'.entries| ensures Justified(w', w'.entries[k]) {
      if k < |w.entries| {
        assert Justified(w1, w1.entries[k]);
        if w1.entries[k].msg.body.Encoded? && AcceptedBy(w1, w1.entries[k].msg.body.msg.id) {
          AcceptanceKept(w1, w', w1.entries[k].msg.body.msg.id);
        }
      } else if AcceptedBy(w, w.entries[i].msg.body.msg.id) {
        AcceptanceKept(w, w', w.entries[i].msg.body.msg.id);
      }
    }
  }

  lemma {:induction false} PerformFromSound(w: World, i: nat, env: Env)
    requires Sound(w) && i < |w.entries| && w.entries[i].handling.Running? && w.entries[i].handling.attached
    requires !env.ctxDone && env.retry.Applied() && env.dlq.Applied()
    ensures Sound(PerformFrom(w, i, env))
    ensures forall id :: Safe(w, id) ==> Safe(PerformFrom(w, i, env), id)
    decreases Rank(w.entries[i].handling.pc)
  {
    hide Sound, Safe, Effect, Drop;
    var pc := w.entries[i].handling.pc;
    if pc.Done? {
      SettleSound(w, i);
    } else {
      var c := ChoiceAt(env, pc);
      EffectProgress(w, DeliveryOf(w.entries[i].msg), pc, c);
      EffectAppends(w, DeliveryOf(w.entries[i].msg), pc, c);
      PerformSound(w, i, c);
      PerformFromSound(Next(w, Perform(i, c)), i, env);
    }
  }

  lemma DeliverSound(w: World, i: nat, env: Env)
    requires Sound(w) && Enabled(w, Deliver(i, env)) && Lossless(w, Deliver(i, env))
    ensures Sound(Next(w, Deliver(i, env)))
    ensures forall id :: Safe(w, id) ==> Safe(Next(w, Deliver(i, env)), id)
  {
    hide Safe, Inv, PerformFrom, Handled;
    EncodedEntry(w, i);
    SetHandlingSound(w, i, Running(Enter));
    PerformFromSound(Next(w, Pick(i)), i, env);
    UninterruptedIsDeliver(w, i, env);
  }

  lemma EncodedEntry(w: World, i: nat)
    requires Inv(w) && i < |w.entries|
    ensures w.entries[i].msg.body.Encoded? && (w.entries[i].handling.Running? ==> w.entries[i].place.Main?)
  {
    assert Placed(w.rows, w.entries[i]);
  }

  /** The entries are as before, up to one fresh ready message at the end. */
  lemma TablesSound(w: World, w': World, more: seq<Entry>)
    requires Sound(w) && Inv(w') && w.hist <= w'.hist && w'.entries == w.entries + more
    requires forall k :: 0 <= k < |more| ==> more[k].handling.Ready?
    ensures Sound(w')
    ensures forall id :: Safe(w, id) ==> Safe(w', id)
  {
    hide Inv;
    forall id | Safe(w, id) ensures Safe(w', id) {
      if AcceptedBy(w, id) {
        AcceptanceKept(w, w', id);
      } else {
        var k: nat :| Carries(w, id, k);
        assert Carries(w', id, k);
      }
    }
    forall k | 0 <= k < |w'.entries| ensures Justified(w', w'.entries[k]) {
      if k < |w.entries| {
        assert Justified(w, w.entries[k]);
        if w.entries[k].msg.body.Encoded? && AcceptedBy(w, w.entries[k].msg.body.msg.id) {
          AcceptanceKept(w, w', w.entries[k].msg.body.msg.id);
        }
      }
    }
    forall k, id | 0 <= k < |w'.entries| && Escalated(w'.entries[k], id) ensures Safe(w', id) {
      if k < |w.entries| {
        assert Escalated(w.entries[k], id);
      } else {
        assert Carries(w', id, k);
      }
    }
  }

  lemma StepSound(w: World, s: Step)
    requires Sound(w) && Enabled(w, s) && Lossless(w, s)
    ensures Sound(Next(w, s))
    ensures forall id :: Safe(w, id) ==> Safe(Next(w, s), id)
  {
    hide Inv, Safe, Justified, PublishStored, Performed, Handled, Expired, Republished, Drop;
    StepKeeps(w, s);
    match s
    case Perform(i, c) => PerformSound(w, i, c);
    case Settle(i) => SettleSound(w, i);
    case Deliver(i, env) => DeliverSound(w, i, env);
    case Expire(i) => ExpireSound(w, i);
    case Pick(i) => EncodedEntry(w, i); SetHandlingSound(w, i, Running(Enter));
    case Crash(i) => CrashSound(w, i);
    case Redeliver(i) => DetachedSound(w, i);
    case PublishRow(id, fault) =>
      PublishRowKeeps(w, id, fault);
      TablesSound(w, Next(w, s), Next(w, s).entries[|w.entries|..]);
    case Insert(_) => TablesSound(w, Next(w, s), []);
    case InsertBatch(_, _) => TablesSound(w, Next(w, s), []);
    case Cancel(_) => TablesSound(w, Next(w, s), []);
    case Tick(_) => TablesSound(w, Next(w, s), []);
    case _ =>
  }

  ghost predicate LosslessRun(ttls: RetryTTLs, ws: seq<World>, steps: seq<Step>) {
    IsRun(ttls, ws, steps) && forall k :: 0 <= k < |steps| ==> Lossless(ws[k], steps[k])
  }

  lemma {:induction false} RunSound(ttls: RetryTTLs, ws: seq<World>, steps: seq<Step>, j: nat, k: nat)
    requires LosslessRun(ttls, ws, steps) && j <= k < |ws|
    ensures Sound(ws[k])
    ensures forall id :: Safe(ws[j], id) ==> Safe(ws[k], id)
    decreases k
  {
    hide Next, Enabled, Lossless, Safe;
    if k > 0 {
      RunSound(ttls, ws, steps, if j == k then k - 1 else j, k - 1);
      StepSound(ws[k - 1], steps[k - 1]);
    }
  }

  /** In a queue, or out with a handler that can still settle it: not just a detached handler. */
  predicate Queued(e: Entry) { e.handling.Ready? || e.handling.attached }

  /** Once any copy with x-attempt >= 1 has been confirmed, from then on, whatever crashes or is redelivered under a
      handler that runs on, the provider has accepted the notification or such a copy is still in some queue. */
  lemma PublishBeforeAck(ttls: RetryTTLs, ws: seq<World>, steps: seq<Step>, j: nat, k: nat, id: Uuid)
    requires LosslessRun(ttls, ws, steps) && j <= k < |ws|
    requires exists e :: e in ws[j].entries && Escalated(e, id)
    ensures AcceptedBy(ws[k], id) || exists e :: e in ws[k].entries && Escalated(e, id) && Queued(e)
  {
    hide Inv, Next, Enabled, Lossless, Justified;
    RunSound(ttls, ws, steps, j, j);
    RunSound(ttls, ws, steps, j, k);
    var e :| e in ws[j].entries && Escalated(e, id);
    var n :| 0 <= n < |ws[j].entries| && ws[j].entries[n] == e;
    assert Safe(ws[j], id);
    if !AcceptedBy(ws[k], id) {
      var m: nat :| Carries(ws[k], id, m);
      assert ws[k].entries[m] in ws[k].entries;
    }
  }
}
