/** Redelivery-free runs, with every publish and database fault: conservation of copies, and the life of a
    notification as attempts numbered 0, 1, 2, 3, 0, 1, ... */
module Cycles {
  import opened Domain
  import opened Keys
  import opened Lists
  import opened Topology
  import opened Routing
  import opened World
  import opened Handle
  import opened Protocol
  import opened Placement

  // ---------------------------------------------------------------- what the history says about one notification

  predicate SendTo(ev: Event, id: Uuid) { ev.Sent? && ev.to.id == id }

  /** The provider calls made for id, in order. */
  function SendsOf(hist: seq<Event>, id: Uuid): (sends: seq<Event>)
    ensures forall k :: 0 <= k < |sends| ==> SendTo(sends[k], id)
  {
    if hist == [] then []
    else
      var last := hist[|hist| - 1];
      SendsOf(hist[..|hist| - 1], id) + if SendTo(last, id) then [last] else []
  }

  lemma SendsAppend(hist: seq<Event>, ev: Event, id: Uuid)
    ensures SendsOf(hist + [ev], id) == SendsOf(hist, id) + if SendTo(ev, id) then [ev] else []
  {
    assert (hist + [ev])[..|hist|] == hist;
  }

  /** One notification's provider calls, and how often its copies were handed over, born, replayed and removed. */
  datatype View = View(sends: seq<Event>, handed: nat, born: nat, replayed: nat, gone: nat) {
    /** How many times a copy entered a main queue with attempt 0. */
    function Cycles(): nat { born + replayed }
  }

  ghost function ViewOf(w: World, id: Uuid): View {
    var h := multiset(w.hist);
    View(SendsOf(w.hist, id), h[Handed(id)], h[Born(id)], h[Replayed(id)],
         h[Left(id, Completed)] + h[Left(id, Duplicate)] + h[Left(id, Discarded)])
  }

  lemma HistoryCount(hist: seq<Event>, ev: Event, x: Event)
    ensures multiset(hist + [ev])[x] == multiset(hist)[x] + if ev == x then 1 else 0
  {
  }

  lemma EventView(w: World, w': World, ev: Event, id: Uuid)
    requires w'.hist == w.hist + [ev]
    ensures var v := ViewOf(w, id);
            ViewOf(w', id) ==
            match ev
            case Sent(to, _, _, _) => if to.id == id then v.(sends := v.sends + [ev]) else v
            case Handed(j) => if j == id then v.(handed := v.handed + 1) else v
            case Born(j) => if j == id then v.(born := v.born + 1) else v
            case Replayed(j) => if j == id then v.(replayed := v.replayed + 1) else v
            case Left(j, exit) =>
              if j == id && (exit.Completed? || exit.Duplicate? || exit.Discarded?) then v.(gone := v.gone + 1) else v
            case _ => v
  {
    hide SendsOf;
    SendsAppend(w.hist, ev, id);
    HistoryCount(w.hist, ev, Handed(id));
    HistoryCount(w.hist, ev, Born(id));
    HistoryCount(w.hist, ev, Replayed(id));
    HistoryCount(w.hist, ev, Left(id, Completed));
    HistoryCount(w.hist, ev, Left(id, Duplicate));
    HistoryCount(w.hist, ev, Left(id, Discarded));
  }

  lemma SameView(w: World, w': World, id: Uuid)
    requires w'.hist == w.hist
    ensures ViewOf(w', id) == ViewOf(w, id)
  {
  }

  function HasId(id: Uuid): Entry -> nat { (e: Entry) => if e.Has(id) then 1 else 0 }

  /** The live copies of id: queued or held anywhere. */
  function Live(entries: seq<Entry>, id: Uuid): nat { Sum(entries, HasId(id)) }

  // ---------------------------------------------------------------- the shape of a life

  function Ttl(ttls: RetryTTLs, level: int): int { TtlMs(ttls.Level(level)) }

  /** Attempt numbers run 0, 1, 2, 3, 0, 1, ...; only the last call can have succeeded; within a cycle, attempt k
      waits out the TTL of level k after attempt k - 1. */
  ghost predicate Chain(ttls: RetryTTLs, sends: seq<Event>) {
    forall k :: 0 <= k < |sends| ==> ChainAt(ttls, sends, k)
  }

  ghost predicate ChainAt(ttls: RetryTTLs, sends: seq<Event>, k: int)
    requires 0 <= k < |sends|
  {
    && sends[k].Sent? && sends[k].attempt == k % 4
    && (k + 1 < |sends| ==> !sends[k].outcome.Accepted?)
    && (k % 4 != 0 ==> sends[k - 1].Sent? && sends[k].at >= sends[k - 1].at + Ttl(ttls, k % 4))
  }

  predicate Undelivered(sends: seq<Event>) {
    sends != [] ==> sends[|sends| - 1].Sent? && !sends[|sends| - 1].outcome.Accepted?
  }

  /** Where a live copy stands in its notification's life. */
  ghost predicate Spot(w: World, e: Entry, v: View) {
    var n, c := |v.sends|, v.Cycles();
    && c >= 1 && Undelivered(v.sends)
    && match e.place
       case Main(_) =>
         var a := AttemptOf(e.msg);
         n == 4 * (c - 1) + a
             && (a > 0 ==> n > 0 && v.sends[n - 1].Sent? && w.now >= v.sends[n - 1].at + Ttl(w.ttls, a))
       case Hold(_, level) => n == 4 * (c - 1) + level && n > 0 && v.sends[n - 1].Sent? && e.at >= v.sends[n - 1].at
       case Dead(_) => n == 4 * c
  }

  ghost predicate Cyclic(w: World, id: Uuid) {
    var v := ViewOf(w, id);
    && v.born <= v.handed <= 1
    && (id !in w.rows ==> v.handed == 0) && (v.born == 0 ==> v.replayed == 0)
    && v.born == Live(w.entries, id) + v.gone
    && Chain(w.ttls, v.sends) && |v.sends| <= 4 * v.Cycles()
    && forall k :: 0 <= k < |w.entries| && w.entries[k].Has(id) ==> Spot(w, w.entries[k], v)
  }

  ghost predicate Calm(w: World) {
    && Inv(w)
    && (forall k :: 0 <= k < |w.entries| ==> w.entries[k].handling.Ready?)
    && forall id :: Cyclic(w, id)
  }

  /** The steps of a redelivery-free run: workers are never interrupted, and no replay dies half-way. */
  predicate Uninterrupted(s: Step) {
    !s.Pick? && !s.Perform? && !s.Settle? && !s.Crash? && !s.Redeliver? && !s.ReplayCrash?
  }

  // ---------------------------------------------------------------- the effect of one delivery

  /** Does this delivery reach the provider? */
  predicate CallsProvider(w: World, d: Delivery, m: NotificationMessage, env: Env) {
    d.attempt != 0 || (!env.mark.Reported() && m.id !in w.processed)
  }

  function SendEvent(w: World, d: Delivery, m: NotificationMessage, env: Env): Event {
    Sent(ToNotification(m), d.attempt, env.send, w.now)
  }

  /** The copies a delivery leaves behind: none, or its one successor. */
  function Successors(w: World, d: Delivery, m: NotificationMessage, env: Env): seq<Entry> {
    if !CallsProvider(w, d, m, env) || env.send.Accepted? || env.ctxDone then []
    else if d.attempt <= 2 then
      if env.retry.Applied() then [Entry(Hold(LaneOf(m), d.attempt + 1), RetryOf(d, m), w.now, Ready)] else []
    else if env.dlq.Applied() then [Entry(Dead(m.channel), DlqOf(d, m), w.now, Ready)] else []
  }

  lemma RetryView(w: World, d: Delivery, m: NotificationMessage, env: Env, id: Uuid)
    requires Inv(w) && DeliveryFits(w.rows, d, AtRetry(OtherError)) && m == d.body.msg
    ensures var (w', exit) := HandleRetry(w, d, m, env);
            && w'.entries == w.entries + (if env.retry.Applied()
                                          then [Entry(Hold(LaneOf(m), d.attempt + 1), RetryOf(d, m), w.now, Ready)]
                                          else [])
            && ViewOf(w', id) == ViewOf(w, id) && w'.now == w.now && w'.ttls == w.ttls && w'.rows == w.rows
            && (exit.Moved? || exit.MovedUnsure? <==> env.retry.Applied())
               && (exit.Moved? || exit.MovedUnsure? || exit.Discarded?)
  {
    hide RetryOf, Inv, DeliveryFits, ViewOf;
    RetryKeeps(w, d, env.retry);
    SameView(w, HandleRetry(w, d, m, env).0, id);
  }

  lemma UnmarkView(w: World, m: Uuid, fault: Fault, id: Uuid)
    ensures ViewOf(Unmark(w, m, fault), id) == ViewOf(w, id)
  {
    if fault.Applied() && m in w.processed {
      EventView(w, Unmark(w, m, fault), Unmarked(m), id);
    } else {
      SameView(w, Unmark(w, m, fault), id);
    }
  }

  lemma MarkView(w: World, m: Uuid, fault: Fault, id: Uuid)
    ensures ViewOf(Mark(w, m, fault), id) == ViewOf(w, id)
  {
    if fault.Applied() && m !in w.processed {
      EventView(w, Mark(w, m, fault), Marked(m), id);
    } else {
      SameView(w, Mark(w, m, fault), id);
    }
  }

  lemma ExhaustedView(w: World, d: Delivery, m: NotificationMessage, env: Env, id: Uuid)
    requires Inv(w) && DeliveryFits(w.rows, d, AtDlq) && m == d.body.msg
    ensures var (w', exit) := HandleExhausted(w, d, m, env);
            && w'.entries
               == w.entries + (if env.dlq.Applied() then [Entry(Dead(m.channel), DlqOf(d, m), w.now, Ready)] else [])
            && ViewOf(w', id) == ViewOf(w, id) && w'.now == w.now && w'.ttls == w.ttls && w'.rows.Keys == w.rows.Keys
            && (exit.Moved? || exit.MovedUnsure? <==> env.dlq.Applied())
               && (exit.Moved? || exit.MovedUnsure? || exit.Discarded?)
  {
    hide DlqOf, Inv, DeliveryFits, ViewOf;
    DlqKeeps(w, d, env.dlq);
    var published := Publish(w, Dlq, DlqOf(d, m), env.dlq);
    SameView(w, published, id);
    var failed := SetStatus(published, m.id, Failed, env.failed);
    SameView(published, failed, id);
    UnmarkView(failed, m.id, env.unmark, id);
    var unmarked := Unmark(failed, m.id, env.unmark);
    SameView(unmarked, Record(unmarked, Attempt(m.id, d.attempt, DeadLettered), env.record), id);
  }

  lemma AcceptedView(w: World, d: Delivery, m: NotificationMessage, env: Env, id: Uuid)
    ensures var (w', exit) := HandleAccepted(w, d, m, env);
            && w'.entries == w.entries && ViewOf(w', id) == ViewOf(w, id)
            && w'.now == w.now && w'.ttls == w.ttls && w'.rows.Keys == w.rows.Keys
            && (exit.Completed? || exit.Discarded?)
  {
    hide ViewOf;
    var w' := HandleAccepted(w, d, m, env).0;
    SameView(w, w', id);
  }

  /** Handling one delivery: what it sends, what it leaves behind, and how it ends. */
  lemma HandleView(w: World, d: Delivery, env: Env, id: Uuid)
    requires Inv(w) && DeliveryFits(w.rows, d, Enter)
    ensures var (w', exit) := HandleSpec(w, d, env);
            var m, v := d.body.msg, ViewOf(w, id);
            && w'.entries == w.entries + Successors(w, d, m, env)
            && w'.now == w.now && w'.ttls == w.ttls && w'.rows.Keys == w.rows.Keys
            && (exit.Moved? || exit.MovedUnsure? <==> Successors(w, d, m, env) != [])
            && ViewOf(w', id)
               == if m.id == id && CallsProvider(w, d, m, env)
                  then v.(sends := v.sends + [SendEvent(w, d, m, env)]) else v
  {
    hide ViewOf, Inv, RetryOf, DlqOf, HandleAccepted, HandleRetry, HandleExhausted;
    var m := d.body.msg;
    if d.attempt == 0 {
      MarkView(w, m.id, env.mark, id);
      MarkView(w, m.id, NoFault, id);
    }
    if CallsProvider(w, d, m, env) {
      var marked := if d.attempt == 0 then Mark(w, m.id, NoFault) else w;
      var sent := Send(marked, m, d.attempt, env.send);
      EventView(marked, sent, SendEvent(w, d, m, env), id);
      SentInv(w, d, env);
      if env.send.Accepted? {
        AcceptedView(sent, d, m, env, id);
      } else if !env.ctxDone {
        if d.attempt <= 2 {
          RetryView(sent, d, m, env, id);
        } else {
          ExhaustedView(sent, d, m, env, id);
        }
      }
    }
  }

  lemma SentInv(w: World, d: Delivery, env: Env)
    requires Inv(w) && DeliveryFits(w.rows, d, Enter)
    ensures var marked := if d.attempt == 0 then Mark(w, d.body.msg.id, NoFault) else w;
            var sent := Send(marked, d.body.msg, d.attempt, env.send);
            && Inv(sent) && sent.rows == w.rows
            && (d.attempt <= 2 ==> DeliveryFits(sent.rows, d, AtRetry(OtherError)))
            && (d.attempt == 3 ==> DeliveryFits(sent.rows, d, AtDlq))
  {
    var c := Choice(NoFault, env.send, false);
    EnterKeeps(w, d, c);
    var marked := if d.attempt == 0 then Mark(w, d.body.msg.id, NoFault) else w;
    assert Inv(marked);
    SendKeeps(marked, d, c);
  }

  /** One atomic delivery step as id sees it. */
  lemma DeliverView(w: World, i: nat, env: Env, id: Uuid)
    requires Inv(w) && Enabled(w, Deliver(i, env))
    ensures var w' := Next(w, Deliver(i, env));
            var e := w.entries[i];
            var d, m, v := DeliveryOf(e.msg), e.msg.body.msg, ViewOf(w, id);
            var more := Successors(w, d, m, env);
            var sends := if CallsProvider(w, d, m, env) then v.sends + [SendEvent(w, d, m, env)] else v.sends;
            && w'.entries == Remove(w.entries, i) + more
            && w'.now == w.now && w'.ttls == w.ttls && w'.rows.Keys == w.rows.Keys
            && ViewOf(w', id) == if m.id != id then v else v.(sends := sends, gone := v.gone + 1 - |more|)
  {
    hide ViewOf, Inv, HandleSpec, Successors, CallsProvider, SendEvent;
    DeliveredFits(w, i);
    var d, m := DeliveryOf(w.entries[i].msg), w.entries[i].msg.body.msg;
    HandleView(w, d, env, id);
    var (w1, exit) := HandleSpec(w, d, env);
    SuccessorsBounded(w, d, m, env);
    assert Remove(w1.entries, i) == Remove(w.entries, i) + Successors(w, d, m, env);
    var w' := Drop(w1, i, exit);
    if exit.Moved? || exit.MovedUnsure? {
      SameView(w1, w', id);
    } else {
      EventView(w1, w', Left(m.id, exit), id);
    }
  }

  lemma SuccessorsBounded(w: World, d: Delivery, m: NotificationMessage, env: Env)
    ensures |Successors(w, d, m, env)| <= 1
    ensures forall e :: e in Successors(w, d, m, env) ==> e.handling.Ready? && e.msg.body == d.body
  {
  }

  lemma DeliveredFits(w: World, i: nat)
    requires Inv(w) && i < |w.entries| && w.entries[i].place.Main?
    ensures w.entries[i].msg.body.Encoded? && DeliveryFits(w.rows, DeliveryOf(w.entries[i].msg), Enter)
  {
    assert Placed(w.rows, w.entries[i]);
  }

  // ---------------------------------------------------------------- what every step keeps

  /** A notification the step does not concern. */
  lemma Untouched(w: World, w': World, id: Uuid)
    requires Cyclic(w, id) && ViewOf(w', id) == ViewOf(w, id) && w'.now >= w.now && w'.ttls == w.ttls
    requires id in w.rows ==> id in w'.rows
    requires Live(w'.entries, id) == Live(w.entries, id)
    requires forall k :: 0 <= k < |w'.entries| && w'.entries[k].Has(id) ==> w'.entries[k] in w.entries
    ensures Cyclic(w', id)
  {
    hide Live, Chain, ViewOf;
    var v := ViewOf(w, id);
    forall k | 0 <= k < |w'.entries| && w'.entries[k].Has(id) ensures Spot(w', w'.entries[k], v) {
      var j :| 0 <= j < |w.entries| && w.entries[j] == w'.entries[k];
      assert Spot(w, w.entries[j], v);
    }
  }

  lemma LiveSwap(entries: seq<Entry>, i: nat, more: seq<Entry>, id: Uuid)
    requires i < |entries| && |more| <= 1
    ensures Live(Remove(entries, i) + more, id) + HasId(id)(entries[i])
            == Live(entries, id) + if more == [] then 0 else HasId(id)(more[0])
  {
    SumRemove(entries, i, HasId(id));
    SumConcat(Remove(entries, i), more, HasId(id));
    if more != [] {
      assert more == [more[0]];
      SumOne(more[0], HasId(id));
    }
  }

  lemma LiveCopy(entries: seq<Entry>, i: nat, id: Uuid)
    requires i < |entries| && entries[i].Has(id)
    ensures Live(entries, id) >= 1
  {
    SumAtLeastOne(entries, i, HasId(id));
  }

  /** Conservation makes a live copy the only one. */
  lemma SoleCopy(w: World, id: Uuid, i: nat, j: nat)
    requires Cyclic(w, id) && i < |w.entries| && j < |w.entries| && i != j && w.entries[i].Has(id)
    ensures !w.entries[j].Has(id)
  {
    SumAtLeast(w.entries, if i < j then i else j, if i < j then j else i, HasId(id));
  }

  /** Entry i is taken out and its successor, if any, put in: every other notification is untouched. */
  lemma OtherCyclic(w: World, w': World, i: nat, more: seq<Entry>, id: Uuid)
    requires Cyclic(w, id) && i < |w.entries| && |more| <= 1 && w'.entries == Remove(w.entries, i) + more
    requires !w.entries[i].Has(id) && (forall e :: e in more ==> !e.Has(id))
    requires ViewOf(w', id) == ViewOf(w, id) && w'.now == w.now && w'.ttls == w.ttls && w'.rows.Keys == w.rows.Keys
    ensures Cyclic(w', id)
  {
    hide Live, Chain, ViewOf, Spot;
    LiveSwap(w.entries, i, more, id);
    forall k | 0 <= k < |w'.entries| && w'.entries[k].Has(id) ensures w'.entries[k] in w.entries {
      if k < |w.entries| - 1 {
        assert w'.entries[k] == w.entries[if k < i then k else k + 1];
      }
    }
    Untouched(w, w', id);
  }

  /** ... and the notification it concerns is in order if its new view is. */
  lemma OwnCyclic(w: World, w': World, i: nat, more: seq<Entry>, id: Uuid)
    requires Cyclic(w, id) && i < |w.entries| && |more| <= 1 && w'.entries == Remove(w.entries, i) + more
    requires w.entries[i].Has(id) && (forall e :: e in more ==> e.Has(id)) && w'.rows.Keys == w.rows.Keys
    requires var v, v' := ViewOf(w, id), ViewOf(w', id);
             && v'.handed == v.handed && v'.born == v.born && v'.gone == v.gone + 1 - |more|
             && Chain(w'.ttls, v'.sends) && |v'.sends| <= 4 * v'.Cycles()
             && (more != [] ==> Spot(w', more[0], v'))
    ensures Cyclic(w', id)
  {
    hide Live, Chain, ViewOf, Spot;
    LiveSwap(w.entries, i, more, id);
    LiveCopy(w.entries, i, id);
    forall k | 0 <= k < |w'.entries| && w'.entries[k].Has(id) ensures Spot(w', w'.entries[k], ViewOf(w', id)) {
      if k < |w.entries| - 1 {
        SoleCopy(w, id, i, if k < i then k else k + 1);
      }
    }
  }

  lemma ChainExtends(ttls: RetryTTLs, sends: seq<Event>, ev: Event)
    requires Chain(ttls, sends) && Undelivered(sends) && ev.Sent? && ev.attempt == |sends| % 4
    requires |sends| % 4 != 0 ==> ev.at >= sends[|sends| - 1].at + Ttl(ttls, |sends| % 4)
    ensures Chain(ttls, sends + [ev])
  {
    forall k | 0 <= k < |sends| + 1 ensures ChainAt(ttls, sends + [ev], k) {
      assert k < |sends| ==> ChainAt(ttls, sends, k);
    }
  }

  /** The provider call a delivery makes continues the chain, and its successor stands where it should. */
  lemma DeliverySpot(w: World, w': World, i: nat, env: Env, id: Uuid, v': View)
    requires Inv(w) && Cyclic(w, id) && Enabled(w, Deliver(i, env)) && w.entries[i].Has(id) && w'.now == w.now
    requires w'.ttls == w.ttls
    requires var d, m, v := DeliveryOf(w.entries[i].msg), w.entries[i].msg.body.msg, ViewOf(w, id);
             var sends := if CallsProvider(w, d, m, env) then v.sends + [SendEvent(w, d, m, env)] else v.sends;
             v' == v.(sends := sends, gone := v.gone + 1 - |Successors(w, d, m, env)|)
    ensures Chain(w.ttls, v'.sends) && |v'.sends| <= 4 * v'.Cycles()
    ensures var more := Successors(w, DeliveryOf(w.entries[i].msg), w.entries[i].msg.body.msg, env);
            more != [] ==> Spot(w', more[0], v')
  {
    hide ViewOf, Inv, RetryOf, DlqOf, Live;
    var e, v := w.entries[i], ViewOf(w, id);
    var d, m := DeliveryOf(e.msg), e.msg.body.msg;
    DeliveredFits(w, i);
    assert Spot(w, e, v);
    if CallsProvider(w, d, m, env) {
      ChainExtends(w.ttls, v.sends, SendEvent(w, d, m, env));
    }
  }

  lemma DeliverCyclic(w: World, i: nat, env: Env, id: Uuid)
    requires Calm(w) && Enabled(w, Deliver(i, env))
    ensures Cyclic(Next(w, Deliver(i, env)), id)
  {
    hide ViewOf, Inv, Successors, CallsProvider, SendEvent, Handled, Chain, Spot, Live;
    var w', e := Next(w, Deliver(i, env)), w.entries[i];
    DeliveredFits(w, i);
    var d, m := DeliveryOf(e.msg), e.msg.body.msg;
    var more := Successors(w, d, m, env);
    DeliverView(w, i, env, id);
    SuccessorsBounded(w, d, m, env);
    assert Cyclic(w, id);
    if m.id == id {
      DeliverySpot(w, w', i, env, id, ViewOf(w', id));
      OwnCyclic(w, w', i, more, id);
    } else {
      OtherCyclic(w, w', i, more, id);
    }
  }

  lemma ExpireCyclic(w: World, i: nat, id: Uuid)
    requires Calm(w) && Enabled(w, Expire(i))
    ensures Cyclic(Next(w, Expire(i)), id)
  {
    hide ViewOf, Chain, Live;
    var w', e := Next(w, Expire(i)), w.entries[i];
    assert Placed(w.rows, e) && Cyclic(w, id);
    ExpireKeeps(w, i);
    SameView(w, w', id);
    var lane := LaneOf(e.msg.body.msg);
    var moved := Entry(Main(lane), e.msg.(key := LaneKey(lane)), w.now, Ready);
    if e.Has(id) {
      assert Spot(w, e, ViewOf(w, id));
      assert Spot(w', moved, ViewOf(w, id));
      OwnCyclic(w, w', i, [moved], id);
    } else {
      OtherCyclic(w, w', i, [moved], id);
    }
  }

  lemma ReplayView(w: World, i: nat, fault: Fault, id: Uuid)
    requires Inv(w) && Enabled(w, Replay(i, fault))
    ensures var w', m, v := Next(w, Replay(i, fault)), w.entries[i].msg.body.msg, ViewOf(w, id);
            var back := Entry(Main(LaneOf(m)), ReplayMessage(w.entries[i].msg, m.channel), w.now, Ready);
            && w'.entries == Remove(w.entries, i) + (if fault.Applied() then [back] else [])
            && w'.now == w.now && w'.ttls == w.ttls && w'.rows == w.rows
            && AttemptOf(back.msg) == 0 && back.msg.body == w.entries[i].msg.body
            && ViewOf(w', id) == if m.id != id then v
                                 else if fault.Applied() then v.(replayed := v.replayed + 1) else v.(gone := v.gone + 1)
  {
    hide ViewOf, Inv, Republished;
    DeadEncoded(w, i);
    RepublishKeeps(w, i, fault);
    var m := w.entries[i].msg.body.msg;
    var w1 := Republished(w, w.entries[i], fault);
    var w' := Drop(w1, i, ReplayExit(fault));
    if fault.Applied() {
      EventView(w, w1, Replayed(m.id), id);
      SameView(w1, w', id);
    } else {
      SameView(w, w1, id);
      EventView(w1, w', Left(m.id, Discarded), id);
    }
  }

  lemma DeadEncoded(w: World, i: nat)
    requires Inv(w) && i < |w.entries|
    ensures w.entries[i].msg.body.Encoded?
  {
    assert Placed(w.rows, w.entries[i]);
  }

  lemma ReplayCyclic(w: World, i: nat, fault: Fault, id: Uuid)
    requires Calm(w) && Enabled(w, Replay(i, fault))
    ensures Cyclic(Next(w, Replay(i, fault)), id)
  {
    hide ViewOf, Inv, Chain, Live, Republished, ReplayMessage;
    var w', e := Next(w, Replay(i, fault)), w.entries[i];
    DeadEncoded(w, i);
    ReplayView(w, i, fault, id);
    assert Cyclic(w, id);
    var m := e.msg.body.msg;
    var back := Entry(Main(LaneOf(m)), ReplayMessage(e.msg, m.channel), w.now, Ready);
    var more := if fault.Applied() then [back] else [];
    if m.id == id {
      assert Spot(w, e, ViewOf(w, id));
      OwnCyclic(w, w', i, more, id);
    } else {
      OtherCyclic(w, w', i, more, id);
    }
  }

  lemma PublishRowView(w: World, row: Uuid, fault: Fault, id: Uuid)
    requires Inv(w) && Enabled(w, PublishRow(row, fault))
    ensures var w', n, v := Next(w, PublishRow(row, fault)), w.rows[row], ViewOf(w, id);
            var first := Entry(Main(Lane(n.channel, n.priority)), FirstMessage(n), w.now, Ready);
            && w'.entries == w.entries + (if fault.Applied() then [first] else [])
            && w'.now == w.now && w'.ttls == w.ttls && w'.rows == w.rows
            && n.id == row && first.Has(row) && AttemptOf(first.msg) == 0
            && ViewOf(w', id)
               == if row == id then v.(handed := v.handed + 1, born := v.born + if fault.Applied() then 1 else 0) else v
  {
    hide ViewOf, PublishStored;
    var w' := Next(w, PublishRow(row, fault));
    assert RowOk(w.rows, row);
    PublishRowKeeps(w, row, fault);
    var handed := w.(hist := w.hist + [Handed(row)]);
    EventView(w, handed, Handed(row), id);
    if fault.Applied() {
      EventView(handed, w', Born(row), id);
    } else {
      SameView(handed, w', id);
    }
  }

  lemma PublishRowCyclic(w: World, row: Uuid, fault: Fault, id: Uuid)
    requires Calm(w) && Enabled(w, PublishRow(row, fault))
    ensures Cyclic(Next(w, PublishRow(row, fault)), id)
  {
    hide ViewOf, Chain, Live, Inv, PublishStored, FirstMessage;
    var w', n := Next(w, PublishRow(row, fault)), w.rows[row];
    assert Cyclic(w, id);
    PublishRowView(w, row, fault, id);
    var first := Entry(Main(Lane(n.channel, n.priority)), FirstMessage(n), w.now, Ready);
    LiveAppend(w.entries, if fault.Applied() then [first] else [], id);
    if row == id {
      NotYetHanded(w, id);
      NoCopies(w, id);
    } else {
      Untouched(w, w', id);
    }
  }

  lemma LiveAppend(entries: seq<Entry>, more: seq<Entry>, id: Uuid)
    requires |more| <= 1
    ensures Live(entries + more, id) == Live(entries, id) + if more == [] then 0 else HasId(id)(more[0])
  {
    SumConcat(entries, more, HasId(id));
    if more != [] {
      assert more == [more[0]];
      SumOne(more[0], HasId(id));
    }
  }

  lemma NotYetHanded(w: World, id: Uuid)
    requires Handed(id) !in w.hist
    ensures ViewOf(w, id).handed == 0
  {
  }

  lemma NoCopies(w: World, id: Uuid)
    requires Cyclic(w, id) && ViewOf(w, id).born == 0
    ensures Live(w.entries, id) == 0 && forall k :: 0 <= k < |w.entries| ==> !w.entries[k].Has(id)
  {
    forall k | 0 <= k < |w.entries| ensures !w.entries[k].Has(id) {
      SumAtLeastOne(w.entries, k, HasId(id));
    }
  }

  lemma CancelCyclic(w: World, row: Uuid, id: Uuid)
    requires Cyclic(w, id)
    ensures Cyclic(CancelIfPending(w, row), id)
  {
    hide ViewOf, Chain, Live, Spot;
    var w' := CancelIfPending(w, row);
    if w' != w {
      EventView(w, w', CancelledRow(row), id);
      Untouched(w, w', id);
    }
  }

  lemma StepCyclic(w: World, s: Step, id: Uuid)
    requires Calm(w) && Enabled(w, s) && Uninterrupted(s)
    ensures Cyclic(Next(w, s), id)
  {
    hide ViewOf, Inv, Chain, Live, Spot, Cyclic, PublishStored, Handled, Expired, Republished, CancelIfPending, AddRows,
      Drop;
    assert Cyclic(w, id);
    match s
    case PublishRow(row, fault) => PublishRowCyclic(w, row, fault, id);
    case Deliver(i, env) => DeliverCyclic(w, i, env, id);
    case Expire(i) => ExpireCyclic(w, i, id);
    case Cancel(row) => CancelCyclic(w, row, id);
    case Replay(i, fault) => ReplayCyclic(w, i, fault, id);
    case Insert(_) => SameView(w, Next(w, s), id); Untouched(w, Next(w, s), id);
    case InsertBatch(_, _) => SameView(w, Next(w, s), id); Untouched(w, Next(w, s), id);
    case Tick(_) => SameView(w, Next(w, s), id); Untouched(w, Next(w, s), id);
    case _ =>
  }

  lemma StepReady(w: World, s: Step)
    requires Calm(w) && Enabled(w, s) && Uninterrupted(s)
    ensures forall k :: 0 <= k < |Next(w, s).entries| ==> Next(w, s).entries[k].handling.Ready?
  {
    hide Cyclic, Inv, ReplayMessage, FirstMessage, Handled, Route, ArgsOf;
    match s
    case Deliver(i, env) => DeliverReady(w, i, env);
    case _ =>
  }

  lemma DeliverReady(w: World, i: nat, env: Env)
    requires Calm(w) && Enabled(w, Deliver(i, env))
    ensures forall k :: 0 <= k < |Next(w, Deliver(i, env)).entries| ==>
            Next(w, Deliver(i, env)).entries[k].handling.Ready?
  {
    hide ViewOf, Cyclic, Inv, Handled, Successors;
    DeliveredFits(w, i);
    DeliverView(w, i, env, 0);
    SuccessorsBounded(w, DeliveryOf(w.entries[i].msg), w.entries[i].msg.body.msg, env);
  }

  ghost predicate CalmRun(ttls: RetryTTLs, ws: seq<World>, steps: seq<Step>) {
    IsRun(ttls, ws, steps) && forall k :: 0 <= k < |steps| ==> Uninterrupted(steps[k])
  }

  lemma {:induction false} RunCalm(ttls: RetryTTLs, ws: seq<World>, steps: seq<Step>, k: nat)
    requires CalmRun(ttls, ws, steps) && k < |ws|
    ensures Calm(ws[k])
  {
    hide Next, Enabled, Inv, Uninterrupted;
    if k == 0 {
      EveryRunPlaced(ttls, ws, steps, 0);
      forall id ensures Cyclic(Init(ttls), id) {}
    } else {
      RunCalm(ttls, ws, steps, k - 1);
      EveryRunPlaced(ttls, ws, steps, k);
      StepReady(ws[k - 1], steps[k - 1]);
      forall id ensures Cyclic(ws[k], id) {
        StepCyclic(ws[k - 1], steps[k - 1], id);
      }
    }
  }
}
