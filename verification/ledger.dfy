/** The dedup ledger under arbitrary redelivery and interleaving. */
module Ledger {
  import opened Domain
  import opened Keys
  import opened Lists
  import opened Topology
  import opened Routing
  import opened World
  import opened Handle
  import opened Protocol
  import opened Placement

  /** Provider calls made for id with the given attempt number; only the unsuccessful ones if `failed`. */
  function SendsAt(hist: seq<Event>, id: Uuid, attempt: int, failed: bool): nat {
    if hist == [] then 0
    else SendsAt(hist[..|hist| - 1], id, attempt, failed) + CountsAs(hist[|hist| - 1], id, attempt, failed)
  }

  function CountsAs(ev: Event, id: Uuid, attempt: int, failed: bool): nat {
    if ev.Sent? && ev.to.id == id && ev.attempt == attempt && (failed ==> !ev.outcome.Accepted?) then 1 else 0
  }

  lemma {:induction false} SendsAtAppend(hist: seq<Event>, more: seq<Event>, id: Uuid, attempt: int, failed: bool)
    requires |more| <= 2
    ensures SendsAt(hist + more, id, attempt, failed)
            == SendsAt(hist, id, attempt, failed)
               + (if |more| >= 1 then CountsAs(more[0], id, attempt, failed) else 0)
               + (if |more| == 2 then CountsAs(more[1], id, attempt, failed) else 0)
  {
    if |more| == 0 {
      assert hist + more == hist;
    } else {
      assert (hist + more)[..|hist + more| - 1] == hist + more[..|more| - 1];
      SendsAtAppend(hist, more[..|more| - 1], id, attempt, failed);
    }
  }

  /** Handlers between their mark and their attempt-0 provider call. */
  function AboutToSend(id: Uuid): Entry -> nat {
    (e: Entry) => if e.Has(id) && AttemptOf(e.msg) == 0 && e.handling.Running? && e.handling.pc.AtSend? then 1 else 0
  }

  /** Handlers between their failed last provider call and their ledger delete. */
  function AboutToUnmark(id: Uuid): Entry -> nat {
    (e: Entry) => if e.Has(id) && e.handling.Running?
                     && (e.handling.pc.AtDlq? || e.handling.pc.AtFailed? || e.handling.pc.AtUnmark?)
                  then 1 else 0
  }

  function Marks(w: World, id: Uuid): nat { multiset(w.hist)[Marked(id)] }

  function Unmarks(w: World, id: Uuid): nat { multiset(w.hist)[Unmarked(id)] }

  /** The books as id sees them. */
  datatype Tally = Tally(marks: nat, unmarks: nat, firsts: nat, exhausted: nat, aboutToSend: nat, aboutToUnmark: nat,
                         known: bool)

  ghost function TallyOf(w: World, id: Uuid): Tally {
    Tally(Marks(w, id), Unmarks(w, id), SendsAt(w.hist, id, 0, false), SendsAt(w.hist, id, 3, true),
          Sum(w.entries, AboutToSend(id)), Sum(w.entries, AboutToUnmark(id)), id in w.processed)
  }

  /** Marks and deletes balance against the ledger, and provider calls are covered by them. */
  ghost predicate Balanced(t: Tally) {
    && t.marks == t.unmarks + (if t.known then 1 else 0)
    && t.firsts + t.aboutToSend <= t.marks
    && t.unmarks + t.aboutToUnmark <= t.exhausted
  }

  lemma HandlingTally(w: World, i: nat, h: Handling, id: Uuid)
    requires i < |w.entries|
    ensures var t, e := TallyOf(w, id), w.entries[i];
            && AboutToSend(id)(e) <= t.aboutToSend && AboutToUnmark(id)(e) <= t.aboutToUnmark
            && TallyOf(SetHandling(w, i, h), id)
               == t.(aboutToSend := t.aboutToSend - AboutToSend(id)(e) + AboutToSend(id)(e.(handling := h)),
                     aboutToUnmark := t.aboutToUnmark - AboutToUnmark(id)(e) + AboutToUnmark(id)(e.(handling := h)))
  {
    SumUpdate(w.entries, i, w.entries[i].(handling := h), AboutToSend(id));
    SumUpdate(w.entries, i, w.entries[i].(handling := h), AboutToUnmark(id));
    SumAtLeastOne(w.entries, i, AboutToSend(id));
    SumAtLeastOne(w.entries, i, AboutToUnmark(id));
  }

  lemma ReadyAdded(entries: seq<Entry>, more: seq<Entry>, id: Uuid)
    requires |more| <= 1 && forall e :: e in more ==> e.handling.Ready?
    ensures Sum(entries + more, AboutToSend(id)) == Sum(entries, AboutToSend(id))
    ensures Sum(entries + more, AboutToUnmark(id)) == Sum(entries, AboutToUnmark(id))
  {
    hide Sum;
    if more == [] {
      assert entries + more == entries;
    } else {
      assert more == [more[0]] && AboutToSend(id)(more[0]) == 0 == AboutToUnmark(id)(more[0]);
      SumConcat(entries, more, AboutToSend(id));
      SumConcat(entries, more, AboutToUnmark(id));
      SumOne(more[0], AboutToSend(id));
      SumOne(more[0], AboutToUnmark(id));
    }
  }

  lemma Removed(entries: seq<Entry>, i: nat, id: Uuid)
    requires i < |entries|
    ensures Sum(Remove(entries, i), AboutToSend(id)) <= Sum(entries, AboutToSend(id))
    ensures Sum(Remove(entries, i), AboutToUnmark(id)) <= Sum(entries, AboutToUnmark(id))
  {
    SumRemove(entries, i, AboutToSend(id));
    SumRemove(entries, i, AboutToUnmark(id));
  }

  /** Events the ledger does not count. */
  predicate Neutral(ev: Event) { !ev.Marked? && !ev.Unmarked? && !ev.Sent? }

  lemma NeutralAdded(hist: seq<Event>, more: seq<Event>, id: Uuid)
    requires |more| <= 2 && forall ev :: ev in more ==> Neutral(ev)
    ensures multiset(hist + more)[Marked(id)] == multiset(hist)[Marked(id)]
    ensures multiset(hist + more)[Unmarked(id)] == multiset(hist)[Unmarked(id)]
    ensures SendsAt(hist + more, id, 0, false) == SendsAt(hist, id, 0, false)
    ensures SendsAt(hist + more, id, 3, true) == SendsAt(hist, id, 3, true)
  {
    SendsAtAppend(hist, more, id, 0, false);
    SendsAtAppend(hist, more, id, 3, true);
    assert Marked(id) !in more && Unmarked(id) !in more;
    assert forall k :: 0 <= k < |more| ==> more[k] in more;
  }

  lemma KnownTally(w: World, id: Uuid)
    ensures TallyOf(w, id).known <==> id in w.processed
  {
  }

  lemma OneEventAppend(hist: seq<Event>, ev: Event, x: Event)
    ensures multiset(hist + [ev])[x] == multiset(hist)[x] + if ev == x then 1 else 0
  {
  }

  /** One event more in the history, and perhaps a change to the ledger. */
  lemma EventTally(w: World, w': World, ev: Event, id: Uuid)
    requires w'.hist == w.hist + [ev] && w'.entries == w.entries
    ensures var t := TallyOf(w, id);
            TallyOf(w', id) == t.(marks := t.marks + if ev == Marked(id) then 1 else 0,
                                  unmarks := t.unmarks + if ev == Unmarked(id) then 1 else 0,
                                  firsts := t.firsts + CountsAs(ev, id, 0, false),
                                  exhausted := t.exhausted + CountsAs(ev, id, 3, true),
                                  known := id in w'.processed)
  {
    hide SendsAt, CountsAs, Sum;
    SendsAtAppend(w.hist, [ev], id, 0, false);
    SendsAtAppend(w.hist, [ev], id, 3, true);
    OneEventAppend(w.hist, ev, Marked(id));
    OneEventAppend(w.hist, ev, Unmarked(id));
  }

  lemma MarkTally(w: World, m: Uuid, fault: Fault, id: Uuid)
    ensures var t := TallyOf(w, id);
            TallyOf(Mark(w, m, fault), id)
            == if m == id && fault.Applied() && !t.known then t.(marks := t.marks + 1, known := true) else t
  {
    KnownTally(w, id);
    hide TallyOf;
    if Mark(w, m, fault) != w {
      EventTally(w, Mark(w, m, fault), Marked(m), id);
    }
  }

  lemma UnmarkTally(w: World, m: Uuid, fault: Fault, id: Uuid)
    ensures var t := TallyOf(w, id);
            TallyOf(Unmark(w, m, fault), id)
            == if m == id && fault.Applied() && t.known then t.(unmarks := t.unmarks + 1, known := false) else t
  {
    KnownTally(w, id);
    hide TallyOf;
    if fault.Applied() && m in w.processed {
      EventTally(w, Unmark(w, m, fault), Unmarked(m), id);
    }
  }

  lemma SendTally(w: World, m: NotificationMessage, attempt: int, outcome: Outcome, id: Uuid)
    ensures var t := TallyOf(w, id);
            TallyOf(Send(w, m, attempt, outcome), id)
            == if m.id != id then t
               else t.(firsts := t.firsts + if attempt == 0 then 1 else 0,
                       exhausted := t.exhausted + if attempt == 3 && !outcome.Accepted? then 1 else 0)
  {
    KnownTally(w, id);
    hide TallyOf;
    EventTally(w, Send(w, m, attempt, outcome), Sent(ToNotification(m), attempt, outcome, w.now), id);
  }

  lemma PublishTally(w: World, exchange: Exchange, m: Message, fault: Fault, id: Uuid)
    ensures TallyOf(Publish(w, exchange, m, fault), id) == TallyOf(w, id)
  {
    ReadyAdded(w.entries, Arrivals(w.now, exchange, m, fault), id);
    NeutralAdded(w.hist, RouteEvents(exchange, m.key, fault), id);
  }

  /** What one effect of a handler changes in the books. */
  lemma EffectTally(w: World, d: Delivery, pc: Pc, c: Choice, id: Uuid)
    requires d.body.Encoded?
    ensures var t, own := TallyOf(w, id), d.body.msg.id == id;
            TallyOf(Effect(w, d, pc, c).0, id)
            == if own && pc.Enter? && d.attempt == 0 && c.fault.Applied() && !t.known
               then t.(marks := t.marks + 1, known := true)
               else if own && pc.AtUnmark? && c.fault.Applied() && t.known
               then t.(unmarks := t.unmarks + 1, known := false)
               else if own && pc.AtSend?
               then t.(firsts := t.firsts + if d.attempt == 0 then 1 else 0,
                       exhausted := t.exhausted + if d.attempt == 3 && !c.outcome.Accepted? then 1 else 0)
               else t
  {
    hide TallyOf, RetryOf, DlqOf, Publish, Mark, Unmark, Send;
    var m := d.body.msg;
    KnownTally(w, id);
    match pc
    case AtRetry(_) => PublishTally(w, Retry, RetryOf(d, m), c.fault, id);
    case AtDlq => PublishTally(w, Dlq, DlqOf(d, m), c.fault, id);
    case AtSend => SendTally(w, m, d.attempt, c.outcome, id);
    case Enter => MarkTally(w, m.id, c.fault, id);
    case AtUnmark => UnmarkTally(w, m.id, c.fault, id);
    case AtDelivered => TableTally(w, SetStatus(w, m.id, Status.Delivered, c.fault), id);
    case AtFailed => TableTally(w, SetStatus(w, m.id, Failed, c.fault), id);
    case AtLogSuccess => TableTally(w, Record(w, Attempt(m.id, d.attempt, Success), c.fault), id);
    case AtLogRetry(cause) => TableTally(w, Record(w, Attempt(m.id, d.attempt, RetryStatus(cause)), c.fault), id);
    case AtLogDlq => TableTally(w, Record(w, Attempt(m.id, d.attempt, DeadLettered), c.fault), id);
    case Done(_) =>
  }

  lemma TableTally(w: World, w': World, id: Uuid)
    requires w'.hist == w.hist && w'.entries == w.entries && w'.processed == w.processed
    ensures TallyOf(w', id) == TallyOf(w, id)
  {
  }

  lemma PerformBalanced(w: World, i: nat, c: Choice, id: Uuid)
    requires Inv(w) && Balanced(TallyOf(w, id)) && Enabled(w, Perform(i, c))
    ensures Balanced(TallyOf(Next(w, Perform(i, c)), id))
  {
    hide RetryOf, DlqOf, Publish, TallyOf, Inv;
    var e := w.entries[i];
    var d := DeliveryOf(e.msg);
    var pc := e.handling.pc;
    AttemptInRange(w, i);
    KnownTally(w, id);
    EffectTally(w, d, pc, c, id);
    EffectAppends(w, d, pc, c);
    var (w', pc') := Effect(w, d, pc, c);
    HandlingTally(w, i, Running(pc, e.handling.attached), id);
    HandlingTally(w', i, Running(pc', e.handling.attached), id);
  }

  lemma AttemptInRange(w: World, i: nat)
    requires Inv(w) && i < |w.entries| && w.entries[i].handling.Running?
    ensures w.entries[i].msg.body.Encoded? && 0 <= AttemptOf(w.entries[i].msg) <= 3
  {
    assert Placed(w.rows, w.entries[i]);
  }

  lemma DropBalanced(w: World, i: nat, exit: Exit, id: Uuid)
    requires Balanced(TallyOf(w, id)) && i < |w.entries|
    ensures Balanced(TallyOf(Drop(w, i, exit), id))
  {
    Removed(w.entries, i, id);
    NeutralAdded(w.hist, LeftEvents(w.entries[i].msg.body, exit), id);
  }

  lemma GoneBalanced(w: World, i: nat, id: Uuid)
    requires Balanced(TallyOf(w, id)) && i < |w.entries|
    ensures Balanced(TallyOf(HandlerGone(w, i), id))
  {
    Removed(w.entries, i, id);
  }

  /** A handler that goes on without its delivery counts as before. */
  lemma DetachedBalanced(w: World, i: nat, id: Uuid)
    requires Balanced(TallyOf(w, id)) && i < |w.entries| && w.entries[i].handling.Running?
    ensures Balanced(TallyOf(Detached(w, i), id))
  {
    var e := w.entries[i];
    var requeued, handler := e.(handling := Ready), e.(handling := Running(e.handling.pc, false));
    SumMoved(w.entries, i, requeued, handler, AboutToSend(id));
    SumMoved(w.entries, i, requeued, handler, AboutToUnmark(id));
  }

  /** An element's share moves to the end. */
  lemma SumMoved<T>(s: seq<T>, i: nat, x: T, y: T, f: T -> nat)
    requires i < |s| && f(x) == 0 && f(y) == f(s[i])
    ensures Sum(s[i := x] + [y], f) == Sum(s, f)
  {
    SumUpdate(s, i, x, f);
    SumConcat(s[i := x], [y], f);
    SumOne(y, f);
  }

  lemma SetHandlingBalanced(w: World, i: nat, h: Handling, id: Uuid)
    requires Balanced(TallyOf(w, id)) && i < |w.entries| && (h.Running? ==> h.pc.Enter?)
    ensures Balanced(TallyOf(SetHandling(w, i, h), id))
  {
    HandlingTally(w, i, h, id);
  }

  lemma {:induction false} PerformFromBalanced(w: World, i: nat, env: Env, id: Uuid)
    requires Inv(w) && Balanced(TallyOf(w, id)) && i < |w.entries| && w.entries[i].handling.Running?
    requires w.entries[i].handling.attached
    ensures Balanced(TallyOf(PerformFrom(w, i, env), id))
    decreases Rank(w.entries[i].handling.pc)
  {
    hide Inv, TallyOf, Effect, Drop;
    var pc := w.entries[i].handling.pc;
    if pc.Done? {
      DropBalanced(w, i, pc.exit, id);
    } else {
      var c := ChoiceAt(env, pc);
      EffectProgress(w, DeliveryOf(w.entries[i].msg), pc, c);
      EffectAppends(w, DeliveryOf(w.entries[i].msg), pc, c);
      PerformBalanced(w, i, c, id);
      PerformKeeps(w, i, c);
      PerformFromBalanced(Next(w, Perform(i, c)), i, env, id);
    }
  }

  lemma PublishRowBalanced(w: World, rowId: Uuid, fault: Fault, id: Uuid)
    requires Balanced(TallyOf(w, id)) && rowId in w.rows
    ensures Balanced(TallyOf(PublishStored(w, w.rows[rowId], fault), id))
  {
    hide FirstMessage, Publish, RoutingKey;
    var n := w.rows[rowId];
    var routed := fault.Applied() && Route(Notifications, RoutingKey(n.channel, n.priority)).Some?;
    var born := if routed then [Born(n.id)] else [];
    var handed := w.(hist := w.hist + [Handed(n.id)] + born);
    NeutralAdded(w.hist, [Handed(n.id)], id);
    NeutralAdded(w.hist + [Handed(n.id)], born, id);
    PublishTally(handed, Notifications, FirstMessage(n), fault, id);
  }

  lemma RepublishBalanced(w: World, i: nat, fault: Fault, id: Uuid)
    requires Balanced(TallyOf(w, id)) && i < |w.entries| && w.entries[i].place.Dead?
    ensures Balanced(TallyOf(Republished(w, w.entries[i], fault), id))
  {
    hide ReplayMessage, Publish;
    var e := w.entries[i];
    var m := ReplayMessage(e.msg, e.place.channel);
    var back := fault.Applied() && e.msg.body.Encoded? && Route(Notifications, m.key).Some?;
    var replayed := if back then [Replayed(e.msg.body.msg.id)] else [];
    NeutralAdded(w.hist, replayed, id);
    PublishTally(w.(hist := w.hist + replayed), Notifications, m, fault, id);
  }

  lemma ExpireBalanced(w: World, i: nat, id: Uuid)
    requires Balanced(TallyOf(w, id)) && i < |w.entries| && w.entries[i].place.Hold?
    ensures Balanced(TallyOf(Expired(w, i), id))
  {
    hide Publish, TallyOf, Balanced;
    DropBalanced(w, i, Moved, id);
    var e, args := w.entries[i], ArgsOf(w.entries[i].place, w.ttls);
    var dropped := w.(entries := Remove(w.entries, i));
    assert Drop(w, i, Moved).entries == dropped.entries && Drop(w, i, Moved).hist == dropped.hist;
    TableTally(Drop(w, i, Moved), dropped, id);
    PublishTally(dropped, args.deadLetterExchange, e.msg.(key := args.deadLetterKey), NoFault, id);
  }

  lemma DeliverBalanced(w: World, i: nat, env: Env, id: Uuid)
    requires Inv(w) && Balanced(TallyOf(w, id)) && Enabled(w, Deliver(i, env))
    ensures Balanced(TallyOf(Next(w, Deliver(i, env)), id))
  {
    hide Inv, TallyOf, PerformFrom, Handled;
    SetHandlingBalanced(w, i, Running(Enter), id);
    HandlingKeeps(w, i, Running(Enter));
    PerformFromBalanced(Next(w, Pick(i)), i, env, id);
    UninterruptedIsDeliver(w, i, env);
  }

  lemma CancelBalanced(w: World, row: Uuid, id: Uuid)
    requires Balanced(TallyOf(w, id))
    ensures Balanced(TallyOf(CancelIfPending(w, row), id))
  {
    NeutralAdded(w.hist, [CancelledRow(row)], id);
  }

  lemma StepBalanced(w: World, s: Step, id: Uuid)
    requires Inv(w) && Balanced(TallyOf(w, id)) && Enabled(w, s)
    ensures Balanced(TallyOf(Next(w, s), id))
  {
    hide Inv, TallyOf, Balanced, FreshRow, FreshBatch, PublishStored, SetHandling, Performed, Drop, Handled,
      Expired, CancelIfPending, Republished, AddRows;
    match s
    case PublishRow(row, fault) => PublishRowBalanced(w, row, fault, id);
    case Pick(i) => SetHandlingBalanced(w, i, Running(Enter), id);
    case Perform(i, c) => PerformBalanced(w, i, c, id);
    case Settle(i) =>
      DropBalanced(w, i, w.entries[i].handling.pc.exit, id);
      GoneBalanced(w, i, id);
    case Crash(i) =>
      SetHandlingBalanced(w, i, Ready, id);
      GoneBalanced(w, i, id);
    case Redeliver(i) => DetachedBalanced(w, i, id);
    case Deliver(i, env) => DeliverBalanced(w, i, env, id);
    case Expire(i) => ExpireBalanced(w, i, id);
    case Cancel(row) => CancelBalanced(w, row, id);
    case Replay(i, fault) =>
      RepublishBalanced(w, i, fault, id);
      RepublishAppends(w, i, fault);
      DropBalanced(Republished(w, w.entries[i], fault), i, ReplayExit(fault), id);
    case ReplayCrash(i) => RepublishBalanced(w, i, NoFault, id);
    case Insert(_) => TableTally(w, Next(w, s), id);
    case InsertBatch(_, _) => TableTally(w, Next(w, s), id);
    case Tick(_) => TableTally(w, Next(w, s), id);
  }

  /** In every reachable state: effective marks = effective deletes + ledger membership; attempt-0 provider calls
      <= 1 + deletes; and every delete was preceded by a failed fourth provider call of its own. */
  lemma {:induction false} LedgerEquation(ttls: RetryTTLs, ws: seq<World>, steps: seq<Step>, k: nat, id: Uuid)
    requires IsRun(ttls, ws, steps) && k < |ws|
    ensures Marks(ws[k], id) == Unmarks(ws[k], id) + (if id in ws[k].processed then 1 else 0)
    ensures SendsAt(ws[k].hist, id, 0, false) <= 1 + Unmarks(ws[k], id)
    ensures Unmarks(ws[k], id) <= SendsAt(ws[k].hist, id, 3, true)
    ensures Balanced(TallyOf(ws[k], id))
  {
    hide Inv, Next, Enabled, Marks, Unmarks, SendsAt;
    if k == 0 {
      InitBalanced(ttls, id);
    } else {
      LedgerEquation(ttls, ws, steps, k - 1, id);
      EveryRunPlaced(ttls, ws, steps, k - 1);
      StepBalanced(ws[k - 1], steps[k - 1], id);
    }
  }

  lemma InitBalanced(ttls: RetryTTLs, id: Uuid)
    ensures Balanced(TallyOf(Init(ttls), id))
  {
  }
}
