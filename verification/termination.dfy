/** Redelivery-free runs drain: each message entering a main queue is worth at most seven broker steps. */
module Termination {
  import opened Domain
  import opened Lists
  import opened Topology
  import opened Routing
  import opened World
  import opened Handle
  import opened Protocol
  import opened Placement
  import opened Cycles

  /** The broker steps still ahead of a copy: a delivery and, unless it is the last attempt, an expiry, per attempt. */
  function Weight(e: Entry): nat {
    match e.place
    case Main(_) => if 0 <= AttemptOf(e.msg) <= 3 then 7 - 2 * AttemptOf(e.msg) else 0
    case Hold(_, level) => if 1 <= level <= 3 then 8 - 2 * level else 0
    case Dead(_) => 0
  }

  function Measure(w: World): nat { Sum(w.entries, Weight) }

  predicate BrokerStep(s: Step) { s.Deliver? || s.Expire? }

  /** Steps that put a message into a main queue from outside. */
  predicate Feeds(s: Step) { s.PublishRow? || s.Replay? }

  lemma Swapped(entries: seq<Entry>, i: nat, more: seq<Entry>)
    requires i < |entries| && |more| <= 1
    ensures Sum(Remove(entries, i) + more, Weight) + Weight(entries[i])
            == Sum(entries, Weight) + if more == [] then 0 else Weight(more[0])
  {
    SumRemove(entries, i, Weight);
    SumConcat(Remove(entries, i), more, Weight);
    if more != [] {
      assert more == [more[0]];
      SumOne(more[0], Weight);
    }
  }

  lemma DeliverShrinks(w: World, i: nat, env: Env)
    requires Calm(w) && Enabled(w, Deliver(i, env))
    ensures Measure(Next(w, Deliver(i, env))) < Measure(w)
  {
    hide Inv, Handled, ViewOf, RetryOf, DlqOf, Cyclic;
    DeliveredFits(w, i);
    DeliverView(w, i, env, 0);
    var d, m := DeliveryOf(w.entries[i].msg), w.entries[i].msg.body.msg;
    SuccessorsBounded(w, d, m, env);
    Swapped(w.entries, i, Successors(w, d, m, env));
  }

  lemma ExpireShrinks(w: World, i: nat)
    requires Calm(w) && Enabled(w, Expire(i))
    ensures Measure(Next(w, Expire(i))) < Measure(w)
  {
    hide Expired, Cyclic;
    assert Placed(w.rows, w.entries[i]);
    ExpireKeeps(w, i);
    var e := w.entries[i];
    var lane := LaneOf(e.msg.body.msg);
    Swapped(w.entries, i, [Entry(Main(lane), e.msg.(key := LaneKey(lane)), w.now, Ready)]);
  }

  lemma FeedGrows(w: World, s: Step)
    requires Calm(w) && Enabled(w, s) && Feeds(s)
    ensures Measure(Next(w, s)) <= Measure(w) + 7
  {
    hide Inv, Cyclic, PublishStored, Republished, ViewOf, FirstMessage, ReplayMessage;
    if s.PublishRow? {
      PublishRowView(w, s.id, s.fault, 0);
      var more := Next(w, s).entries[|w.entries|..];
      assert Next(w, s).entries == w.entries + more;
      SumConcat(w.entries, more, Weight);
      if more != [] {
        assert more == [more[0]];
        SumOne(more[0], Weight);
      }
    } else {
      DeadEncoded(w, s.i);
      ReplayView(w, s.i, s.fault, 0);
      var m := w.entries[s.i].msg.body.msg;
      var back := Entry(Main(LaneOf(m)), ReplayMessage(w.entries[s.i].msg, m.channel), w.now, Ready);
      Swapped(w.entries, s.i, if s.fault.Applied() then [back] else []);
    }
  }

  lemma StepMeasure(w: World, s: Step)
    requires Calm(w) && Enabled(w, s) && Uninterrupted(s)
    ensures Measure(Next(w, s)) + (if BrokerStep(s) then 1 else 0) <= Measure(w) + if Feeds(s) then 7 else 0
  {
    hide Inv, Cyclic, PublishStored, Republished, Handled, Expired, Drop;
    match s
    case Deliver(i, env) => DeliverShrinks(w, i, env);
    case Expire(i) => ExpireShrinks(w, i);
    case PublishRow(_, _) => FeedGrows(w, s);
    case Replay(_, _) => FeedGrows(w, s);
    case _ =>
  }

  function Count(steps: seq<Step>, p: Step -> bool): nat {
    if steps == [] then 0 else Count(steps[..|steps| - 1], p) + if p(steps[|steps| - 1]) then 1 else 0
  }

  /** Between any two moments of a run: broker steps taken + work left <= work at the start + 7 per message fed in. */
  lemma {:induction false} WorkBound(ttls: RetryTTLs, ws: seq<World>, steps: seq<Step>, j: nat, k: nat)
    requires CalmRun(ttls, ws, steps) && j <= k < |ws|
    ensures Count(steps[j..k], BrokerStep) + Measure(ws[k]) <= Measure(ws[j]) + 7 * Count(steps[j..k], Feeds)
    decreases k
  {
    hide Next, Enabled, Calm, Uninterrupted, BrokerStep, Feeds, Measure;
    if j < k {
      WorkBound(ttls, ws, steps, j, k - 1);
      RunCalm(ttls, ws, steps, k - 1);
      StepMeasure(ws[k - 1], steps[k - 1]);
      assert steps[j..k][..k - j - 1] == steps[j..k - 1];
    }
  }

  // ---------------------------------------------------------------- progress

  predicate OnlyDeadLetters(w: World) { forall k :: 0 <= k < |w.entries| ==> w.entries[k].place.Dead? }

  lemma FirstOfQueue(w: World, k: nat) returns (i: nat)
    requires Calm(w) && k < |w.entries|
    ensures Head(w, i) && w.entries[i].place == w.entries[k].place
    decreases k
  {
    hide Inv, Cyclic;
    if j: nat :| j < k && w.entries[j].place == w.entries[k].place {
      i := FirstOfQueue(w, j);
    } else {
      i := k;
    }
  }

  /** While anything is outside the dead-letter queues, a broker step is enabled, at the latest once time has passed. */
  lemma Progress(w: World, env: World -> Env) returns (wait: nat, s: Step)
    requires Calm(w) && !OnlyDeadLetters(w)
    ensures BrokerStep(s) && Enabled(Next(w, Tick(wait)), s) && (s.Deliver? ==> s.env == env(Next(w, Tick(wait))))
  {
    hide Inv, Cyclic;
    var k :| 0 <= k < |w.entries| && !w.entries[k].place.Dead?;
    var i := FirstOfQueue(w, k);
    if w.entries[i].place.Main? {
      assert Next(w, Tick(0)) == w;
      wait, s := 0, Deliver(i, env(w));
    } else {
      var due := w.entries[i].at + TtlOf(w, w.entries[i].place);
      wait, s := if due > w.now then due - w.now else 0, Expire(i);
    }
  }

  /** No work is left exactly when nothing is outside the dead-letter queues. */
  lemma WorkDone(w: World)
    requires Inv(w)
    ensures Measure(w) == 0 <==> OnlyDeadLetters(w)
  {
    forall k | 0 <= k < |w.entries| ensures Weight(w.entries[k]) == 0 <==> w.entries[k].place.Dead? {
      assert Placed(w.rows, w.entries[k]);
    }
    NoWeight(w.entries);
  }

  lemma {:induction false} NoWeight(entries: seq<Entry>)
    ensures Sum(entries, Weight) == 0 <==> forall k :: 0 <= k < |entries| ==> Weight(entries[k]) == 0
  {
    if entries != [] {
      var init := entries[..|entries| - 1];
      NoWeight(init);
      assert forall k :: 0 <= k < |init| ==> init[k] == entries[k];
    }
  }

  /** No broker step is possible, now or after any wait. */
  ghost predicate Stuck(w: World) { forall wait: nat, s: Step :: BrokerStep(s) ==> !Enabled(Next(w, Tick(wait)), s) }

  const ACCEPTING := Env(NoFault, Accepted, false, NoFault, NoFault, NoFault, NoFault, NoFault, NoFault)

  lemma StuckExactly(w: World)
    requires Calm(w)
    ensures Stuck(w) <==> OnlyDeadLetters(w)
  {
    hide Inv, Cyclic;
    if !OnlyDeadLetters(w) {
      var wait, s := Progress(w, _ => ACCEPTING);
      assert !Stuck(w);
    }
  }

  /** Every stretch of every redelivery-free run into which nothing is fed takes no more broker steps than there was
      work, and has drained everything into the dead-letter queues if it took that many, however provider, stores
      and broker answer. */
  lemma EveryRunDrains(ttls: RetryTTLs, ws: seq<World>, steps: seq<Step>, j: nat, k: nat)
    requires CalmRun(ttls, ws, steps) && j <= k < |ws| && Count(steps[j..k], Feeds) == 0
    ensures Count(steps[j..k], BrokerStep) <= Measure(ws[j])
    ensures Count(steps[j..k], BrokerStep) == Measure(ws[j]) ==> OnlyDeadLetters(ws[k])
  {
    hide Next, Enabled, Inv, Cyclic, Measure, OnlyDeadLetters, Uninterrupted;
    WorkBound(ttls, ws, steps, j, k);
    RunCalm(ttls, ws, steps, k);
    WorkDone(ws[k]);
  }

  /** A redelivery-free run can come to a standstill only with dead letters, and does so there. */
  lemma StandstillOnlyDead(ttls: RetryTTLs, ws: seq<World>, steps: seq<Step>, k: nat)
    requires CalmRun(ttls, ws, steps) && k < |ws|
    ensures Stuck(ws[k]) <==> OnlyDeadLetters(ws[k])
  {
    hide Next, Enabled, Inv, Cyclic, Stuck, OnlyDeadLetters, Uninterrupted;
    RunCalm(ttls, ws, steps, k);
    StuckExactly(ws[k]);
  }

  /** The steps lead from w to w', with every delivery answered as `env` says for the state it is made in. */
  ghost predicate Leads(w: World, env: World -> Env, steps: seq<Step>, w': World)
    decreases |steps|
  {
    if steps == [] then w' == w
    else
      && Enabled(w, steps[0]) && Uninterrupted(steps[0]) && (steps[0].Deliver? ==> steps[0].env == env(w))
      && Leads(Next(w, steps[0]), env, steps[1..], w')
  }

  /** Whatever the answers in each state, delivering, expiring and waiting lead to a state with only dead letters. */
  lemma {:induction false} Drains(w: World, env: World -> Env) returns (steps: seq<Step>, w': World)
    requires Calm(w)
    ensures Leads(w, env, steps, w') && Calm(w') && OnlyDeadLetters(w')
    ensures forall s :: s in steps ==> BrokerStep(s) || s.Tick?
    decreases Measure(w)
  {
    hide Inv, Cyclic, Measure, OnlyDeadLetters, BrokerStep, Leads;
    if OnlyDeadLetters(w) {
      steps, w' := [], w;
      LeadsNowhere(w, env);
    } else {
      var wait, s := Progress(w, env);
      var w1 := Next(w, Tick(wait));
      StepCalm(w, Tick(wait));
      BrokerUninterrupted(s);
      StepCalm(w1, s);
      StepMeasure(w1, s);
      SameMeasure(w, w1);
      BrokerFeedsNot(s);
      var rest;
      rest, w' := Drains(Next(w1, s), env);
      steps := [Tick(wait), s] + rest;
      LeadsTwo(w, env, Tick(wait), s, rest, w');
    }
  }

  lemma SameMeasure(w: World, w1: World)
    requires w1.entries == w.entries
    ensures Measure(w1) == Measure(w)
  {
  }

  lemma BrokerFeedsNot(s: Step)
    requires BrokerStep(s)
    ensures !Feeds(s)
  {
  }

  lemma BrokerUninterrupted(s: Step)
    requires BrokerStep(s)
    ensures Uninterrupted(s)
  {
  }

  lemma LeadsNowhere(w: World, env: World -> Env)
    ensures Leads(w, env, [], w)
  {
  }

  lemma LeadsTwo(w: World, env: World -> Env, s: Step, t: Step, rest: seq<Step>, w': World)
    requires Enabled(w, s) && Uninterrupted(s) && !s.Deliver? && Enabled(Next(w, s), t) && Uninterrupted(t)
    requires t.Deliver? ==> t.env == env(Next(w, s))
    requires Leads(Next(Next(w, s), t), env, rest, w')
    ensures Leads(w, env, [s, t] + rest, w')
  {
    hide Next, Enabled;
    assert ([s, t] + rest)[1..] == [t] + rest;
    assert ([t] + rest)[1..] == rest;
    assert Leads(Next(w, s), env, [t] + rest, w');
  }

  lemma StepCalm(w: World, s: Step)
    requires Calm(w) && Enabled(w, s) && Uninterrupted(s)
    ensures Calm(Next(w, s))
  {
    hide Next, Enabled, Inv, Cyclic;
    StepKeeps(w, s);
    StepReady(w, s);
    forall id ensures Cyclic(Next(w, s), id) {
      StepCyclic(w, s, id);
    }
  }
}
