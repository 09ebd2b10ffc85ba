/** The rows of delivery_attempts: what a delivery records, the language of complete trails, and their listing. */
module Audit {
  import opened Domain
  import opened Topology
  import opened World
  import opened Handle
  import opened Protocol
  import opened Placement
  import opened Cycles
  import opened Lives

  /** The recorded attempts of id, in insertion order. */
  function LogOf(log: seq<Attempt>, id: Uuid): (l: seq<Attempt>)
    ensures forall k :: 0 <= k < |l| ==> l[k].id == id
  {
    if log == [] then []
    else
      var last := log[|log| - 1];
      LogOf(log[..|log| - 1], id) + if last.id == id then [last] else []
  }

  lemma LogAppend(log: seq<Attempt>, a: Attempt, id: Uuid)
    ensures LogOf(log + [a], id) == LogOf(log, id) + if a.id == id then [a] else []
  {
    assert (log + [a])[..|log|] == log;
  }

  /** The row that records a provider call. */
  function Entered(send: Event): Attempt
    requires send.Sent?
  {
    Attempt(send.to.id, send.attempt,
            if send.outcome.Accepted? then Success
            else if send.attempt == 3 then DeadLettered
            else if send.outcome.CircuitOpen? then CircuitOpened
            else Retrying)
  }

  /** What a row says of the call it records. */
  ghost predicate SaysOf(a: Attempt, send: Event) {
    && send.Sent? && a.id == send.to.id && a.number == send.attempt
    && (a.status.Success? <==> send.outcome.Accepted?)
    && (a.status.CircuitOpened? <==> send.attempt < 3 && send.outcome.CircuitOpen?)
    && (a.status.Retrying? <==> send.attempt < 3 && (send.outcome.DeliveryFailed? || send.outcome.OtherError?))
    && (a.status.DeadLettered? <==> send.attempt >= 3 && !send.outcome.Accepted?)
  }

  /** One handling adds at most one row, which says of its call what the provider answered. */
  lemma HandleRecords(w: World, d: Delivery, env: Env)
    requires d.body.Encoded?
    ensures var id, log := d.body.msg.id, HandleSpec(w, d, env).0.log;
            && w.log <= log
            && (log != w.log <==>
                  && id in w.rows && env.record.Applied()
                  && (d.attempt == 0 ==> !env.mark.Reported() && id !in w.processed)
                  && if env.send.Accepted? then !env.delivered.Reported()
                     else !env.ctxDone && if d.attempt < 3 then !env.retry.Reported() else !env.dlq.Reported())
            && (log != w.log ==>
                  && |log| == |w.log| + 1
                  && var a := log[|w.log|];
                     && a.id == id && a.number == d.attempt
                     && (a.status.Success? <==> env.send.Accepted?)
                     && (a.status.CircuitOpened? <==> d.attempt < 3 && env.send.CircuitOpen?)
                     && (a.status.Retrying? <==> d.attempt < 3 && (env.send.DeliveryFailed? || env.send.OtherError?))
                     && (a.status.DeadLettered? <==> d.attempt >= 3 && !env.send.Accepted?))
  {
    hide HandleSpec;
    HandleTables(w, d, env);
    assert HandleSpec(w, d, env).0.log == TablesAfter(w, d, d.body.msg, env).log;
  }

  ghost predicate Retells(log: seq<Attempt>, sends: seq<Event>) {
    |log| == |sends| && forall k :: 0 <= k < |sends| ==> sends[k].Sent? && log[k] == Entered(sends[k])
  }

  // ---------------------------------------------------------------- one delivery

  /** What a delivery of a stored notification adds to the trail. */
  function Addition(w: World, d: Delivery, m: NotificationMessage, env: Env): seq<Attempt> {
    if CallsProvider(w, d, m, env)
       && (if env.send.Accepted? then !env.delivered.Reported()
           else !env.ctxDone && if d.attempt <= 2 then !env.retry.Reported() else !env.dlq.Reported())
    then [Entered(SendEvent(w, d, m, env))] else []
  }

  lemma DeliveryLog(w: World, i: nat, env: Env)
    requires Inv(w) && Enabled(w, Deliver(i, env)) && env.record.Applied()
    ensures Next(w, Deliver(i, env)).log
            == w.log + Addition(w, DeliveryOf(w.entries[i].msg), w.entries[i].msg.body.msg, env)
  {
    hide Handled, Inv;
    DeliveredFits(w, i);
    DeliverTables(w, i, env);
    var d, m := DeliveryOf(w.entries[i].msg), w.entries[i].msg.body.msg;
    assert TablesAfter(w, d, m, env).log == w.log + Addition(w, d, m, env);
  }

  /** What a delivery adds to the trail of id. */
  lemma AdditionIs(w: World, d: Delivery, m: NotificationMessage, env: Env, id: Uuid)
    ensures var added := Addition(w, d, m, env);
            LogOf(w.log + added, id) == LogOf(w.log, id) + if m.id == id then added else []
  {
    hide CallsProvider;
    var added := Addition(w, d, m, env);
    if added == [] {
      assert w.log + added == w.log;
    } else {
      SentIsSent(w, d, m, env);
      LogAppend(w.log, Entered(SendEvent(w, d, m, env)), id);
    }
  }

  lemma SentIsSent(w: World, d: Delivery, m: NotificationMessage, env: Env)
    ensures SendEvent(w, d, m, env).Sent? && Entered(SendEvent(w, d, m, env)).id == m.id
  {
  }

  // ---------------------------------------------------------------- the language of trails

  /** Entries numbered 0, 1, 2, 3, 0, 1, ...; `success` only at the very end; number 3 reads `success` or `dlq`, the
      others `success`, `retrying` or `circuit_open`: so only a cycle that ended in `dlq` is followed by another. */
  ghost predicate IsTrail(log: seq<Attempt>) {
    forall k :: 0 <= k < |log| ==>
      && log[k].number == k % 4
      && (log[k].status.Success? ==> k == |log| - 1)
      && (k % 4 == 3 ==> log[k].status.Success? || log[k].status.DeadLettered?)
      && (k % 4 != 3 ==> !log[k].status.DeadLettered?)
  }

  lemma TrailLanguage(ttls: RetryTTLs, sends: seq<Event>, log: seq<Attempt>)
    requires Chain(ttls, sends) && |log| <= |sends|
    requires forall j :: 0 <= j < |log| ==> sends[j].Sent? && log[j] == Entered(sends[j])
    ensures IsTrail(log)
  {
    forall j | 0 <= j < |log|
      ensures log[j].number == j % 4 && (log[j].status.Success? ==> j == |log| - 1)
              && (j % 4 == 3 ==> log[j].status.Success? || log[j].status.DeadLettered?)
              && (j % 4 != 3 ==> !log[j].status.DeadLettered?)
    {
      assert ChainAt(ttls, sends, j);
    }
  }

  // ---------------------------------------------------------------- the listing

  function InsertByNumber(sorted: seq<Attempt>, a: Attempt): seq<Attempt> {
    if sorted == [] || sorted[|sorted| - 1].number <= a.number then sorted + [a]
    else InsertByNumber(sorted[..|sorted| - 1], a) + [sorted[|sorted| - 1]]
  }

  /** ORDER BY attempt_number ASC, id ASC. */
  function ByNumber(log: seq<Attempt>): seq<Attempt> {
    if log == [] then [] else InsertByNumber(ByNumber(log[..|log| - 1]), log[|log| - 1])
  }

  ghost predicate Ascending(log: seq<Attempt>) { forall j, k :: 0 <= j < k < |log| ==> log[j].number <= log[k].number }

  ghost predicate AtMost(log: seq<Attempt>, n: int) { forall k :: 0 <= k < |log| ==> log[k].number <= n }

  lemma {:induction false} InsertAscends(sorted: seq<Attempt>, a: Attempt, n: int)
    requires Ascending(sorted) && AtMost(sorted, n) && a.number <= n
    ensures Ascending(InsertByNumber(sorted, a)) && AtMost(InsertByNumber(sorted, a), n)
  {
    if !(sorted == [] || sorted[|sorted| - 1].number <= a.number) {
      InsertAscends(sorted[..|sorted| - 1], a, sorted[|sorted| - 1].number);
    }
  }

  lemma {:induction false} InsertPermutes(sorted: seq<Attempt>, a: Attempt)
    ensures multiset(InsertByNumber(sorted, a)) == multiset(sorted + [a])
  {
    if !(sorted == [] || sorted[|sorted| - 1].number <= a.number) {
      var init, last := sorted[..|sorted| - 1], sorted[|sorted| - 1];
      InsertPermutes(init, a);
      assert sorted == init + [last];
      assert multiset(sorted + [a]) == multiset(init + [a]) + multiset{last};
    }
  }

  lemma {:induction false} Highest(log: seq<Attempt>) returns (n: int)
    ensures AtMost(log, n)
  {
    n := 0;
    if log != [] {
      var m := Highest(log[..|log| - 1]);
      n := if m < log[|log| - 1].number then log[|log| - 1].number else m;
    }
  }

  lemma InsertLast(sorted: seq<Attempt>, a: Attempt)
    ensures Ascending(sorted + [a]) ==> InsertByNumber(sorted, a) == sorted + [a]
  {
    var all := sorted + [a];
    if sorted != [] && Ascending(all) {
      assert all[|sorted| - 1].number <= all[|sorted|].number;
    }
  }

  /** The rows of one attempt number, in order. */
  function WithNumber(log: seq<Attempt>, number: int): seq<Attempt> {
    if log == [] then []
    else
      var last := log[|log| - 1];
      WithNumber(log[..|log| - 1], number) + if last.number == number then [last] else []
  }

  lemma WithNumberAppend(log: seq<Attempt>, a: Attempt, number: int)
    ensures WithNumber(log + [a], number) == WithNumber(log, number) + if a.number == number then [a] else []
  {
    assert (log + [a])[..|log|] == log;
  }

  /** Inserting a row puts it behind all others of its number. */
  lemma {:induction false} InsertStable(sorted: seq<Attempt>, a: Attempt, number: int)
    ensures WithNumber(InsertByNumber(sorted, a), number)
            == WithNumber(sorted, number) + if a.number == number then [a] else []
  {
    hide WithNumber;
    if sorted == [] || sorted[|sorted| - 1].number <= a.number {
      WithNumberAppend(sorted, a, number);
    } else {
      var init, last := sorted[..|sorted| - 1], sorted[|sorted| - 1];
      InsertStable(init, a, number);
      WithNumberAppend(InsertByNumber(init, a), last, number);
      WithNumberAppend(init, last, number);
      assert sorted == init + [last];
      // the row passes `last` only if their numbers differ
      assert WithNumber(sorted, number) == WithNumber(init, number) + if last.number == number then [last] else [];
    }
  }

  /** The listing is a permutation of the rows in ascending order that keeps rows of one number in order, and does not
      reorder rows that already ascend. */
  lemma {:induction false} ByNumberSorts(log: seq<Attempt>)
    ensures Ascending(ByNumber(log)) && multiset(ByNumber(log)) == multiset(log)
    ensures forall number :: WithNumber(ByNumber(log), number) == WithNumber(log, number)
    ensures Ascending(log) ==> ByNumber(log) == log
  {
    hide InsertByNumber;
    if log != [] {
      var init, last := log[..|log| - 1], log[|log| - 1];
      assert log == init + [last];
      ByNumberSorts(init);
      var n := Highest(ByNumber(init));
      InsertAscends(ByNumber(init), last, if n < last.number then last.number else n);
      InsertPermutes(ByNumber(init), last);
      InsertLast(ByNumber(init), last);
      assert multiset(ByNumber(init) + [last]) == multiset(init + [last]);
      forall number ensures WithNumber(ByNumber(log), number) == WithNumber(log, number) {
        InsertStable(ByNumber(init), last, number);
        WithNumberAppend(init, last, number);
      }
    }
  }

  /** ListAttempts shows the attempts in the order they were made iff at most one cycle has been recorded. */
  lemma ListingIsTrail(log: seq<Attempt>)
    requires IsTrail(log)
    ensures ByNumber(log) == log <==> |log| <= 4
  {
    hide ByNumber;
    ByNumberSorts(log);
    if |log| > 4 {
      assert log[3].number == 3 && log[4].number == 0;
    }
  }
}
