/** The delivery use case as code over the stores. */
module Deliver {
  import opened Domain
  import opened Keys
  import opened Topology
  import opened Routing
  import opened World
  import opened Handle
  import opened Stores

  class DeliverUseCase {
    const updater: NotificationRepository
    const processed: ProcessedRepository
    const retryPublisher: RetryPublisherAdapter
    const attempts: DeliveryAttemptsRepository
    ghost const ttls: RetryTTLs
    ghost var hist: seq<Event>

    constructor (updater: NotificationRepository, processed: ProcessedRepository, retryPublisher: RetryPublisherAdapter,
                 attempts: DeliveryAttemptsRepository, ghost ttls: RetryTTLs)
      ensures this.updater == updater && this.processed == processed && this.retryPublisher == retryPublisher
      ensures this.attempts == attempts && this.ttls == ttls && hist == []
    {
      this.updater, this.processed, this.retryPublisher, this.attempts := updater, processed, retryPublisher, attempts;
      this.ttls, this.hist := ttls, [];
    }

    /** Everything the stores hold, as one value. */
    ghost function Shared(): World
      reads this, updater, processed, retryPublisher.pub, attempts
    {
      World(ttls, retryPublisher.pub.now, updater.rows, updater.batches, processed.ids, retryPublisher.pub.entries,
            attempts.log, hist)
    }

    /** `env` answers the calls Handle makes: the provider's outcome, and how each database or broker call ends. */
    method Handle(body: Body, correlationId: string, attempt: int, originalRoutingKey: string, env: Env)
      returns (err: bool)
      modifies this`hist, updater`rows, processed, retryPublisher.pub`entries, attempts
      ensures var (after, exit) :=
                HandleSpec(old(Shared()), Delivery(originalRoutingKey, attempt, correlationId, body), env);
              Shared() == after && err == !exit.Acks()
    {
      hide RetryMessage, DlqMessage, Arrivals, RouteEvents, Route, ResolvePriority, ChannelFromRoutingKey;
      ghost var d := Delivery(originalRoutingKey, attempt, correlationId, body);
      if body.Poison? {
        var channel := ChannelFromRoutingKey(originalRoutingKey);
        var _ := retryPublisher.PublishDLQ(channel, attempt, correlationId, originalRoutingKey, body, env.mark);
        hist := hist + RouteEvents(Dlq, PoisonOf(d).key, env.mark);
        assert Shared() == Publish(old(Shared()), Dlq, PoisonOf(d), env.mark);
        return false;
      }
      var msg := body.msg;
      if attempt == 0 {
        var inserted, markErr := processed.MarkIfUnprocessed(msg.id, env.mark);
        hist := hist + if env.mark.Applied() && msg.id !in old(processed.ids) then [Marked(msg.id)] else [];
        if markErr {
          return true;
        }
        if !inserted {
          return false;
        }
      }
      ghost var marked := Shared();
      assert marked == if attempt == 0 then Mark(old(Shared()), msg.id, NoFault) else old(Shared());
      var n := ToNotification(msg);
      var sendErr := env.send;
      hist := hist + [Sent(n, attempt, sendErr, retryPublisher.pub.now)];
      assert Shared() == Send(marked, msg, attempt, env.send);
      if sendErr.Accepted? {
        err := Accepted(msg, attempt, d, env);
        return;
      }
      if env.ctxDone {
        return true;
      }
      var retryLevel := attempt + 1;
      var priority := ResolvePriority(originalRoutingKey, msg.priority);
      if retryLevel <= MAX_ATTEMPTS {
        err := RetryLater(msg, attempt, correlationId, priority, body, d, env);
      } else {
        err := DeadLetter(msg, attempt, correlationId, originalRoutingKey, priority, body, d, env);
      }
    }

    /** The provider accepted the notification. */
    method Accepted(msg: NotificationMessage, attempt: int, ghost d: Delivery, env: Env) returns (err: bool)
      requires d.attempt == attempt && d.body == Encoded(msg)
      modifies updater`rows, attempts
      ensures var (after, exit) := HandleAccepted(old(Shared()), d, msg, env); Shared() == after && err == !exit.Acks()
    {
      var updateErr := updater.UpdateStatus(msg.id, Delivered, env.delivered);
      if !updateErr.NoError? {
        return true;
      }
      RecordAttempt(Attempt(msg.id, attempt, Success), env.record);
      return false;
    }

    /** Route to the retry exchange. */
    method RetryLater(msg: NotificationMessage, attempt: int, correlationId: string, priority: string, body: Body,
                      ghost d: Delivery, env: Env) returns (err: bool)
      requires d.attempt == attempt && d.correlationId == correlationId && d.body == body == Encoded(msg)
      requires priority == ResolvePriority(d.key, msg.priority)
      modifies this`hist, retryPublisher.pub`entries, attempts
      ensures var (after, exit) := HandleRetry(old(Shared()), d, msg, env); Shared() == after && err == !exit.Acks()
      ensures err <==> env.retry.Reported()
      ensures attempts.log
              == if err || !env.record.Applied() || msg.id !in updater.rows then old(attempts.log)
                 else old(attempts.log)
                      + [Attempt(msg.id, attempt, if env.send.CircuitOpen? then CircuitOpened else Retrying)]
    {
      hide RetryMessage, Arrivals, RouteEvents, ResolvePriority;
      var level := attempt + 1;
      var status := if env.send.CircuitOpen? then CircuitOpened else Retrying;
      var pubErr := retryPublisher.PublishRetry(msg.channel, priority, level, level, correlationId, body, env.retry);
      hist := hist + RouteEvents(Retry, RetryOf(d, msg).key, env.retry);
      assert Shared() == Publish(old(Shared()), Retry, RetryOf(d, msg), env.retry);
      if pubErr {
        return true;
      }
      RecordAttempt(Attempt(msg.id, attempt, status), env.record);
      return false;
    }

    /** Retries are exhausted. */
    method DeadLetter(msg: NotificationMessage, attempt: int, correlationId: string, originalRoutingKey: string,
                      priority: string, body: Body, ghost d: Delivery, env: Env) returns (err: bool)
      requires d == Delivery(originalRoutingKey, attempt, correlationId, body) && body == Encoded(msg)
      requires priority == ResolvePriority(originalRoutingKey, msg.priority)
      modifies this`hist, updater`rows, processed, retryPublisher.pub`entries, attempts
      ensures var (after, exit) := HandleExhausted(old(Shared()), d, msg, env); Shared() == after && err == !exit.Acks()
    {
      hide DlqMessage, Arrivals, RouteEvents, ResolvePriority;
      var routingKey := originalRoutingKey;
      if routingKey == "" {
        routingKey := msg.channel + "." + priority;
      }
      var pubErr := retryPublisher.PublishDLQ(msg.channel, attempt, correlationId, routingKey, body, env.dlq);
      hist := hist + RouteEvents(Dlq, DlqOf(d, msg).key, env.dlq);
      assert Shared() == Publish(old(Shared()), Dlq, DlqOf(d, msg), env.dlq);
      if pubErr {
        return true;
      }
      ghost var known := processed.ids;
      var _ := updater.UpdateStatus(msg.id, Failed, env.failed);
      ghost var failed := Shared();
      var _ := processed.DeleteProcessed(msg.id, env.unmark);
      hist := hist + if env.unmark.Applied() && msg.id in known then [Unmarked(msg.id)] else [];
      assert Shared() == Unmark(failed, msg.id, env.unmark);
      RecordAttempt(Attempt(msg.id, attempt, DeadLettered), env.record);
      return false;
    }

    /** Errors of the recorder are logged and otherwise ignored. */
    method RecordAttempt(a: Attempt, fault: Fault)
      modifies attempts
      ensures attempts.log
              == if fault.Applied() && a.id in updater.rows then old(attempts.log) + [a] else old(attempts.log)
    {
      var _ := attempts.RecordAttempt(a, a.id in updater.rows, fault);
    }
  }

  /** The adapter the worker runs for each delivery: headers to arguments. */
  method HandleDelivery(u: DeliverUseCase, m: Message, env: Env) returns (err: bool)
    modifies u`hist, u.updater`rows, u.processed, u.retryPublisher.pub`entries, u.attempts
    ensures var (after, exit) := HandleSpec(old(u.Shared()), DeliveryOf(m), env);
            u.Shared() == after && err == !exit.Acks()
  {
    hide HandleSpec;
    var attempt := HeaderInt32(m.headers.attempt);
    err := u.Handle(m.body, HeaderString(m.headers.correlationId), attempt, m.key, env);
  }

  // ---------------------------------------------------------------- what one call of Handle can do

  /** Handle gives a copy up (an error, so a nack without requeue, with no successor published) iff the mark fails
      on a first attempt, or the provider accepted but the status update failed, or it did not and the context is
      cancelled or the onward publish fails outright. */
  lemma DiscardedExactly(w: World, d: Delivery, env: Env)
    requires d.body.Encoded?
    ensures var id := d.body.msg.id;
            HandleSpec(w, d, env).1.Discarded? <==>
              if d.attempt == 0 && env.mark.Reported() then true
              else if d.attempt == 0 && id in w.processed then false
              else if env.send.Accepted? then env.delivered.Reported() || id !in w.rows
              else env.ctxDone || (if d.attempt <= 2 then env.retry == Before else env.dlq == Before)
  {
    hide RetryOf, DlqOf, Publish, SetStatus, Record, Unmark;
  }

  /** Handle returns nil, so the message is acked, iff the body is poison, or its first attempt was marked before, or
      the calls that decide about the copy succeed: the mark, the status update after an accepted call, the onward
      publish after a failed one. */
  lemma AckedExactly(w: World, d: Delivery, env: Env)
    ensures HandleSpec(w, d, env).1.Acks() <==>
              if d.body.Poison? then true
              else if d.attempt == 0 && env.mark.Reported() then false
              else if d.attempt == 0 && d.body.msg.id in w.processed then true
              else if env.send.Accepted? then env.delivered.NoFault? && d.body.msg.id in w.rows
              else !env.ctxDone && if d.attempt < 3 then env.retry.NoFault? else env.dlq.NoFault?
  {
    hide RetryOf, DlqOf, PoisonOf, Publish, SetStatus, Record, Unmark;
  }

  /** A body that does not parse never reaches provider, ledger, table or trail: it is acked, and its copy survives in
      the dead-letter queue iff that publish took effect and the key it came with starts with a channel's name. */
  lemma PoisonExactly(w: World, d: Delivery, env: Env)
    requires d.body.Poison?
    ensures var (w', exit) := HandleSpec(w, d, env);
            && exit.Acks() && w'.rows == w.rows && w'.processed == w.processed && w'.log == w.log
            && (forall ev :: ev in w'.hist && ev !in w.hist ==> ev.Unrouted?)
            && (w'.entries != w.entries <==> env.mark.Applied() && ValidChannel(ChannelFromRoutingKey(d.key)))
            && (w'.entries != w.entries ==>
                  w'.entries == w.entries + [Entry(Dead(ChannelFromRoutingKey(d.key)), PoisonOf(d), w.now, Ready)])
            && (w'.entries != w.entries <==>
                  env.mark.Applied() && ("email" <= d.key || "sms" <= d.key || "push" <= d.key))
            && forall channel :: channel in ["email", "sms", "push"] && channel <= d.key && env.mark.Applied() ==>
                 var e := w'.entries[|w.entries|];
                 && e.place == Dead(channel) && e.msg.key == channel && e.msg.body == d.body
                 && e.msg.headers
                    == Headers(Int32(AsInt32(d.attempt)), Text(d.correlationId), Text(d.key), Text(channel))
  {
    hide ChannelFromRoutingKey;
    var channel := ChannelFromRoutingKey(d.key);
    DlqRoute(channel);
    forall c | c in ["email", "sms", "push"]
      ensures (channel == c <==> c <= d.key)
              && (ValidChannel(channel) <==> "email" <= d.key || "sms" <= d.key || "push" <= d.key)
    {
      ChannelReads(d.key, c);
    }
    assert "email" in ["email", "sms", "push"];
    var added := Arrivals(w.now, Dlq, PoisonOf(d), env.mark);
    assert |w.entries + added| == |w.entries| + |added|;
  }

  lemma DlqRoute(key: string)
    ensures Route(Dlq, key) == if ValidChannel(key) then Some(Dead(key)) else None
  {
    hide ValidChannel;
    PlacesAreValid(Dead(key));
    assert ValidPlace(Dead(key)) <==> ValidChannel(key);
    if Route(Dlq, key).Some? {
      var p := Route(Dlq, key).value;
      assert Routing.Reaches(Dlq, key, p);
      PlacesAreValid(p);
    } else {
      assert !Routing.Reaches(Dlq, key, Dead(key));
    }
  }
}
