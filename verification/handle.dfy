/** The delivery use case as a function of the shared state: one message handled as a chain of single effects, and as
    one atomic step. */
module Handle {
  import opened Domain
  import opened Keys
  import opened Topology
  import opened World

  const MAX_ATTEMPTS := 3

  /** The environment's part in one effect. */
  datatype Choice = Choice(fault: Fault, outcome: Outcome, ctxDone: bool)

  function RetryStatus(cause: Outcome): AttemptStatus { if cause.CircuitOpen? then CircuitOpened else Retrying }

  function DlqKey(d: Delivery, m: NotificationMessage): string {
    if d.key == "" then m.channel + "." + ResolvePriority(d.key, m.priority) else d.key
  }

  function RetryOf(d: Delivery, m: NotificationMessage): Message {
    RetryMessage(m.channel, ResolvePriority(d.key, m.priority), d.attempt + 1, d.attempt + 1, d.correlationId, d.body)
  }

  function DlqOf(d: Delivery, m: NotificationMessage): Message {
    DlqMessage(m.channel, d.attempt, d.correlationId, DlqKey(d, m), d.body)
  }

  function PoisonOf(d: Delivery): Message {
    DlqMessage(ChannelFromRoutingKey(d.key), d.attempt, d.correlationId, d.key, d.body)
  }

  /** The message that goes to the dead-letter exchange: what it carries, and the lane it will be replayed to. */
  lemma DlqReads(d: Delivery, m: NotificationMessage)
    ensures var out, h := DlqOf(d, m), DlqOf(d, m).headers;
            && out.key == m.channel && out.body == d.body
            && (AttemptOf(out) == d.attempt <==> -0x8000_0000 <= d.attempt < 0x8000_0000)
            && h.correlationId == Text(d.correlationId) && h.originalChannel == Text(m.channel)
            && (d.key != "" ==> h.originalRoutingKey == Text(d.key))
            && (d.key == "" ==> h.originalRoutingKey
                                == Text(m.channel + "." + if m.priority in ["high", "normal", "low"] then m.priority
                                                          else "normal"))
  {
    assert SplitN("", '.', 3) == [""];
  }

  /** How a handling ends when its publish reports an error. */
  function AfterFailedPublish(fault: Fault): Exit { if fault.Applied() then MovedUnsure else Discarded }

  // ---------------------------------------------------------------- one effect at a time

  function Effect(w: World, d: Delivery, pc: Pc, c: Choice): (World, Pc) {
    if d.body.Poison? then
      if pc.Enter? then (Publish(w, Dlq, PoisonOf(d), c.fault), Done(Moved)) else (w, Done(Moved))
    else
      var m := d.body.msg;
      match pc
      case Enter =>
        if d.attempt != 0 then (w, AtSend)
        else if c.fault.Reported() then (Mark(w, m.id, c.fault), Done(Discarded))
        else if m.id in w.processed then (w, Done(Duplicate))
        else (Mark(w, m.id, c.fault), AtSend)
      case AtSend =>
        var sent := Send(w, m, d.attempt, c.outcome);
        if c.outcome.Accepted? then (sent, AtDelivered)
        else if c.ctxDone then (sent, Done(Discarded))
        else if d.attempt + 1 <= MAX_ATTEMPTS then (sent, AtRetry(c.outcome))
        else (sent, AtDlq)
      case AtDelivered =>
        (SetStatus(w, m.id, Delivered, c.fault),
         if c.fault.Reported() || m.id !in w.rows then Done(Discarded) else AtLogSuccess)
      case AtLogSuccess => (Record(w, Attempt(m.id, d.attempt, Success), c.fault), Done(Completed))
      case AtRetry(cause) =>
        (Publish(w, Retry, RetryOf(d, m), c.fault),
         if c.fault.Reported() then Done(AfterFailedPublish(c.fault)) else AtLogRetry(cause))
      case AtLogRetry(cause) => (Record(w, Attempt(m.id, d.attempt, RetryStatus(cause)), c.fault), Done(Moved))
      case AtDlq =>
        (Publish(w, Dlq, DlqOf(d, m), c.fault),
         if c.fault.Reported() then Done(AfterFailedPublish(c.fault)) else AtFailed)
      case AtFailed => (SetStatus(w, m.id, Failed, c.fault), AtUnmark)
      case AtUnmark => (Unmark(w, m.id, c.fault), AtLogDlq)
      case AtLogDlq => (Record(w, Attempt(m.id, d.attempt, DeadLettered), c.fault), Done(Moved))
      case Done(_) => (w, pc)
  }

  function Rank(pc: Pc): nat {
    match pc
    case Enter => 7
    case AtSend => 6
    case AtDelivered => 5
    case AtLogSuccess => 4
    case AtRetry(_) => 5
    case AtLogRetry(_) => 4
    case AtDlq => 5
    case AtFailed => 4
    case AtUnmark => 3
    case AtLogDlq => 2
    case Done(_) => 0
  }

  lemma EffectProgress(w: World, d: Delivery, pc: Pc, c: Choice)
    requires !pc.Done?
    ensures Rank(Effect(w, d, pc, c).1) < Rank(pc)
  {
    hide RetryOf, DlqOf, PoisonOf, Publish;
  }

  // ---------------------------------------------------------------- one handling as one step

  /** The environment's part in one whole handling. */
  datatype Env = Env(
    mark: Fault, send: Outcome, ctxDone: bool, delivered: Fault, retry: Fault,
    dlq: Fault, failed: Fault, unmark: Fault, record: Fault)

  function ChoiceAt(env: Env, pc: Pc): Choice {
    var fault := match pc
      case Enter => env.mark
      case AtDelivered => env.delivered
      case AtRetry(_) => env.retry
      case AtDlq => env.dlq
      case AtFailed => env.failed
      case AtUnmark => env.unmark
      case AtLogSuccess => env.record
      case AtLogRetry(_) => env.record
      case AtLogDlq => env.record
      case _ => NoFault;
    Choice(fault, env.send, env.ctxDone)
  }

  /** The effects from `pc` on, run without interruption. */
  function RunFrom(w: World, d: Delivery, pc: Pc, env: Env): (World, Exit)
    decreases Rank(pc)
  {
    if pc.Done? then (w, pc.exit)
    else
      EffectProgress(w, d, pc, ChoiceAt(env, pc));
      var (w', pc') := Effect(w, d, pc, ChoiceAt(env, pc));
      RunFrom(w', d, pc', env)
  }

  function HandleSpec(w: World, d: Delivery, env: Env): (World, Exit) {
    if d.body.Poison? then (Publish(w, Dlq, PoisonOf(d), env.mark), Moved)
    else
      var m := d.body.msg;
      if d.attempt == 0 && env.mark.Reported() then (Mark(w, m.id, env.mark), Discarded)
      else if d.attempt == 0 && m.id in w.processed then (w, Duplicate)
      else
        var marked := if d.attempt == 0 then Mark(w, m.id, NoFault) else w;
        var sent := Send(marked, m, d.attempt, env.send);
        if env.send.Accepted? then HandleAccepted(sent, d, m, env)
        else if env.ctxDone then (sent, Discarded)
        else if d.attempt + 1 <= MAX_ATTEMPTS then HandleRetry(sent, d, m, env)
        else HandleExhausted(sent, d, m, env)
  }

  function HandleAccepted(w: World, d: Delivery, m: NotificationMessage, env: Env): (World, Exit) {
    var updated := SetStatus(w, m.id, Delivered, env.delivered);
    if env.delivered.Reported() || m.id !in w.rows then (updated, Discarded)
    else (Record(updated, Attempt(m.id, d.attempt, Success), env.record), Completed)
  }

  function HandleRetry(w: World, d: Delivery, m: NotificationMessage, env: Env): (World, Exit) {
    var published := Publish(w, Retry, RetryOf(d, m), env.retry);
    if env.retry.Reported() then (published, AfterFailedPublish(env.retry))
    else (Record(published, Attempt(m.id, d.attempt, RetryStatus(env.send)), env.record), Moved)
  }

  function HandleExhausted(w: World, d: Delivery, m: NotificationMessage, env: Env): (World, Exit) {
    var published := Publish(w, Dlq, DlqOf(d, m), env.dlq);
    if env.dlq.Reported() then (published, AfterFailedPublish(env.dlq))
    else
      var failed := SetStatus(published, m.id, Failed, env.failed);
      var unmarked := Unmark(failed, m.id, env.unmark);
      (Record(unmarked, Attempt(m.id, d.attempt, DeadLettered), env.record), Moved)
  }

  lemma RunStep(w: World, d: Delivery, pc: Pc, env: Env)
    requires !pc.Done?
    ensures var (w', pc') := Effect(w, d, pc, ChoiceAt(env, pc));
            RunFrom(w, d, pc, env) == RunFrom(w', d, pc', env)
  {
  }

  lemma RunAccepted(w: World, d: Delivery, env: Env)
    requires d.body.Encoded?
    ensures RunFrom(w, d, AtDelivered, env) == HandleAccepted(w, d, d.body.msg, env)
  {
    hide Record, SetStatus;
    RunStep(w, d, AtDelivered, env);
    var w1 := SetStatus(w, d.body.msg.id, Delivered, env.delivered);
    RunStep(w1, d, AtLogSuccess, env);
  }

  lemma RunRetry(w: World, d: Delivery, cause: Outcome, env: Env)
    requires d.body.Encoded? && cause == env.send
    ensures RunFrom(w, d, AtRetry(cause), env) == HandleRetry(w, d, d.body.msg, env)
  {
    hide RetryOf, Publish;
    var c := ChoiceAt(env, AtRetry(cause));
    assert c.fault == env.retry;
    var step := Effect(w, d, AtRetry(cause), c);
    assert step.0 == Publish(w, Retry, RetryOf(d, d.body.msg), env.retry);
    RunStep(w, d, AtRetry(cause), env);
    if !env.retry.Reported() {
      assert step.1 == AtLogRetry(cause);
      RunStep(step.0, d, AtLogRetry(cause), env);
    }
  }

  lemma RunExhausted(w: World, d: Delivery, env: Env)
    requires d.body.Encoded?
    ensures RunFrom(w, d, AtDlq, env) == HandleExhausted(w, d, d.body.msg, env)
  {
    hide DlqOf, Publish, Record, SetStatus, Unmark;
    var id := d.body.msg.id;
    RunStep(w, d, AtDlq, env);
    var w1 := Publish(w, Dlq, DlqOf(d, d.body.msg), env.dlq);
    RunStep(w1, d, AtFailed, env);
    var w2 := SetStatus(w1, id, Failed, env.failed);
    RunStep(w2, d, AtUnmark, env);
    RunStep(Unmark(w2, id, env.unmark), d, AtLogDlq, env);
  }

  /** Performing the effects one by one, uninterrupted, is the atomic handling. */
  lemma RunIsHandle(w: World, d: Delivery, env: Env)
    ensures RunFrom(w, d, Enter, env) == HandleSpec(w, d, env)
  {
    hide Publish, PoisonOf, HandleAccepted, HandleRetry, HandleExhausted;
    RunStep(w, d, Enter, env);
    if d.body.Encoded? {
      var m := d.body.msg;
      var marked := if d.attempt == 0 then Mark(w, m.id, NoFault) else w;
      RunStep(marked, d, AtSend, env);
      var sent := Send(marked, m, d.attempt, env.send);
      RunAccepted(sent, d, env);
      RunRetry(sent, d, env.send, env);
      RunExhausted(sent, d, env);
    }
  }
}
