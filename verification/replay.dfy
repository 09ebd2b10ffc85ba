/** The admin replay of a dead-letter queue: the loop, exactly what it moves, and its place in the protocol. */
module Replays {
  import opened Domain
  import opened Keys
  import opened Topology
  import opened Routing
  import opened World
  import opened Protocol
  import opened Placement
  import opened Queues
  import opened Stores

  const DEFAULT_REPLAY_LIMIT := 10
  const MAX_REPLAY_LIMIT := 100

  /** The `limit` query parameter, as strconv.Atoi reads it. */
  datatype LimitParam = Missing | NotANumber | Number(n: int)

  /** How the calls of one replay end, by the number of messages replayed before. */
  datatype ReplayEnv = ReplayEnv(channelOpens: bool, getFails: nat -> bool, publish: nat -> Fault, inspects: bool)

  datatype ReplayResponse = BadRequest | ServerError | Replayed(replayed: nat, remaining: nat)

  // ---------------------------------------------------------------- specification

  function LimitOf(p: LimitParam): Option<nat> {
    match p
    case Missing => Some(DEFAULT_REPLAY_LIMIT)
    case NotANumber => None
    case Number(n) => if n < 1 then None else if n > MAX_REPLAY_LIMIT then Some(MAX_REPLAY_LIMIT) else Some(n)
  }

  predicate Halts(env: ReplayEnv, k: nat) { env.getFails(k) || env.publish(k).Reported() }

  /** The first message at which the loop halts, n if none before. */
  function FirstHalt(env: ReplayEnv, k: nat, n: nat): (h: nat)
    requires k <= n
    ensures k <= h <= n && (h < n ==> Halts(env, h)) && forall j :: k <= j < h ==> !Halts(env, j)
    decreases n - k
  {
    if k == n || Halts(env, k) then k else FirstHalt(env, k + 1, n)
  }

  /** How a replay of at most `limit` of `n` dead letters ends: messages gone from the queue, messages republished,
      error. */
  function ReplayEnd(env: ReplayEnv, limit: nat, n: nat): (nat, nat, bool) {
    var most := if limit < n then limit else n;
    var h := FirstHalt(env, 0, most);
    if h == most then (h, h, h < limit && env.getFails(h))
    else if env.getFails(h) then (h, h, true)
    else (h + 1, if env.publish(h).Applied() then h + 1 else h, true)
  }

  /** Without a failing call a replay moves min(limit, n) messages; with its first failing call at message k it has
      moved the k messages before. A failing get leaves message k where it was, a failing publish takes it out, and it
      is republished only if that publish took effect. At the end of the queue only the get can fail. */
  lemma ReplayEndExact(env: ReplayEnv, limit: nat, n: nat, k: nat)
    requires k <= limit && k <= n && forall j :: 0 <= j < k ==> !env.getFails(j) && env.publish(j).NoFault?
    ensures k == limit ==> ReplayEnd(env, limit, n) == (k, k, false)
    ensures k < limit && env.getFails(k) ==> ReplayEnd(env, limit, n) == (k, k, true)
    ensures k < limit && !env.getFails(k) && k == n ==> ReplayEnd(env, limit, n) == (k, k, false)
    ensures k < limit && !env.getFails(k) && k < n && env.publish(k).Before? ==>
              ReplayEnd(env, limit, n) == (k + 1, k, true)
    ensures k < limit && !env.getFails(k) && k < n && env.publish(k).After? ==>
              ReplayEnd(env, limit, n) == (k + 1, k + 1, true)
  {
    var h := FirstHalt(env, 0, if limit < n then limit else n);
    assert k < h ==> !Halts(env, k);
  }

  /** The messages of q, republished in order. */
  function Landed(now: nat, q: seq<Entry>, channel: string): seq<Entry> {
    if q == [] then []
    else Landed(now, q[..|q| - 1], channel)
         + Arrivals(now, Notifications, ReplayMessage(q[|q| - 1].msg, channel), NoFault)
  }

  // ---------------------------------------------------------------- the loop

  class AdminHandler {
    const broker: Broker

    constructor (broker: Broker)
      ensures this.broker == broker
    {
      this.broker := broker;
    }

    /** Of the dead letters waiting before, the first `gone` have left the queue and the first `moved` been
        republished. */
    ghost predicate OnTrack(before: seq<Entry>, channel: string, gone: nat, moved: nat)
      reads broker
    {
      var q := Waiting(before, Dead(channel));
      && gone <= |q| && moved <= |q|
      && broker.entries == Without(before, Dead(channel), gone) + Landed(broker.now, q[..moved], channel)
    }

    /** One round: the next dead letter, if any, is fetched, republished, and acked or, if that fails, nacked. */
    method ReplayNext(channel: string, replayed: nat, env: ReplayEnv, ghost before: seq<Entry>)
      returns (empty: bool, err: bool)
      requires OnTrack(before, channel, replayed, replayed)
      modifies broker`entries
      ensures err <==> env.getFails(replayed) || (!empty && env.publish(replayed).Reported())
      ensures empty <==> !env.getFails(replayed) && replayed == |Waiting(before, Dead(channel))|
      ensures if empty || env.getFails(replayed) then OnTrack(before, channel, replayed, replayed)
              else OnTrack(before, channel, replayed + 1,
                           if env.publish(replayed).Applied() then replayed + 1 else replayed)
    {
      hide ReplayMessage, Arrivals, Waiting, Front, Without, Landed, Remove;
      if env.getFails(replayed) {
        return false, true;
      }
      FrontOfRest(broker.now, before, channel, replayed);
      var tag, ok := broker.Get(Dead(channel));
      if !ok {
        return true, false;
      }
      var msg := broker.entries[tag].msg;
      var originalRoutingKey := HeaderString(msg.headers.originalRoutingKey);
      if originalRoutingKey == "" {
        originalRoutingKey := channel + ".normal";
      }
      var correlationId := HeaderString(msg.headers.correlationId);
      ReplayMessageIs(msg, channel, originalRoutingKey, correlationId);
      var pubErr := broker.PublishToExchange(Notifications, originalRoutingKey,
        Headers(Int32(0), Text(correlationId), Absent, Absent), msg.body, env.publish(replayed));
      OneMore(broker.now, before, channel, replayed, env.publish(replayed), Running(Enter));
      if pubErr {
        broker.Nack(tag, false);
        return false, true;
      }
      broker.Ack(tag);
      return false, false;
    }

    /** Nothing fails before the k-th message; there the loop ends: at the limit or the end of the queue, with a get
        that fails, or with a publish that reports an error. */
    ghost predicate EndedAt(before: seq<Entry>, channel: string, env: ReplayEnv, limit: nat, k: nat, r: ReplayResponse)
      reads broker
    {
      var n := |Waiting(before, Dead(channel))|;
      && k <= limit && k <= n && (forall j :: 0 <= j < k ==> !env.getFails(j) && env.publish(j).NoFault?)
      && if k < limit && env.getFails(k) then OnTrack(before, channel, k, k) && r.ServerError?
         else if k == limit || k == n then
           && OnTrack(before, channel, k, k)
           && r == ReplayResponse.Replayed(k, if env.inspects then n - k else 0)
         else
           && OnTrack(before, channel, k + 1, if env.publish(k).After? then k + 1 else k)
           && env.publish(k).Reported() && r.ServerError?
    }

    lemma EndReads(before: seq<Entry>, channel: string, env: ReplayEnv, limit: nat, k: nat, r: ReplayResponse)
      requires EndedAt(before, channel, env, limit, k, r)
      ensures var n := |Waiting(before, Dead(channel))|;
              var (gone, moved, failed) := ReplayEnd(env, limit, n);
              && OnTrack(before, channel, gone, moved)
              && r == if failed then ServerError
                      else ReplayResponse.Replayed(gone, if env.inspects then n - gone else 0)
    {
      hide OnTrack, ReplayEnd, Waiting;
      ReplayEndExact(env, limit, |Waiting(before, Dead(channel))|, k);
    }

    method ReplayDLQ(channel: string, limitParam: LimitParam, env: ReplayEnv) returns (r: ReplayResponse)
      modifies broker`entries
      ensures !ValidChannel(channel) || LimitOf(limitParam).None? <==> r.BadRequest?
      ensures r.BadRequest? || !env.channelOpens ==> broker.entries == old(broker.entries)
      ensures !r.BadRequest? && !env.channelOpens ==> r.ServerError?
      ensures !r.BadRequest? && env.channelOpens ==>
                var q := Waiting(old(broker.entries), Dead(channel));
                var (gone, moved, failed) := ReplayEnd(env, LimitOf(limitParam).value, |q|);
                && OnTrack(old(broker.entries), channel, gone, moved)
                && r == if failed then ServerError
                   else ReplayResponse.Replayed(gone, if env.inspects then |q| - gone else 0)
      ensures r.BadRequest? <==>
                || channel !in ["email", "sms", "push"]
                || limitParam.NotANumber? || (limitParam.Number? && limitParam.n < 1)
      ensures !r.BadRequest? && env.channelOpens ==>
                var before := old(broker.entries);
                var limit := if limitParam.Missing? then 10 else if limitParam.n > 100 then 100 else limitParam.n;
                exists k: nat :: EndedAt(before, channel, env, limit, k, r)
    {
      hide Waiting, Without, Landed, ReplayEnd;
      if !ValidChannel(channel) {
        return BadRequest;
      }
      var limit := DEFAULT_REPLAY_LIMIT;
      if !limitParam.Missing? {
        if limitParam.NotANumber? || limitParam.n < 1 {
          return BadRequest;
        }
        limit := if limitParam.n > MAX_REPLAY_LIMIT then MAX_REPLAY_LIMIT else limitParam.n;
      }
      if !env.channelOpens {
        return ServerError;
      }
      ghost var before := broker.entries;
      ghost var q := Waiting(before, Dead(channel));
      var replayed := 0;
      NothingYet(broker.now, before, channel);
      while replayed < limit
        invariant replayed <= limit && OnTrack(before, channel, replayed, replayed)
        invariant forall k :: 0 <= k < replayed ==> !env.getFails(k) && env.publish(k).NoFault?
      {
        var empty, err := ReplayNext(channel, replayed, env, before);
        if err {
          assert EndedAt(before, channel, env, limit, replayed, ServerError);
          EndReads(before, channel, env, limit, replayed, ServerError);
          return ServerError;
        }
        if empty {
          break;
        }
        replayed := replayed + 1;
      }
      Leftover(broker.now, before, channel, replayed);
      var remaining := 0;
      if env.inspects {
        remaining := broker.QueueInspect(Dead(channel));
      }
      r := ReplayResponse.Replayed(replayed, remaining);
      assert EndedAt(before, channel, env, limit, replayed, r);
      EndReads(before, channel, env, limit, replayed, r);
    }
  }

  lemma NothingYet(now: nat, before: seq<Entry>, channel: string)
    ensures Without(before, Dead(channel), 0) + Landed(now, Waiting(before, Dead(channel))[..0], channel) == before
  {
  }

  lemma ReplayMessageIs(msg: Message, channel: string, key: string, correlationId: string)
    requires correlationId == HeaderString(msg.headers.correlationId)
    requires var original := HeaderString(msg.headers.originalRoutingKey);
             key == if original == "" then channel + ".normal" else original
    ensures ReplayMessage(msg, channel)
            == Message(key, Headers(Int32(0), Text(correlationId), Absent, Absent), msg.body)
  {
  }

  /** Replayed messages land in main queues. */
  lemma {:induction false} LandedInMain(now: nat, q: seq<Entry>, channel: string, c: string)
    ensures Waiting(Landed(now, q, channel), Dead(c)) == []
  {
    hide ReplayMessage;
    if q != [] {
      var m := ReplayMessage(q[|q| - 1].msg, channel);
      LandedInMain(now, q[..|q| - 1], channel, c);
      WaitingConcat(Landed(now, q[..|q| - 1], channel), Arrivals(now, Notifications, m, NoFault), Dead(c));
      ArrivesInMain(now, m, c);
    }
  }

  lemma ArrivesInMain(now: nat, m: Message, c: string)
    ensures Waiting(Arrivals(now, Notifications, m, NoFault), Dead(c)) == []
  {
    if Route(Notifications, m.key).Some? {
      assert Reaches(Notifications, m.key, Route(Notifications, m.key).value);
      WaitingOne(Arrivals(now, Notifications, m, NoFault)[0], Dead(c));
    }
  }

  /** After n messages, the dead-letter queue holds the rest. */
  lemma Leftover(now: nat, before: seq<Entry>, channel: string, n: nat)
    requires n <= |Waiting(before, Dead(channel))|
    ensures var q := Waiting(before, Dead(channel));
            Waiting(Without(before, Dead(channel), n) + Landed(now, q[..n], channel), Dead(channel)) == q[n..]
  {
    hide Waiting, Without, Landed;
    var q := Waiting(before, Dead(channel));
    WithoutQueues(before, Dead(channel), n, Dead(channel));
    LandedInMain(now, q[..n], channel, channel);
    WaitingConcat(Without(before, Dead(channel), n), Landed(now, q[..n], channel), Dead(channel));
  }

  lemma FrontOfRest(now: nat, before: seq<Entry>, channel: string, n: nat)
    requires n <= |Waiting(before, Dead(channel))|
    ensures var q := Waiting(before, Dead(channel));
            var left, landed := Without(before, Dead(channel), n), Landed(now, q[..n], channel);
            var i := Front(left + landed, Dead(channel));
            && (i < |left + landed| <==> n < |q|)
            && (n < |q| ==> i == Front(left, Dead(channel)) && i < |left| && (left + landed)[i] == q[n])
  {
    hide Waiting, Without, Landed, Front;
    var q := Waiting(before, Dead(channel));
    var left, landed := Without(before, Dead(channel), n), Landed(now, q[..n], channel);
    Leftover(now, before, channel, n);
    FrontWaits(left + landed, Dead(channel));
    if n < |q| {
      WithoutNext(before, Dead(channel), n);
      FrontConcat(left, landed, Dead(channel));
    }
  }

  /** The message handed out, republished and then settled: one more gone, and one more landed if the publish took
      effect. */
  lemma OneMore(now: nat, before: seq<Entry>, channel: string, n: nat, fault: Fault, h: Handling)
    requires n < |Waiting(before, Dead(channel))|
    ensures var q := Waiting(before, Dead(channel));
            var left, landed := Without(before, Dead(channel), n), Landed(now, q[..n], channel);
            var i := Front(left + landed, Dead(channel));
            && i < |left + landed|
            && Remove((left + landed)[i := (left + landed)[i].(handling := h)]
                      + Arrivals(now, Notifications, ReplayMessage(q[n].msg, channel), fault), i)
               == Without(before, Dead(channel), n + 1)
                   + Landed(now, q[..if fault.Applied() then n + 1 else n], channel)
  {
    hide Waiting, Without, Front, ReplayMessage, Landed, Arrivals;
    var q := Waiting(before, Dead(channel));
    var left, landed := Without(before, Dead(channel), n), Landed(now, q[..n], channel);
    FrontOfRest(now, before, channel, n);
    WithoutNext(before, Dead(channel), n);
    var i := Front(left, Dead(channel));
    var arrived := Arrivals(now, Notifications, ReplayMessage(q[n].msg, channel), fault);
    LandedNext(now, q, n, channel, fault);
    RemoveMarked(left, i, left[i].(handling := h), landed, arrived);
  }

  lemma LandedNext(now: nat, q: seq<Entry>, n: nat, channel: string, fault: Fault)
    requires n < |q|
    ensures Landed(now, q[..n], channel) + Arrivals(now, Notifications, ReplayMessage(q[n].msg, channel), fault)
            == Landed(now, q[..if fault.Applied() then n + 1 else n], channel)
  {
    hide ReplayMessage;
    assert q[..n + 1][..n] == q[..n] && q[..n + 1][n] == q[n];
  }

  lemma RemoveMarked(left: seq<Entry>, i: nat, e: Entry, landed: seq<Entry>, arrived: seq<Entry>)
    requires i < |left|
    ensures Remove((left + landed)[i := e] + arrived, i) == Remove(left, i) + (landed + arrived)
  {
  }

  // ---------------------------------------------------------------- what a replay moves, queue by queue

  /** The messages of q that their replay keys send to a place, in order. */
  function Addressed(now: nat, q: seq<Entry>, channel: string, place: Place): seq<Entry> {
    if q == [] then []
    else
      var m := ReplayMessage(q[|q| - 1].msg, channel);
      Addressed(now, q[..|q| - 1], channel, place)
      + if Route(Notifications, m.key) == Some(place) then [Entry(place, m, now, Ready)] else []
  }

  lemma {:induction false} LandedAt(now: nat, q: seq<Entry>, channel: string, place: Place)
    ensures Waiting(Landed(now, q, channel), place) == Addressed(now, q, channel, place)
  {
    hide ReplayMessage;
    if q != [] {
      var m := ReplayMessage(q[|q| - 1].msg, channel);
      LandedAt(now, q[..|q| - 1], channel, place);
      var arrived := Arrivals(now, Notifications, m, NoFault);
      WaitingConcat(Landed(now, q[..|q| - 1], channel), arrived, place);
      if arrived != [] {
        WaitingOne(arrived[0], place);
      }
    }
  }

  /** The replayed queue loses exactly its oldest messages; every other queue keeps what it had, followed by the
      republished messages addressed to it, oldest first. */
  lemma ReplayedQueues(now: nat, before: seq<Entry>, channel: string, gone: nat, moved: nat, place: Place)
    requires gone <= |Waiting(before, Dead(channel))| && moved <= |Waiting(before, Dead(channel))|
    ensures var q := Waiting(before, Dead(channel));
            Waiting(Without(before, Dead(channel), gone) + Landed(now, q[..moved], channel), place)
            == if place == Dead(channel) then q[gone..]
               else Waiting(before, place) + Addressed(now, q[..moved], channel, place)
  {
    hide Waiting, Without, Landed, Addressed;
    var q := Waiting(before, Dead(channel));
    WithoutQueues(before, Dead(channel), gone, place);
    LandedAt(now, q[..moved], channel, place);
    LandedInMain(now, q[..moved], channel, channel);
    WaitingConcat(Without(before, Dead(channel), gone), Landed(now, q[..moved], channel), place);
  }

  /** The republished copy of a dead letter, in its row's lane. */
  ghost predicate LandedCopy(e: Entry, landed: Entry) {
    && e.msg.body.Encoded? && landed.place == Main(LaneOf(e.msg.body.msg)) && landed.handling.Ready?
    && landed.msg.body == e.msg.body && AttemptOf(landed.msg) == 0
  }

  /** In reachable states every republished message lands, in the lane of its row, with attempt 0 and its body
      unchanged. */
  lemma {:induction false} AllLand(w: World, q: seq<Entry>, channel: string)
    requires Inv(w) && forall k :: 0 <= k < |q| ==> q[k] in w.entries && q[k].place == Dead(channel)
    ensures |Landed(w.now, q, channel)| == |q|
    ensures forall k :: 0 <= k < |q| ==> LandedCopy(q[k], Landed(w.now, q, channel)[k])
  {
    hide Inv, LandedCopy, Arrivals, ReplayMessage;
    if q != [] {
      AllLand(w, q[..|q| - 1], channel);
      LandsHome(w, q[|q| - 1]);
    }
  }

  lemma LandsHome(w: World, e: Entry)
    requires Inv(w) && e in w.entries && e.place.Dead?
    ensures var landed := Arrivals(w.now, Notifications, ReplayMessage(e.msg, e.place.channel), NoFault);
            |landed| == 1 && LandedCopy(e, landed[0])
  {
    hide Inv, Placed, ReplayMessage, Route;
    DeadPlaced(w, e);
    DeadReplay(w.rows, e);
  }

  lemma DeadPlaced(w: World, e: Entry)
    requires Inv(w) && e in w.entries
    ensures Placed(w.rows, e)
  {
    hide Placed;
    var k :| 0 <= k < |w.entries| && w.entries[k] == e;
  }

  lemma DeadReplay(rows: map<Uuid, Notification>, e: Entry)
    requires Placed(rows, e) && e.place.Dead?
    ensures e.msg.body.Encoded?
    ensures var m := ReplayMessage(e.msg, e.place.channel);
            && Route(Notifications, m.key) == Some(Main(LaneOf(e.msg.body.msg))) && m.body == e.msg.body
               && AttemptOf(m) == 0
  {
    hide Route, RoutingKey, RetryKey;
    var lane := LaneOf(e.msg.body.msg);
    LaneRoutes(lane, 1);
    KeyOfLane(lane);
  }

  // ---------------------------------------------------------------- the loop as protocol steps

  lemma FrontIsHead(w: World, place: Place)
    ensures var i := Front(w.entries, place); i < |w.entries| ==> Head(w, i) && w.entries[i].place == place
  {
  }

  lemma ReplayStepEntries(w: World, i: nat, fault: Fault)
    requires Enabled(w, Step.Replay(i, fault))
    ensures Next(w, Step.Replay(i, fault)).entries
            == Remove(w.entries
                + Arrivals(w.now, Notifications, ReplayMessage(w.entries[i].msg, w.entries[i].place.channel), fault), i)
    ensures Next(w, Step.Replay(i, fault)).now == w.now
  {
    hide ReplayMessage, Arrivals;
  }

  lemma {:induction false} ReplayRun(w: World, channel: string, n: nat) returns (steps: seq<Step>)
    requires n <= |Waiting(w.entries, Dead(channel))|
    ensures |steps| == n && forall s :: s in steps ==> s.Replay? && s.fault.NoFault?
    ensures var q := Waiting(w.entries, Dead(channel));
            && Taken(w, steps).Some? && Taken(w, steps).value.now == w.now
            && Taken(w, steps).value.entries == Without(w.entries, Dead(channel), n) + Landed(w.now, q[..n], channel)
  {
    hide Enabled, Next, Waiting, Without, Landed, Remove;
    if n == 0 {
      steps := [];
      NothingYet(w.now, w.entries, channel);
    } else {
      var init := ReplayRun(w, channel, n - 1);
      var s := ReplayAgain(w, Taken(w, init).value, channel, n - 1, NoFault);
      steps := init + [s];
      TakeConcat(w, init, [s]);
      TakeLast(Taken(w, init).value, s);
    }
  }

  /** One more replay step, after n of them. */
  lemma ReplayAgain(w: World, w1: World, channel: string, n: nat, fault: Fault) returns (s: Step)
    requires n < |Waiting(w.entries, Dead(channel))| && w1.now == w.now
    requires w1.entries
             == Without(w.entries, Dead(channel), n) + Landed(w.now, Waiting(w.entries, Dead(channel))[..n], channel)
    ensures s.Replay? && s.fault == fault && Enabled(w1, s) && Next(w1, s).now == w.now
    ensures Next(w1, s).entries == Without(w.entries, Dead(channel), n + 1)
              + Landed(w.now, Waiting(w.entries, Dead(channel))[..if fault.Applied() then n + 1 else n], channel)
  {
    hide Waiting, Without, Landed, Front, Next, ReplayMessage, Arrivals;
    FrontOfRest(w.now, w.entries, channel, n);
    var i := Front(w1.entries, Dead(channel));
    FrontIsHead(w1, Dead(channel));
    s := Step.Replay(i, fault);
    ReplayStepEntries(w1, i, fault);
    OneMore(w.now, w.entries, channel, n, fault, Ready);
    assert w1.entries[i := w1.entries[i].(handling := Ready)] == w1.entries;
  }

  /** What one call of the loop leaves in the queues is what a run of the protocol's replay steps leaves, of which
      at most the last fails. */
  lemma LoopIsRun(w: World, channel: string, env: ReplayEnv, limit: nat) returns (steps: seq<Step>)
    ensures var q := Waiting(w.entries, Dead(channel));
            var (gone, moved, _) := ReplayEnd(env, limit, |q|);
            && |steps| == gone && (forall s :: s in steps ==> s.Replay?)
            && (forall k :: 0 <= k < gone - 1 ==> steps[k].fault.NoFault?)
            && Taken(w, steps).Some?
            && Taken(w, steps).value.entries
               == Without(w.entries, Dead(channel), gone) + Landed(w.now, q[..moved], channel)
  {
    hide Enabled, Next, Waiting, Without, Landed;
    var q := Waiting(w.entries, Dead(channel));
    var (gone, moved, _) := ReplayEnd(env, limit, |q|);
    var h := FirstHalt(env, 0, if limit < |q| then limit else |q|);
    steps := ReplayRun(w, channel, h);
    if gone > h {
      var w1 := Taken(w, steps).value;
      var s := ReplayAgain(w, w1, channel, h, env.publish(h));
      TakeConcat(w, steps, [s]);
      TakeLast(w1, s);
      steps := steps + [s];
    }
  }
}
